/** Heuristic evaluation of a generated answer: plain counts, and five
    scores in [0, 1] computed from the answer, the retrieved context and
    the question, averaged into an overall score with a verbal grade. */
module Evaluation {
  import opened Wrappers
  import opened Text
  import opened SetFacts

  // ---------------------------------------------------------------------
  // evaluate_quantitative
  // ---------------------------------------------------------------------

  predicate IsSentence(t: string) { |t| > 0 && IsStripped(t) }

  /** The stripped non-empty pieces of `s` between full stops. */
  function Sentences(s: string): (ss: seq<string>)
    ensures forall i :: 0 <= i < |ss| ==> IsSentence(ss[i])
  {
    NonBlank(SplitOn(s, '.'))
  }

  function NonBlank(parts: seq<string>): (ss: seq<string>)
    ensures |ss| <= |parts|
    ensures forall i :: 0 <= i < |ss| ==> IsSentence(ss[i])
    decreases |parts|
  {
    if |parts| == 0 then []
    else
      var t := Strip(parts[0]);
      if |t| > 0 then [t] + NonBlank(parts[1..]) else NonBlank(parts[1..])
  }

  datatype Quantitative = Quantitative(
    responseTime: real,
    answerLength: nat,
    wordCount: nat,
    sentenceCount: nat,
    contextLength: nat,
    contextWords: nat,
    baselineCount: nat,
    embeddingCount: nat,
    utilisation: real)

  /** `evaluate_quantitative`, with the result's answer and context (empty
      when missing), its response time and the lengths of its two result
      lists. */
  function EvaluateQuantitative(answer: string, context: string, responseTime: real,
                                baselineCount: nat, embeddingCount: nat): (q: Quantitative)
    ensures q.wordCount == |Words(answer)| && q.contextWords == |Words(context)|
    ensures q.answerLength == |answer| && q.contextLength == |context|
    ensures q.sentenceCount == |Sentences(answer)|
    ensures q.utilisation == Utilisation(q.wordCount, q.contextWords)
  {
    var words := |Words(answer)|;
    var contextWords := |Words(context)|;
    Quantitative(responseTime, |answer|, words, |Sentences(answer)|, |context|, contextWords,
                 baselineCount, embeddingCount, Utilisation(words, contextWords))
  }

  /** Answer words per context word, 0 without context. */
  function Utilisation(words: nat, contextWords: nat): (u: real)
    ensures contextWords == 0 ==> u == 0.0
    ensures contextWords > 0 ==> u * (contextWords as real) == words as real
    ensures u >= 0.0
  {
    RatioTimes(words, contextWords);
    if contextWords > 0 then (words as real) / (contextWords as real) else 0.0
  }

  // ---------------------------------------------------------------------
  // Shared helpers
  // ---------------------------------------------------------------------

  lemma DivTimes(a: real, b: real)
    requires b > 0.0
    ensures (a / b) * b == a
  {}

  lemma RatioTimes(a: nat, b: nat)
    ensures b > 0 ==> ((a as real) / (b as real)) * (b as real) == a as real
  {
    if b > 0 {
      DivTimes(a as real, b as real);
    }
  }

  /** `any(p in s for p in ps)` */
  predicate AnyIn(s: string, ps: seq<string>) {
    exists i :: 0 <= i < |ps| && Contains(s, ps[i])
  }

  predicate InUnit(x: real) { 0.0 <= x <= 1.0 }

  // ---------------------------------------------------------------------
  // _score_relevance
  // ---------------------------------------------------------------------

  /** Question words that carry no topic. */
  const StopWords: seq<string> := ["what", "which", "show", "find", "list", "give"]

  /** The lower-cased question words longer than three characters that are
      not stop words, in order. */
  function Keywords(words: seq<string>): (ks: seq<string>)
    ensures |ks| <= |words|
    ensures forall i :: 0 <= i < |ks| ==> |ks[i]| > 3 && ks[i] !in StopWords
    ensures forall i :: 0 <= i < |ks| ==> ks[i] in words
    decreases |words|
  {
    if |words| == 0 then []
    else
      var init := Keywords(words[..|words| - 1]);
      var w := words[|words| - 1];
      if |w| > 3 && w !in StopWords then init + [w] else init
  }

  /** How many keywords occur in the text. */
  function Matches(text: string, ks: seq<string>): (n: nat)
    ensures n <= |ks|
    decreases |ks|
  {
    if |ks| == 0 then 0
    else Matches(text, ks[..|ks| - 1]) + (if Contains(text, ks[|ks| - 1]) then 1 else 0)
  }

  function MinReal(a: real, b: real): real { if a <= b then a else b }

  /** `_score_relevance` */
  function Relevance(answer: string, query: string): (r: real)
    ensures InUnit(r)
    ensures answer == "" || query == "" ==> r == 0.0
    ensures answer != "" && query != "" ==>
              r == KeywordScore(Lower(answer), Keywords(Words(Lower(query))))
  {
    if answer == "" || query == "" then 0.0
    else KeywordScore(Lower(answer), Keywords(Words(Lower(query))))
  }

  /** The share of keywords found in the lower-cased answer; 0.5 when
      the question has none. */
  function KeywordScore(text: string, ks: seq<string>): (r: real)
    ensures InUnit(r)
    ensures |ks| == 0 ==> r == 0.5
    ensures |ks| > 0 ==> (r == 1.0 <==> forall i :: 0 <= i < |ks| ==> Contains(text, ks[i]))
    ensures |ks| > 0 ==> (r == 0.0 <==> forall i :: 0 <= i < |ks| ==> !Contains(text, ks[i]))
  {
    if |ks| == 0 then 0.5
    else
      var m := Matches(text, ks);
      AllMatched(text, ks);
      NoneMatched(text, ks);
      DivBelowOne(m, |ks|);
      MinReal((m as real) / (|ks| as real), 1.0)
  }

  lemma DivBelowOne(m: nat, n: nat)
    requires 0 < n && m <= n
    ensures 0.0 <= (m as real) / (n as real) <= 1.0
    ensures (m as real) / (n as real) == 1.0 <==> m == n
    ensures (m as real) / (n as real) == 0.0 <==> m == 0
  {
    var q := (m as real) / (n as real);
    DivTimes(m as real, n as real);
    assert q * (n as real) == m as real;
  }

  /** A question taken as its own answer is fully relevant, or neutral
      when it has no keywords. */
  lemma SelfRelevance(query: string)
    requires query != ""
    ensures |Keywords(Words(Lower(query)))| > 0 ==> Relevance(query, query) == 1.0
    ensures |Keywords(Words(Lower(query)))| == 0 ==> Relevance(query, query) == 0.5
  {
    var ws := Words(Lower(query));
    var ks := Keywords(ws);
    WordsOccur(Lower(query));
    forall i | 0 <= i < |ks|
      ensures Contains(Lower(query), ks[i])
    {
      var j :| 0 <= j < |ws| && ws[j] == ks[i];
    }
  }

  /** Every keyword is found exactly when the count reaches the number of
      keywords. */
  lemma {:induction false} AllMatched(text: string, ks: seq<string>)
    ensures Matches(text, ks) == |ks| <==> forall i :: 0 <= i < |ks| ==> Contains(text, ks[i])
    decreases |ks|
  {
    if |ks| > 0 {
      var init := ks[..|ks| - 1];
      AllMatched(text, init);
      assert forall i :: 0 <= i < |init| ==> init[i] == ks[i];
    }
  }

  /** No keyword is found exactly when the count is 0. */
  lemma {:induction false} NoneMatched(text: string, ks: seq<string>)
    ensures Matches(text, ks) == 0 <==> forall i :: 0 <= i < |ks| ==> !Contains(text, ks[i])
    decreases |ks|
  {
    if |ks| > 0 {
      var init := ks[..|ks| - 1];
      NoneMatched(text, init);
      assert forall i :: 0 <= i < |init| ==> init[i] == ks[i];
    }
  }

  // ---------------------------------------------------------------------
  // Numbers: `re.findall(r'\b\d+(?:\.\d+)?\b', s)`
  // ---------------------------------------------------------------------

  /** A word boundary before index `i` (which holds a word character). */
  predicate BoundaryBefore(s: string, i: int)
    requires 0 <= i <= |s|
  {
    i == 0 || !IsWordChar(s[i - 1])
  }

  /** A word boundary after index `k - 1`, which holds a digit. */
  predicate BoundaryAt(s: string, k: int)
    requires 0 <= k <= |s|
  {
    k == |s| || !IsWordChar(s[k])
  }

  /** The end of the number the pattern matches at `i`, if any.  The digit
      runs are taken whole, since a shorter run could not be followed by a
      boundary or a dot; the fraction is tried first and dropped when no
      boundary follows it (a dot is itself a boundary). */
  function NumberAt(s: string, i: nat): (k: Option<nat>)
    requires i < |s|
    ensures k.Some? ==> i < k.value <= |s|
  {
    if !IsDigit(s[i]) || !BoundaryBefore(s, i) then None
    else
      var j := DigitEnd(s, i);
      if j + 1 < |s| && s[j] == '.' && IsDigit(s[j + 1]) && BoundaryAt(s, DigitEnd(s, j + 1)) then
        Some(DigitEnd(s, j + 1))
      else if BoundaryAt(s, j) then Some(j)
      else None
  }

  /** The numbers `re.findall` reports from index `i` on: scanning resumes
      after each match. */
  function NumbersFrom(s: string, i: nat): set<string>
    requires i <= |s|
    decreases |s| - i
  {
    if i == |s| then {}
    else match NumberAt(s, i)
      case Some(k) => {s[i..k]} + NumbersFrom(s, k)
      case None => NumbersFrom(s, i + 1)
  }

  function Numbers(s: string): set<string> {
    NumbersFrom(s, 0)
  }

  /** Digits, optionally followed by a dot and more digits. */
  predicate IsNumeral(x: string) {
    exists d | 0 < d <= |x| :: NumeralSplit(x, d)
  }

  /** `x[..d]` is the integer part of `x` and what follows is empty or a
      dot and the fraction digits. */
  predicate NumeralSplit(x: string, d: int) {
    0 < d <= |x| && (forall i :: 0 <= i < d ==> IsDigit(x[i])) &&
    (d == |x| || (x[d] == '.' && d + 1 < |x| && forall i :: d < i < |x| ==> IsDigit(x[i])))
  }

  /** Every number found is a numeral. */
  lemma {:induction false} NumbersAreNumerals(s: string, i: nat, x: string)
    requires i <= |s| && x in NumbersFrom(s, i)
    ensures IsNumeral(x)
    decreases |s| - i
  {
    if i < |s| {
      match NumberAt(s, i)
      case Some(k) =>
        if x == s[i..k] {
          NumberIsNumeral(s, i);
        } else {
          NumbersAreNumerals(s, k, x);
        }
      case None => NumbersAreNumerals(s, i + 1, x);
    }
  }

  lemma NumberIsNumeral(s: string, i: nat)
    requires i < |s| && NumberAt(s, i).Some?
    ensures IsNumeral(s[i..NumberAt(s, i).value])
  {
    var k := NumberAt(s, i).value;
    var x := s[i..k];
    var j := DigitEnd(s, i);
    var d := j - i;
    assert 0 < d <= |x|;
    assert forall m :: 0 <= m < d ==> x[m] == s[i + m];
    if k != j {
      assert x[d] == '.' && d + 1 < |x|;
      assert forall m :: d < m < |x| ==> x[m] == s[i + m];
    }
    assert NumeralSplit(x, d);
  }

  /** A numeral on its own is found as itself. */
  lemma WholeNumeral(d: string)
    requires |d| > 0 && forall i :: 0 <= i < |d| ==> IsDigit(d[i])
    ensures Numbers(d) == {d}
  {
    DigitEndOf(d, 0, |d|);
    assert NumberAt(d, 0) == Some(|d|);
    assert d[0..|d|] == d;
    assert NumbersFrom(d, |d|) == {};
  }

  lemma WholeDecimal(d: string, f: string)
    requires |d| > 0 && forall i :: 0 <= i < |d| ==> IsDigit(d[i])
    requires |f| > 0 && forall i :: 0 <= i < |f| ==> IsDigit(f[i])
    ensures Numbers(d + "." + f) == {d + "." + f}
  {
    var s := d + "." + f;
    assert forall i :: 0 <= i < |d| ==> s[i] == d[i];
    assert forall i :: |d| < i < |s| ==> s[i] == f[i - |d| - 1];
    DigitEndOf(s, 0, |d|);
    DigitEndOf(s, |d| + 1, |s|);
    assert NumberAt(s, 0) == Some(|s|);
    assert s[0..|s|] == s;
    assert NumbersFrom(s, |s|) == {};
  }

  // ---------------------------------------------------------------------
  // _score_grounding
  // ---------------------------------------------------------------------

  const NoNumbersScore: real := 0.7
  const UngroundedScore: real := 0.3

  /** `_score_grounding`: the share of the answer's numbers that appear in
      the context. */
  function Grounding(answer: string, context: string): (r: real)
    ensures InUnit(r)
    ensures answer == "" || context == "" ==> r == 0.0
    ensures answer != "" && context != "" && Numbers(answer) == {} ==> r == NoNumbersScore
    ensures answer != "" && context != "" && Numbers(answer) != {} && Numbers(context) == {} ==>
              r == UngroundedScore
    ensures answer != "" && context != "" && Numbers(answer) != {} && Numbers(context) != {} ==>
              r == Share(Numbers(answer), Numbers(context))
  {
    if answer == "" || context == "" then 0.0
    else if Numbers(answer) == {} then NoNumbersScore
    else if Numbers(context) == {} then UngroundedScore
    else Share(Numbers(answer), Numbers(context))
  }

  /** The share of the numbers of `a` that are also in `c`. */
  function Share(a: set<string>, c: set<string>): (r: real)
    requires a != {}
    ensures InUnit(r)
    ensures a <= c <==> r == 1.0
    ensures a * c == {} <==> r == 0.0
  {
    ShareCard(a, c);
    (|a * c| as real) / (|a| as real)
  }

  lemma ShareCard(a: set<string>, c: set<string>)
    ensures |a * c| <= |a|
    ensures |a * c| == |a| <==> a <= c
    ensures |a * c| == 0 <==> a * c == {}
  {
    SubsetCard(a * c, a);
    if a * c != a {
      StrictSubsetCard(a * c, a);
    }
  }

  // ---------------------------------------------------------------------
  // _score_completeness
  // ---------------------------------------------------------------------

  /** The completeness score for a word count. */
  function LengthScore(n: nat): (r: real)
    ensures InUnit(r)
    ensures n < 10 <==> r == 0.3
    ensures 10 <= n < 30 || n > 250 <==> r == 0.6
    ensures 30 <= n <= 150 <==> r == 1.0
    ensures 150 < n <= 250 <==> r == 0.8
  {
    if n < 10 then 0.3
    else if n < 30 then 0.6
    else if n <= 150 then 1.0
    else if n <= 250 then 0.8
    else 0.6
  }

  /** `_score_completeness` */
  function Completeness(answer: string): (r: real)
    ensures InUnit(r)
    ensures answer == "" ==> r == 0.0
    ensures answer != "" ==> r == LengthScore(|Words(answer)|)
  {
    if answer == "" then 0.0 else LengthScore(|Words(answer)|)
  }

  // ---------------------------------------------------------------------
  // _score_clarity
  // ---------------------------------------------------------------------

  const ErrorKeywords: seq<string> := ["error", "cannot", "unable", "not found", "no data"]

  function WordTotal(ss: seq<string>): nat
    decreases |ss|
  {
    if |ss| == 0 then 0 else WordTotal(ss[..|ss| - 1]) + |Words(ss[|ss| - 1])|
  }

  function MaxReal(a: real, b: real): real { if a >= b then a else b }

  /** `_score_clarity`: 1, less 0.3 for an average sentence under five
      words and 0.2 for an error word; 0.2 when there is no sentence. */
  function Clarity(answer: string): (r: real)
    ensures InUnit(r)
    ensures answer == "" ==> r == 0.0
    ensures answer != "" && |Sentences(answer)| == 0 ==> r == 0.2
    ensures answer != "" && |Sentences(answer)| > 0 ==>
              var short := WordTotal(Sentences(answer)) < 5 * |Sentences(answer)|;
              var erring := AnyIn(Lower(answer), ErrorKeywords);
              r == 1.0 - (if short then 0.3 else 0.0) - (if erring then 0.2 else 0.0)
  {
    if answer == "" then 0.0
    else
      var ss := Sentences(answer);
      if |ss| == 0 then 0.2
      else
        var average := (WordTotal(ss) as real) / (|ss| as real);
        AverageBelow(WordTotal(ss), |ss|);
        var score := 1.0 - (if average < 5.0 then 0.3 else 0.0)
                         - (if AnyIn(Lower(answer), ErrorKeywords) then 0.2 else 0.0);
        MaxReal(score, 0.0)
  }

  lemma AverageBelow(total: nat, n: nat)
    requires n > 0
    ensures (total as real) / (n as real) < 5.0 <==> total < 5 * n
  {
    var q := (total as real) / (n as real);
    DivTimes(total as real, n as real);
    assert q < 5.0 ==> q * (n as real) < 5.0 * (n as real);
    assert q >= 5.0 ==> q * (n as real) >= 5.0 * (n as real);
  }

  // ---------------------------------------------------------------------
  // _detect_no_hallucination
  // ---------------------------------------------------------------------

  const HedgePhrases: seq<string> := [
    "based on the data", "according to", "the results show", "from the context",
    "data indicates", "cannot determine", "not available", "no information"]
  const AbsoluteClaims: seq<string> := ["always", "never", "all", "none", "every", "must"]
  const AdmitsNoData: seq<string> := ["no data", "cannot", "not available"]

  /** The context length below which a context counts as missing. */
  const ShortContext: nat := 50

  function Clamp(x: real): (r: real)
    ensures InUnit(r)
    ensures InUnit(x) ==> r == x
  {
    MaxReal(MinReal(x, 1.0), 0.0)
  }

  /** `_detect_no_hallucination`: 0.7, plus 0.2 for hedging and minus 0.3
      for absolute claims; 1 when the context is missing and the answer
      says the data is missing. */
  function NoHallucination(answer: string, context: string): (r: real)
    ensures InUnit(r)
    ensures answer == "" ==> r == 1.0
    ensures answer != "" && |context| < ShortContext && AnyIn(Lower(answer), AdmitsNoData) ==> r == 1.0
    ensures answer != "" && !(|context| < ShortContext && AnyIn(Lower(answer), AdmitsNoData)) ==>
              r == 0.7 + (if AnyIn(Lower(answer), HedgePhrases) then 0.2 else 0.0)
                       - (if AnyIn(Lower(answer), AbsoluteClaims) then 0.3 else 0.0)
  {
    if answer == "" then 1.0
    else
      var lower := Lower(answer);
      var score := 0.7 + (if AnyIn(lower, HedgePhrases) then 0.2 else 0.0)
                       - (if AnyIn(lower, AbsoluteClaims) then 0.3 else 0.0);
      var score' := if (context == "" || |context| < ShortContext) && AnyIn(lower, AdmitsNoData)
                    then 1.0 else score;
      Clamp(score')
  }

  // ---------------------------------------------------------------------
  // evaluate_qualitative and _generate_assessment
  // ---------------------------------------------------------------------

  /** `_generate_assessment` */
  function Assessment(overall: real): (a: string)
    ensures overall >= 0.8 <==> a == "Excellent"
    ensures 0.6 <= overall < 0.8 <==> a == "Good"
    ensures 0.4 <= overall < 0.6 <==> a == "Fair"
    ensures overall < 0.4 <==> a == "Poor"
  {
    if overall >= 0.8 then "Excellent"
    else if overall >= 0.6 then "Good"
    else if overall >= 0.4 then "Fair"
    else "Poor"
  }

  datatype Qualitative = Qualitative(
    relevance: real,
    grounding: real,
    completeness: real,
    clarity: real,
    noHallucination: real,
    overall: real,
    assessment: string)

  /** `evaluate_qualitative`: the five scores, their mean and its grade. */
  function EvaluateQualitative(answer: string, context: string, query: string): (q: Qualitative)
    ensures InUnit(q.relevance) && InUnit(q.grounding) && InUnit(q.completeness)
    ensures InUnit(q.clarity) && InUnit(q.noHallucination)
    ensures InUnit(q.overall)
    ensures q.overall * 5.0 == q.relevance + q.grounding + q.completeness + q.clarity + q.noHallucination
    ensures q.assessment == Assessment(q.overall)
  {
    var r := Relevance(answer, query);
    var g := Grounding(answer, context);
    var c := Completeness(answer);
    var l := Clarity(answer);
    var h := NoHallucination(answer, context);
    var overall := (r + g + c + l + h) / 5.0;
    Qualitative(r, g, c, l, h, overall, Assessment(overall))
  }

  /** An empty answer scores 0 everywhere except 1 for not hallucinating,
      and is graded Poor. */
  lemma EmptyAnswer(context: string, query: string)
    ensures var q := EvaluateQualitative("", context, query);
            q.relevance == 0.0 && q.grounding == 0.0 && q.completeness == 0.0 &&
            q.clarity == 0.0 && q.noHallucination == 1.0 &&
            q.overall == 0.2 && q.assessment == "Poor"
  {}
}

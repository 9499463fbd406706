/** How the query test runner compares an expected Cypher query with the one
    the pipeline ran: both are normalised, then compared exactly, by their
    main clauses, and by the node patterns they share. */
module QueryComparison {
  import opened Wrappers
  import opened Text
  import opened CypherText
  import opened SetFacts

  // ---------------------------------------------------------------------
  // normalize_query
  // ---------------------------------------------------------------------

  /** `normalize_query`: falsy input becomes the empty text; otherwise
      whitespace runs collapse to single spaces, letters are lower-cased
      and every parameter reference becomes `$param`. */
  function NormalizeQuery(query: Option<string>): (n: string)
    ensures query.None? || query.value == "" ==> n == ""
    ensures IsLower(n)
    ensures |n| > 0 ==> IsStripped(n)
  {
    if query.None? || query.value == "" then ""
    else
      var ws := Words(query.value);
      SubstituteLowerJoin(ws);
      Normalized(ws)
  }

  /** A word after lower-casing and parameter renaming. */
  function NormWord(w: string): (v: string)
    requires IsWord(w)
    ensures IsWord(v) && IsLower(v)
    ensures SubstituteParams(v) == v
  {
    var l := Lower(w);
    SubstitutePreservesWord(l);
    SubstitutePreservesLower(l);
    SubstituteIdempotent(l);
    SubstituteParams(l)
  }

  function NormWords(ws: seq<string>): (vs: seq<string>)
    requires forall i :: 0 <= i < |ws| ==> IsWord(ws[i])
    ensures |vs| == |ws|
    ensures forall i :: 0 <= i < |vs| ==> vs[i] == NormWord(ws[i])
  {
    seq(|ws|, i requires 0 <= i < |ws| => NormWord(ws[i]))
  }

  /** The normal form of a text split into `ws`. */
  function Normalized(ws: seq<string>): (n: string)
    requires forall i :: 0 <= i < |ws| ==> IsWord(ws[i])
    ensures n == Join(NormWords(ws), " ")
    ensures IsLower(n) && (|n| > 0 ==> IsStripped(n))
  {
    SubstituteLowerJoin(ws);
    JoinOfWordsStripped(NormWords(ws));
    SubstituteParams(Lower(Join(ws, " ")))
  }

  lemma {:induction false} JoinOfWordsLower(vs: seq<string>)
    requires forall i :: 0 <= i < |vs| ==> IsLower(vs[i])
    ensures IsLower(Join(vs, " "))
    decreases |vs|
  {
    if |vs| > 1 {
      JoinOfWordsLower(vs[1..]);
    }
  }

  lemma JoinOfWordsStripped(vs: seq<string>)
    requires forall i :: 0 <= i < |vs| ==> IsWord(vs[i]) && IsLower(vs[i])
    ensures IsLower(Join(vs, " "))
    ensures |Join(vs, " ")| > 0 ==> IsStripped(Join(vs, " "))
  {
    JoinOfWordsLower(vs);
    if |vs| > 0 {
      JoinStripped(vs, " ");
    }
  }

  /** Lower-casing and renaming act word by word on words joined by single
      spaces. */
  lemma {:induction false} SubstituteLowerJoin(ws: seq<string>)
    requires forall i :: 0 <= i < |ws| ==> IsWord(ws[i])
    ensures SubstituteParams(Lower(Join(ws, " "))) == Join(NormWords(ws), " ")
    decreases |ws|
  {
    if |ws| == 1 {
    } else if |ws| > 1 {
      var rest := Join(ws[1..], " ");
      JoinSpaceCons(ws);
      NormCons(ws[0], rest);
      SubstituteLowerJoin(ws[1..]);
      NormJoinCons(ws);
    }
  }

  /** A join of two or more words is the first word, a space, and the join of the rest. */
  lemma JoinSpaceCons(ws: seq<string>)
    requires |ws| > 1
    ensures Join(ws, " ") == ws[0] + (" " + Join(ws[1..], " "))
  {
    ConcatAssoc(ws[0], " ", Join(ws[1..], " "));
  }

  /** Normalising words and joining them peels off the first word like the plain join. */
  lemma NormJoinCons(ws: seq<string>)
    requires |ws| > 1
    requires forall i :: 0 <= i < |ws| ==> IsWord(ws[i])
    ensures Join(NormWords(ws), " ") == NormWord(ws[0]) + (" " + Join(NormWords(ws[1..]), " "))
  {
    var vs := NormWords(ws);
    assert NormWords(ws[1..]) == vs[1..];
    JoinSpaceCons(vs);
  }

  /** Normalising a word followed by a space and more text normalises the two sides apart. */
  lemma NormCons(w: string, rest: string)
    requires IsWord(w)
    ensures SubstituteParams(Lower(w + (" " + rest))) == NormWord(w) + (" " + SubstituteParams(Lower(rest)))
  {
    var lr := Lower(rest);
    LowerAppend(w, " " + rest);
    LowerAppend(" ", rest);
    assert Lower(" ") == " ";
    SubstituteAppend(Lower(w), " " + lr);
    SpaceHead(lr);
  }

  lemma SpaceHead(x: string)
    ensures SubstituteParams(" " + x) == " " + SubstituteParams(x)
  {
    assert (" " + x)[0] == ' ';
    assert (" " + x)[1..] == x;
  }

  /** Normalising a normalised query changes nothing. */
  lemma NormalizeIdempotent(query: Option<string>)
    ensures NormalizeQuery(Some(NormalizeQuery(query))) == NormalizeQuery(query)
  {
    var n := NormalizeQuery(query);
    if n != "" {
      NormalFormFixed(Words(query.value));
    }
  }

  /** The normal form of a word list is its own normal form. */
  lemma NormalFormFixed(ws: seq<string>)
    requires forall i :: 0 <= i < |ws| ==> IsWord(ws[i])
    requires Normalized(ws) != ""
    ensures NormalizeQuery(Some(Normalized(ws))) == Normalized(ws)
  {
    var vs := NormWords(ws);
    var n := Normalized(ws);
    assert n == Join(vs, " ");
    NormalizeSome(n);
    NormalizedOfJoin(vs);
    NormalizedOfNormWords(ws);
  }

  /** Normal words are their own normal form. */
  lemma NormalizedOfNormWords(ws: seq<string>)
    requires forall i :: 0 <= i < |ws| ==> IsWord(ws[i])
    ensures Normalized(NormWords(ws)) == Join(NormWords(ws), " ")
  {
    var vs := NormWords(ws);
    forall i | 0 <= i < |vs|
      ensures IsWord(vs[i]) && IsLower(vs[i]) && SubstituteParams(vs[i]) == vs[i]
    {
      assert vs[i] == NormWord(ws[i]);
    }
    NormalizedFixed(vs);
  }

  lemma NormalizeSome(q: string)
    requires q != ""
    ensures NormalizeQuery(Some(q)) == Normalized(Words(q))
  {}

  lemma NormalizedOfJoin(vs: seq<string>)
    requires forall i :: 0 <= i < |vs| ==> IsWord(vs[i])
    ensures Normalized(Words(Join(vs, " "))) == Normalized(vs)
  {
    WordsJoin(vs);
  }

  lemma NormalizedFixed(vs: seq<string>)
    requires forall i :: 0 <= i < |vs| ==> IsWord(vs[i]) && IsLower(vs[i])
    requires forall i :: 0 <= i < |vs| ==> SubstituteParams(vs[i]) == vs[i]
    ensures Normalized(vs) == Join(vs, " ")
  {
    NormWordsFixed(vs);
  }

  lemma NormWordsFixed(vs: seq<string>)
    requires forall i :: 0 <= i < |vs| ==> IsWord(vs[i]) && IsLower(vs[i])
    requires forall i :: 0 <= i < |vs| ==> SubstituteParams(vs[i]) == vs[i]
    ensures NormWords(vs) == vs
  {
    forall i | 0 <= i < |vs|
      ensures NormWord(vs[i]) == vs[i]
    {
      LowerOfLower(vs[i]);
    }
  }

  /** Queries that differ only in layout, letter case or parameter names
      normalise alike; in particular the normal form is insensitive to how
      the words are spaced. */
  lemma NormalizeIgnoresSpacing(a: string, b: string)
    requires Words(a) == Words(b) && a != "" && b != ""
    ensures NormalizeQuery(Some(a)) == NormalizeQuery(Some(b))
  {}

  // ---------------------------------------------------------------------
  // The clause and pattern scans of compare_queries
  // ---------------------------------------------------------------------

  /** The clause keywords looked for, as whole words. */
  const ClauseWords: set<string> := {"match", "where", "return", "order by", "limit"}

  /** `w` occurs at `i` as a whole word: `\b` on both sides. */
  predicate WholeWordAt(s: string, w: string, i: int) {
    OccursAt(s, w, i)
    && (i == 0 || !IsWordChar(s[i - 1]))
    && (i + |w| == |s| || !IsWordChar(s[i + |w|]))
  }

  /** The set of clause keywords `re.findall` reports.  The keywords start
      with distinct letters and none occurs as a whole word inside another,
      so a left-to-right scan finds exactly the whole-word occurrences. */
  function Clauses(s: string): (cs: set<string>)
    ensures cs <= ClauseWords
  {
    set w | w in ClauseWords && exists i :: 0 <= i <= |s| && WholeWordAt(s, w, i)
  }

  /** A character allowed inside a node pattern: `[\w:]`. */
  predicate IsPatternChar(c: char) { IsWordChar(c) || c == ':' }

  /** `s[i..j+1]` is a node pattern `\([\w:]+\)`. */
  predicate PatternAt(s: string, i: int, j: int) {
    0 <= i && i + 1 < j < |s| && s[i] == '(' && s[j] == ')'
    && forall k :: i < k < j ==> IsPatternChar(s[k])
  }

  /** The set of node patterns `re.findall` reports; patterns cannot
      overlap, since no pattern character is a parenthesis. */
  function Patterns(s: string): set<string> {
    set i, j | 0 <= i < j < |s| && PatternAt(s, i, j) :: s[i..j + 1]
  }

  /** Shared patterns over expected patterns, with at least 1 below the
      line: `pattern_similarity` before rounding. */
  function Overlap(expected: set<string>, actual: set<string>): (r: real)
    ensures 0.0 <= r <= 1.0
    ensures |expected| > 0 && expected <= actual ==> r == 1.0
    ensures expected * actual == {} ==> r == 0.0
  {
    SubsetCard(expected * actual, expected);
    assert expected <= actual ==> expected * actual == expected;
    var shared, total := |expected * actual|, Max(|expected|, 1);
    Ratio(shared as real, total as real);
    (shared as real) / (total as real)
  }

  /** A ratio of a part to a positive whole lies between 0 and 1. */
  lemma Ratio(part: real, whole: real)
    requires 0.0 <= part <= whole && whole > 0.0
    ensures 0.0 <= part / whole <= 1.0
    ensures part == whole ==> part / whole == 1.0
    ensures part == 0.0 ==> part / whole == 0.0
  {}

  function Max(a: int, b: int): int { if a >= b then a else b }

  // ---------------------------------------------------------------------
  // compare_queries
  // ---------------------------------------------------------------------

  /** How many characters of a normalised query a report shows. */
  const ShownLength: nat := 200

  /** A normalised query as reported: cut to 200 characters plus "..." when
      longer. */
  function Shorten(s: string): (r: string)
    ensures |s| <= ShownLength ==> r == s
    ensures |s| > ShownLength ==> |r| == ShownLength + 3 && r[..ShownLength] == s[..ShownLength]
                                  && r[ShownLength..] == "..."
  {
    if |s| > ShownLength then s[..ShownLength] + "..." else s
  }

  /** The outcome of `compare_queries`.  `similarity` is the rounded value
      the report holds. */
  datatype Comparison = Comparison(
    exactMatch: bool,
    clausesMatch: bool,
    similarity: real,
    shownExpected: string,
    shownActual: string)

  /** `round(x, 2)`: opaque here. */
  type Rounder = real -> real

  /** `compare_queries` */
  function CompareQueries(expected: string, actual: string, round2: Rounder): (c: Comparison)
    ensures var ne, na := NormalizeQuery(Some(expected)), NormalizeQuery(Some(actual));
            (c.exactMatch <==> ne == na) &&
            (c.clausesMatch <==> Clauses(ne) == Clauses(na)) &&
            c.similarity == round2(Overlap(Patterns(ne), Patterns(na))) &&
            c.shownExpected == Shorten(ne) && c.shownActual == Shorten(na)
  {
    var ne := NormalizeQuery(Some(expected));
    var na := NormalizeQuery(Some(actual));
    Comparison(ne == na, Clauses(ne) == Clauses(na),
               round2(Overlap(Patterns(ne), Patterns(na))), Shorten(ne), Shorten(na))
  }

  /** An exact match is also a clause match, and (when there are patterns)
      has full pattern overlap before rounding. */
  lemma ExactImpliesClauses(expected: string, actual: string, round2: Rounder)
    ensures var c := CompareQueries(expected, actual, round2);
            c.exactMatch ==> c.clausesMatch
    ensures var p := Patterns(NormalizeQuery(Some(expected)));
            CompareQueries(expected, actual, round2).exactMatch && |p| > 0 ==>
              Overlap(p, Patterns(NormalizeQuery(Some(actual)))) == 1.0
  {}

  /** Spacing, case and parameter names never make two queries differ:
      queries whose words agree one by one after lower-casing and renaming
      parameters match exactly. */
  lemma LayoutInsensitive(expected: string, actual: string, round2: Rounder)
    ensures expected != "" && actual != "" &&
            NormWords(Words(expected)) == NormWords(Words(actual)) ==>
              CompareQueries(expected, actual, round2).exactMatch
  {}
}

/** The question list the LLM-layer test script reads: question lines of
    the form `Q<n>. <text>` among Cypher lines and blank lines. */
module QuestionFile {
  import opened Wrappers
  import opened Text

  /** Line openings that mark a line of Cypher. */
  const CypherStarts: seq<string> := ["MATCH", "WITH", "WHERE", "RETURN", "ORDER", "LIMIT", "OPTIONAL"]

  /** A stripped line skipped before any question test: blank or Cypher. */
  predicate Skipped(t: string) {
    t == "" || exists i :: 0 <= i < |CypherStarts| && StartsWith(t, CypherStarts[i])
  }

  /** `t[:5]` */
  function Head5(t: string): (h: string)
    ensures StartsWith(t, h) && |h| <= 5
  {
    if |t| < 5 then t else t[..5]
  }

  /** The question a line yields, if any. */
  function QuestionOf(line: string): (q: Option<string>)
    ensures Skipped(Strip(line)) ==> q.None?
    ensures q.Some? ==> q.value != "" && !StartsWith(q.value, "Q")
    ensures q.Some? ==> StartsWith(Strip(line), "Q") && '.' in Head5(Strip(line))
  {
    QuestionOfStripped(Strip(line))
  }

  /** The question test on the stripped line `t`: it starts with "Q", has
      a '.' among its first five characters, and the stripped text after
      its first '.' is non-empty and does not start with "Q". */
  function QuestionOfStripped(t: string): (q: Option<string>)
    ensures Skipped(t) ==> q.None?
    ensures q.Some? ==> q.value != "" && !StartsWith(q.value, "Q")
    ensures q.Some? ==> StartsWith(t, "Q") && '.' in Head5(t) && Contains(t, ".")
    ensures q.Some? ==> q.value == Strip(After(t, "."))
  {
    if Skipped(t) then None
    else if StartsWith(t, "Q") && '.' in Head5(t) then
      DotFound(t);
      var question := Strip(After(t, "."));
      if question != "" && !StartsWith(question, "Q") then Some(question) else None
    else None
  }

  lemma DotFound(t: string)
    requires '.' in Head5(t)
    ensures Contains(t, ".")
  {
    var h := Head5(t);
    var i :| 0 <= i < |h| && h[i] == '.';
    assert t[i..i + 1] == ".";
    assert OccursAt(t, ".", i);
  }

  /** What each line yields. */
  function Yields(lines: seq<string>): (ys: seq<Option<string>>)
    ensures |ys| == |lines|
    ensures forall i :: 0 <= i < |ys| ==> ys[i] == QuestionOf(lines[i])
  {
    seq(|lines|, i requires 0 <= i < |lines| => QuestionOf(lines[i]))
  }

  /** The questions of the lines, in order, at most one per line. */
  function Questions(lines: seq<string>): (qs: seq<string>)
    ensures |qs| <= |lines|
    ensures forall i :: 0 <= i < |qs| ==> qs[i] != "" && !StartsWith(qs[i], "Q")
  {
    var ys := Yields(lines);
    var qs := Somes(ys);
    forall i | 0 <= i < |qs|
      ensures qs[i] != "" && !StartsWith(qs[i], "Q")
    {
      YieldsGood(lines);
      assert qs[i] in qs;
    }
    qs
  }

  lemma YieldsGood(lines: seq<string>)
    ensures forall y :: Some(y) in Yields(lines) ==> y != "" && !StartsWith(y, "Q")
  {
    var ys := Yields(lines);
    forall y | Some(y) in ys
      ensures y != "" && !StartsWith(y, "Q")
    {
      var i :| 0 <= i < |ys| && ys[i] == Some(y);
      assert QuestionOf(lines[i]) == Some(y);
    }
  }

  lemma YieldsAppend(a: seq<string>, b: seq<string>)
    ensures Yields(a + b) == Yields(a) + Yields(b)
  {
    var l, r := Yields(a + b), Yields(a) + Yields(b);
    forall i | 0 <= i < |l|
      ensures l[i] == r[i]
    {
      if i < |a| {
        assert (a + b)[i] == a[i];
      } else {
        assert (a + b)[i] == b[i - |a|];
      }
    }
  }

  /** `load_test_questions`, on the file's text with line endings already
      turned into '\n'. */
  function LoadTestQuestions(content: string): (qs: seq<string>)
    ensures forall i :: 0 <= i < |qs| ==> qs[i] != "" && !StartsWith(qs[i], "Q")
  {
    Questions(SplitOn(content, '\n'))
  }

  /** The questions of consecutive blocks of lines follow each other. */
  lemma QuestionsAppend(a: seq<string>, b: seq<string>)
    ensures Questions(a + b) == Questions(a) + Questions(b)
  {
    YieldsAppend(a, b);
    SomesAppend(Yields(a), Yields(b));
  }

  // ---------------------------------------------------------------------
  // Writing a question file
  // ---------------------------------------------------------------------

  /** A question number of one to three digits. */
  predicate GoodNumber(n: string) {
    0 < |n| <= 3 && forall i :: 0 <= i < |n| ==> IsDigit(n[i])
  }

  /** A question text that survives a round trip. */
  predicate GoodText(text: string) {
    text != "" && IsStripped(text) && !StartsWith(text, "Q") && '\n' !in text
  }

  function QuestionLine(n: string, text: string): string {
    "Q" + n + ". " + text
  }

  /** A question line yields its text. */
  lemma QuestionLineYields(n: string, text: string)
    requires GoodNumber(n) && GoodText(text)
    ensures QuestionOf(QuestionLine(n, text)) == Some(text)
  {
    var line := QuestionLine(n, text);
    var id := "Q" + n;
    assert line == id + "." + (" " + text);
    assert line[0] == 'Q' && line[|line| - 1] == text[|text| - 1];
    StripOfStripped(line);
    LeadingQ(line);
    DotInHead(id, " " + text);
    AfterId(id, text);
  }

  lemma LeadingQ(t: string)
    requires |t| > 0 && t[0] == 'Q'
    ensures !Skipped(t) && StartsWith(t, "Q")
  {
    forall i | 0 <= i < |CypherStarts|
      ensures !StartsWith(t, CypherStarts[i])
    {
      assert CypherStarts[i][0] != 'Q';
    }
    assert t[..1] == "Q";
  }

  lemma DotInHead(id: string, rest: string)
    requires |id| < 5
    ensures '.' in Head5(id + "." + rest)
  {
    var t := id + "." + rest;
    assert t[|id|] == '.';
    assert Head5(t)[|id|] == '.';
  }

  lemma AfterId(id: string, text: string)
    requires forall i :: 0 <= i < |id| ==> id[i] != '.'
    requires IsStripped(text)
    ensures Contains(id + "." + (" " + text), ".")
    ensures Strip(After(id + "." + (" " + text), ".")) == text
  {
    CutAtSeparator(id, ".", " " + text);
    assert " " + text + "" == " " + text;
    assert AllSpace(" ");
    StripPadded(" ", text, "");
  }

  /** One question line per number and text. */
  function QuestionLines(ns: seq<string>, texts: seq<string>): (lines: seq<string>)
    requires |ns| == |texts|
    ensures |lines| == |ns|
    ensures forall i :: 0 <= i < |lines| ==> lines[i] == QuestionLine(ns[i], texts[i])
  {
    seq(|ns|, i requires 0 <= i < |ns| => QuestionLine(ns[i], texts[i]))
  }

  lemma QuestionLinesYield(ns: seq<string>, texts: seq<string>)
    requires |ns| == |texts|
    requires forall i :: 0 <= i < |ns| ==> GoodNumber(ns[i]) && GoodText(texts[i])
    ensures forall i, j :: 0 <= i < |ns| && 0 <= j < |QuestionLines(ns, texts)[i]| ==>
              QuestionLines(ns, texts)[i][j] != '\n'
    ensures forall i :: 0 <= i < |ns| ==> Yields(QuestionLines(ns, texts))[i] == Some(texts[i])
  {
    var lines := QuestionLines(ns, texts);
    forall i | 0 <= i < |lines|
      ensures QuestionOf(lines[i]) == Some(texts[i])
    {
      QuestionLineYields(ns[i], texts[i]);
    }
    forall i | 0 <= i < |lines|
      ensures '\n' !in lines[i]
    {
      NoBreakInQuestionLine(ns[i], texts[i]);
    }
  }

  lemma NoBreakInQuestionLine(n: string, text: string)
    requires GoodNumber(n) && '\n' !in text
    ensures '\n' !in QuestionLine(n, text)
  {
    var line := QuestionLine(n, text);
    forall j | 0 <= j < |line|
      ensures line[j] != '\n'
    {
      if j >= |line| - |text| {
        assert line[j] == text[j - (|line| - |text|)];
      } else if 0 < j < |n| + 1 {
        assert line[j] == n[j - 1];
      }
    }
  }

  /** Reading a file of question lines gives back the questions, in
      order. */
  lemma QuestionFileRoundTrip(ns: seq<string>, texts: seq<string>)
    requires |ns| == |texts| > 0
    requires forall i :: 0 <= i < |ns| ==> GoodNumber(ns[i]) && GoodText(texts[i])
    ensures LoadTestQuestions(Join(QuestionLines(ns, texts), "\n")) == texts
  {
    var lines := QuestionLines(ns, texts);
    QuestionLinesYield(ns, texts);
    SplitOnJoin(lines, '\n');
    SomesOfAll(Yields(lines), texts);
  }

  /** Cypher lines between the questions yield nothing. */
  lemma CypherLineYieldsNothing(line: string, i: nat)
    requires i < |CypherStarts| && StartsWith(Strip(line), CypherStarts[i])
    ensures Questions([line]) == []
  {
    assert Yields([line]) == [None];
  }
}

/** The reader of the hand-written test file: numbered questions (`Q1.`,
    `Q2.`, ...), each followed by the Cypher query expected for it.  The file
    is read line by line with a small state machine. */
module TenQParser {
  import opened Wrappers
  import opened Text

  /** One parsed question. */
  datatype Question = Question(id: string, text: string, expected: string)

  // ---------------------------------------------------------------------
  // Question headers: `^(Q\d+)\.\s*(.+)$` on the stripped line
  // ---------------------------------------------------------------------

  /** `Q` followed by one or more digits. */
  predicate IsQuestionId(id: string) {
    |id| >= 2 && id[0] == 'Q' && forall i :: 1 <= i < |id| ==> IsDigit(id[i])
  }

  /** The id and the stripped text of a header line, or `None` for any other
      line.  The digit run must end at the dot and some text must follow
      it. */
  function Header(line: string): (h: Option<(string, string)>)
    ensures h.Some? ==> IsQuestionId(h.value.0)
    ensures h.Some? ==> h.value.1 != "" && IsStripped(h.value.1)
  {
    HeaderOf(Strip(line))
  }

  /** `Header` on the stripped line `t`. */
  function HeaderOf(t: string): (h: Option<(string, string)>)
    requires IsStripped(t)
    ensures h.Some? ==> IsQuestionId(h.value.0)
    ensures h.Some? ==> h.value.1 != "" && IsStripped(h.value.1)
  {
    if |t| == 0 || t[0] != 'Q' then None
    else
      var e := DigitEnd(t, 1);
      if e == 1 || e + 1 >= |t| || t[e] != '.' then None
      else
        assert IsQuestionId(t[..e]) by {
          assert forall i :: 1 <= i < e ==> t[..e][i] == t[i];
        }
        assert t[e + 1..][|t| - e - 2] == t[|t| - 1];
        Some((t[..e], QuestionText(t[e + 1..])))
  }

  /** The question text after the dot, stripped. */
  function QuestionText(rest: string): (q: string)
    requires |rest| > 0 && !IsSpace(rest[|rest| - 1])
    ensures q != "" && IsStripped(q)
  {
    StripNonBlank(rest);
    Strip(rest)
  }

  /** Writing a header and reading it back: an id, a dot and a stripped
      question text, with any whitespace around them, give back the id and
      the text. */
  lemma HeaderRoundTrip(id: string, gap: string, text: string, a: string, b: string)
    requires IsQuestionId(id) && text != "" && IsStripped(text)
    requires AllSpace(gap) && AllSpace(a) && AllSpace(b)
    ensures Header(a + id + "." + gap + text + b) == Some((id, text))
  {
    var rest := gap + text;
    var t := id + "." + rest;
    calc {
      Header(a + id + "." + gap + text + b);
      { assert a + id + "." + gap + text + b == a + t + b; }
      HeaderOf(Strip(a + t + b));
      { HeaderTextStripped(id, gap, text); StripPadded(a, t, b); }
      HeaderOf(t);
      { HeaderOfStripped(id, rest); }
      Some((id, Strip(rest)));
      { GapText(gap, text); }
      Some((id, text));
    }
  }

  lemma GapText(gap: string, text: string)
    requires AllSpace(gap) && IsStripped(text)
    ensures Strip(gap + text) == text
  {
    assert gap + text == gap + text + "";
    StripPadded(gap, text, "");
  }

  lemma HeaderTextStripped(id: string, gap: string, text: string)
    requires IsQuestionId(id) && text != "" && IsStripped(text)
    ensures IsStripped(id + "." + (gap + text))
  {
    var t := id + "." + (gap + text);
    assert t[0] == id[0];
    assert t[|t| - 1] == text[|text| - 1];
  }

  /** A stripped header line: the id before the dot, the rest stripped. */
  lemma HeaderOfStripped(id: string, rest: string)
    requires IsQuestionId(id) && |rest| > 0 && IsStripped(id + "." + rest)
    ensures HeaderOf(id + "." + rest) == Some((id, Strip(rest)))
  {
    var t := id + "." + rest;
    DigitEndOf(t, 1, |id|);
    assert t[..|id|] == id;
    assert t[|id| + 1..] == rest;
  }

  /** A stripped line that does not begin with `Q` is never a header. */
  lemma NonHeader(line: string)
    requires IsStripped(line) && (|line| == 0 || line[0] != 'Q')
    ensures Header(line).None?
  {
    StripOfStripped(line);
  }

  // ---------------------------------------------------------------------
  // The line state machine
  // ---------------------------------------------------------------------

  /** Parser state: the questions finished so far, the question being read
      (id and text), its query lines, and whether a query is being read. */
  datatype Scan = Scan(
    done: seq<Question>,
    current: Option<(string, string)>,
    queryLines: seq<string>,
    inQuery: bool)

  const Start: Scan := Scan([], None, [], false)

  /** A line that opens a Cypher query. */
  predicate OpensQuery(t: string) {
    StartsWith(t, "MATCH") || StartsWith(t, "OPTIONAL")
  }

  /** A separator line. */
  predicate IsSeparator(t: string) {
    StartsWith(t, "=====")
  }

  /** The finished questions, with the one being read appended. */
  function Flush(st: Scan): (qs: seq<Question>)
    ensures |qs| == |st.done| + (if st.current.Some? then 1 else 0)
    ensures qs[..|st.done|] == st.done
    ensures st.current.Some? ==>
              qs[|st.done|] == Question(st.current.value.0, st.current.value.1,
                                        Strip(Join(st.queryLines, "\n")))
  {
    match st.current
    case None => st.done
    case Some((id, text)) =>
      st.done + [Question(id, text, Strip(Join(st.queryLines, "\n")))]
  }

  /** One line.  A header finishes the question being read and starts a new
      one.  Before the first header lines are ignored.  Otherwise a line
      opening a query switches query reading on, a separator switches it
      off and is skipped, and a non-empty stripped line is kept while a
      query is being read or once some query line has been kept. */
  function Step(st: Scan, line: string): (st': Scan)
    ensures Header(line).Some? ==> st' == Scan(Flush(st), Header(line), [], false)
    ensures Header(line).None? ==> st'.done == st.done && st'.current == st.current
    ensures Header(line).None? && st.current.None? ==> st' == st
    ensures Header(line).None? && st.current.Some? ==>
              var t := Strip(line);
              st'.inQuery == (!IsSeparator(t) && (st.inQuery || OpensQuery(t))) &&
              st'.queryLines ==
                st.queryLines +
                (if t != "" && !IsSeparator(t) &&
                    (st.inQuery || OpensQuery(t) || |st.queryLines| > 0)
                 then [t] else [])
  {
    match Header(line)
    case Some(h) => Scan(Flush(st), Some(h), [], false)
    case None =>
      if st.current.None? then st
      else
        var t := Strip(line);
        var reading := st.inQuery || OpensQuery(t);
        if IsSeparator(t) then st.(inQuery := false)
        else if t != "" && (reading || |st.queryLines| > 0) then
          st.(queryLines := st.queryLines + [t], inQuery := reading)
        else st.(inQuery := reading)
  }

  /** The state after all of `lines`. */
  function Run(lines: seq<string>): Scan
    decreases |lines|
  {
    if |lines| == 0 then Start else Step(Run(lines[..|lines| - 1]), lines[|lines| - 1])
  }

  /** `parse_ten_q_file` on the file's content. */
  function ParseTenQ(content: string): seq<Question> {
    Flush(Run(SplitOn(content, '\n')))
  }

  // ---------------------------------------------------------------------
  // What the parser promises
  // ---------------------------------------------------------------------

  /** The headers of `lines`, in order. */
  function Headers(lines: seq<string>): (hs: seq<(string, string)>)
    decreases |lines|
  {
    if |lines| == 0 then []
    else
      var last := lines[|lines| - 1];
      Headers(lines[..|lines| - 1]) + (if Header(last).Some? then [Header(last).value] else [])
  }

  /** Id and text of each question. */
  function Heads(qs: seq<Question>): (hs: seq<(string, string)>)
    ensures |hs| == |qs|
    ensures forall i :: 0 <= i < |qs| ==> hs[i] == (qs[i].id, qs[i].text)
  {
    seq(|qs|, i requires 0 <= i < |qs| => (qs[i].id, qs[i].text))
  }

  /** Text without a line feed. */
  predicate OneLine(t: string) {
    forall j :: 0 <= j < |t| ==> t[j] != '\n'
  }

  /** A kept query line: non-empty, stripped, one line, not a separator. */
  predicate GoodLine(t: string) {
    t != "" && IsStripped(t) && !IsSeparator(t) && OneLine(t)
  }

  /** The query lines of a question: good, and the first opens a query. */
  predicate GoodLines(ls: seq<string>) {
    (forall i :: 0 <= i < |ls| ==> GoodLine(ls[i]))
    && (|ls| > 0 ==> OpensQuery(ls[0]))
  }

  /** An expected query as the parser leaves it: empty, or a query opened by
      `MATCH` or `OPTIONAL` whose every line is non-empty, stripped and not
      a separator. */
  predicate GoodQuery(e: string) {
    e == "" ||
    (OpensQuery(e) && forall i :: 0 <= i < |SplitOn(e, '\n')| ==> GoodLine(SplitOn(e, '\n')[i]))
  }

  predicate GoodQuestion(q: Question) {
    IsQuestionId(q.id) && q.text != "" && IsStripped(q.text) && GoodQuery(q.expected)
  }

  /** What holds of the parser state after every line. */
  predicate Invariant(st: Scan) {
    (forall i :: 0 <= i < |st.done| ==> GoodQuestion(st.done[i]))
    && (st.current.Some? ==>
          IsQuestionId(st.current.value.0) && st.current.value.1 != "" &&
          IsStripped(st.current.value.1))
    && GoodLines(st.queryLines)
    && (st.inQuery ==> |st.queryLines| > 0)
  }

  /** Joining good query lines gives a good query whose lines are exactly
      those lines. */
  lemma JoinGoodLines(ls: seq<string>)
    requires GoodLines(ls)
    ensures var e := Strip(Join(ls, "\n"));
            GoodQuery(e) && (|ls| > 0 ==> e == Join(ls, "\n") && SplitOn(e, '\n') == ls)
  {
    if |ls| == 0 {
      StripAllSpace(Join(ls, "\n"));
    } else {
      JoinedGood(ls);
    }
  }

  lemma JoinedGood(ls: seq<string>)
    requires |ls| > 0 && GoodLines(ls)
    ensures var e := Join(ls, "\n");
            Strip(e) == e && GoodQuery(e) && SplitOn(e, '\n') == ls
  {
    JoinedStripped(ls);
    JoinedSplits(ls);
    JoinedOpens(ls);
    GoodQueryOfLines(Join(ls, "\n"), ls);
  }

  lemma JoinedStripped(ls: seq<string>)
    requires |ls| > 0 && forall i :: 0 <= i < |ls| ==> GoodLine(ls[i])
    ensures Strip(Join(ls, "\n")) == Join(ls, "\n")
  {
    JoinStripped(ls, "\n");
    StripOfStripped(Join(ls, "\n"));
  }

  lemma JoinedSplits(ls: seq<string>)
    requires |ls| > 0 && forall i :: 0 <= i < |ls| ==> OneLine(ls[i])
    ensures SplitOn(Join(ls, "\n"), '\n') == ls
  {
    assert "\n" == ['\n'];
    SplitOnJoin(ls, '\n');
  }

  lemma JoinedOpens(ls: seq<string>)
    requires |ls| > 0 && OpensQuery(ls[0])
    ensures OpensQuery(Join(ls, "\n"))
  {
    JoinStartsWithFirst(ls, "\n");
    OpensQueryPrefix(ls[0], Join(ls, "\n"));
  }

  lemma GoodQueryOfLines(e: string, ls: seq<string>)
    requires GoodLines(ls) && OpensQuery(e) && SplitOn(e, '\n') == ls
    ensures GoodQuery(e)
  {}

  /** A text starting with a line that opens a query opens a query. */
  lemma OpensQueryPrefix(first: string, e: string)
    requires OpensQuery(first) && |first| <= |e| && e[..|first|] == first
    ensures OpensQuery(e)
  {
    if StartsWith(first, "MATCH") {
      assert e[..5] == first[..5];
    } else {
      assert e[..8] == first[..8];
    }
  }

  lemma {:induction false} JoinStartsWithFirst(ls: seq<string>, sep: string)
    requires |ls| > 0
    ensures |Join(ls, sep)| >= |ls[0]| && Join(ls, sep)[..|ls[0]|] == ls[0]
  {
    if |ls| > 1 {
      assert Join(ls, sep) == ls[0] + (sep + Join(ls[1..], sep));
    }
  }

  lemma FlushGood(st: Scan)
    requires Invariant(st)
    ensures forall i :: 0 <= i < |Flush(st)| ==> GoodQuestion(Flush(st)[i])
  {
    if st.current.Some? {
      JoinGoodLines(st.queryLines);
    }
  }

  lemma StepInvariant(st: Scan, line: string)
    requires Invariant(st) && OneLine(line)
    ensures Invariant(Step(st, line))
  {
    if Header(line).Some? {
      FlushGood(st);
    } else if st.current.Some? {
      var t := Strip(line);
      var reading := st.inQuery || OpensQuery(t);
      if IsSeparator(t) {
        assert Step(st, line) == st.(inQuery := false);
      } else if t != "" && (reading || |st.queryLines| > 0) {
        assert Step(st, line) == st.(queryLines := st.queryLines + [t], inQuery := reading);
        StripInLine(line);
        AppendInvariant(st, t, reading);
      } else {
        assert Step(st, line) == st.(inQuery := reading);
      }
    }
  }

  lemma AppendInvariant(st: Scan, t: string, reading: bool)
    requires Invariant(st) && st.current.Some?
    requires t != "" && IsStripped(t) && !IsSeparator(t) && OneLine(t)
    requires reading == (st.inQuery || OpensQuery(t))
    requires reading || |st.queryLines| > 0
    ensures Invariant(st.(queryLines := st.queryLines + [t], inQuery := reading))
  {
    var ls := st.queryLines + [t];
    assert ls[0] == (if |st.queryLines| > 0 then st.queryLines[0] else t);
  }

  /** Stripping keeps only characters of the original. */
  lemma StripInLine(line: string)
    requires OneLine(line)
    ensures OneLine(Strip(line))
  {
    var s := TrimStart(line);
    forall j | 0 <= j < |Strip(line)|
      ensures Strip(line)[j] != '\n'
    {
      assert Strip(line)[j] == s[j] == line[|line| - |s| + j];
    }
  }

  /** Every parsed question has a well-formed id and a non-empty stripped
      text, and its expected query is empty or starts with `MATCH` or
      `OPTIONAL` and consists of non-empty, stripped, non-separator lines. */
  lemma ParsedQuestionsGood(content: string)
    ensures forall i :: 0 <= i < |ParseTenQ(content)| ==> GoodQuestion(ParseTenQ(content)[i])
  {
    RunInvariant(SplitOn(content, '\n'));
    FlushGood(Run(SplitOn(content, '\n')));
  }

  lemma {:induction false} RunInvariant(lines: seq<string>)
    requires forall i :: 0 <= i < |lines| ==> OneLine(lines[i])
    ensures Invariant(Run(lines))
    decreases |lines|
  {
    if |lines| > 0 {
      RunInvariant(lines[..|lines| - 1]);
      StepInvariant(Run(lines[..|lines| - 1]), lines[|lines| - 1]);
    }
  }

  /** The questions are exactly the header lines of the file, one per
      header, in file order. */
  lemma ParsedHeaders(content: string)
    ensures Heads(ParseTenQ(content)) == Headers(SplitOn(content, '\n'))
  {
    RunHeaders(SplitOn(content, '\n'));
  }

  /** The questions finished, followed by the one being read, are the
      headers seen so far. */
  lemma {:induction false} RunHeaders(lines: seq<string>)
    ensures Heads(Flush(Run(lines))) == Headers(lines)
    decreases |lines|
  {
    if |lines| > 0 {
      var init := lines[..|lines| - 1];
      RunHeaders(init);
      StepHeads(Run(init), lines[|lines| - 1]);
    }
  }

  /** A step adds the line's header, if it is one, and nothing else. */
  lemma StepHeads(st: Scan, line: string)
    ensures Heads(Flush(Step(st, line))) ==
            Heads(Flush(st)) + (if Header(line).Some? then [Header(line).value] else [])
  {
    var st' := Step(st, line);
    if Header(line).Some? {
      var h := Header(line).value;
      HeadsSnoc(Flush(st), Question(h.0, h.1, Strip(Join([], "\n"))));
    } else {
      SameHeads(st, st');
    }
  }

  lemma HeadsSnoc(qs: seq<Question>, q: Question)
    ensures Heads(qs + [q]) == Heads(qs) + [(q.id, q.text)]
  {}

  lemma SameHeads(st: Scan, st': Scan)
    requires st'.done == st.done && st'.current == st.current
    ensures Heads(Flush(st')) == Heads(Flush(st))
  {}

  // ---------------------------------------------------------------------
  // Reading back a written file
  // ---------------------------------------------------------------------

  /** One question as the file writes it: a header `<id>. <text>`, the
      lines of its expected query, and a separator line. */
  datatype Block = Block(id: string, text: string, lines: seq<string>)

  const Separator: string := "====="

  /** A block that reads back: a `Q<digits>` id, a non-empty stripped
      one-line text, and good query lines none of which reads as a
      header. */
  predicate WellWritten(b: Block) {
    IsQuestionId(b.id) && b.text != "" && IsStripped(b.text) && OneLine(b.text) &&
    GoodLines(b.lines) && forall i :: 0 <= i < |b.lines| ==> QueryLine(b.lines[i])
  }

  function BlockLines(b: Block): seq<string> {
    [HeaderLine(b)] + b.lines + [Separator]
  }

  /** The lines of a file written block after block. */
  function FileLines(bs: seq<Block>): seq<string>
    decreases |bs|
  {
    if |bs| == 0 then [] else FileLines(bs[..|bs| - 1]) + BlockLines(bs[|bs| - 1])
  }

  /** The questions the blocks were written from, each expected query being
      its block's lines joined by line feeds. */
  function Written(bs: seq<Block>): (qs: seq<Question>)
    ensures |qs| == |bs|
  {
    seq(|bs|, i requires 0 <= i < |bs| => Question(bs[i].id, bs[i].text, Join(bs[i].lines, "\n")))
  }

  /** A file of written blocks parses back to exactly the questions they
      were written from: ids, texts, and each expected query made of the
      lines under its header, in order. */
  lemma ParseWritten(bs: seq<Block>)
    requires forall i :: 0 <= i < |bs| ==> WellWritten(bs[i])
    ensures ParseTenQ(Join(FileLines(bs), "\n")) == Written(bs)
  {
    if |bs| == 0 {
      assert Run([""]) == Step(Start, "");
    } else {
      var lines := FileLines(bs);
      FileLinesOneLine(bs);
      assert lines == FileLines(bs[..|bs| - 1]) + BlockLines(bs[|bs| - 1]);
      assert "\n" == ['\n'];
      SplitOnJoin(lines, '\n');
      RunWritten(bs);
    }
  }

  /** Running the parser over written blocks and finishing gives the
      questions they were written from. */
  lemma {:induction false} RunWritten(bs: seq<Block>)
    requires forall i :: 0 <= i < |bs| ==> WellWritten(bs[i])
    ensures Flush(Run(FileLines(bs))) == Written(bs)
    decreases |bs|
  {
    if |bs| > 0 {
      var init := bs[..|bs| - 1];
      var b := bs[|bs| - 1];
      assert forall i :: 0 <= i < |init| ==> init[i] == bs[i];
      RunWritten(init);
      assert FileLines(bs) == FileLines(init) + BlockLines(b);
      RunAppend(FileLines(init), BlockLines(b));
      BlockSteps(Run(FileLines(init)), b);
      FlushBlock(Written(init), b);
      WrittenSnoc(bs);
    }
  }

  /** Finishing a written block's question gives its question. */
  lemma FlushBlock(qs: seq<Question>, b: Block)
    requires WellWritten(b)
    ensures Flush(Scan(qs, Some((b.id, b.text)), b.lines, false)) ==
            qs + [Question(b.id, b.text, Join(b.lines, "\n"))]
  {
    if |b.lines| == 0 {
      StripOfStripped("");
    } else {
      JoinGoodLines(b.lines);
    }
  }

  lemma WrittenSnoc(bs: seq<Block>)
    requires |bs| > 0
    ensures Written(bs) ==
            Written(bs[..|bs| - 1]) +
            [Question(bs[|bs| - 1].id, bs[|bs| - 1].text, Join(bs[|bs| - 1].lines, "\n"))]
  {}

  /** The parser run from `st` over `lines`, first line first. */
  function Steps(st: Scan, lines: seq<string>): Scan
    decreases |lines|
  {
    if |lines| == 0 then st else Steps(Step(st, lines[0]), lines[1..])
  }

  /** Running over `a + c` is running over `c` from where `a` left off. */
  lemma {:induction false} RunAppend(a: seq<string>, c: seq<string>)
    ensures Run(a + c) == Steps(Run(a), c)
    decreases |c|
  {
    if |c| == 0 {
      ConcatEmpty(a);
      assert c == [];
    } else {
      var a' := a + [c[0]];
      ShiftFirst(a, c);
      DropLast(a, c[0]);
      assert Run(a') == Step(Run(a), c[0]);
      RunAppend(a', c[1..]);
    }
  }

  lemma {:induction false} StepsAppend(st: Scan, a: seq<string>, c: seq<string>)
    ensures Steps(st, a + c) == Steps(Steps(st, a), c)
    decreases |a|
  {
    if |a| == 0 {
      ConcatEmpty(c);
      assert a == [];
    } else {
      HeadTail(a, c);
      StepsAppend(Step(st, a[0]), a[1..], c);
    }
  }

  /** The header line of a block. */
  function HeaderLine(b: Block): string {
    b.id + "." + " " + b.text
  }

  /** A written block finishes the question being read and leaves its own
      question open with exactly its query lines. */
  lemma BlockSteps(st: Scan, b: Block)
    requires WellWritten(b)
    ensures Steps(st, BlockLines(b)) == Scan(Flush(st), Some((b.id, b.text)), b.lines, false)
  {
    var h := HeaderLine(b);
    var st1 := Scan(Flush(st), Some((b.id, b.text)), [], false);
    HeaderStep(st, b);
    StepsOne(st, h);
    QueryLinesKept();
    QueryLinesSteps(QueryLine, st1, b.lines);
    ConcatEmpty(b.lines);
    var st2 := Scan(Flush(st), Some((b.id, b.text)), b.lines, |b.lines| > 0);
    SeparatorStep(st2);
    StepsOne(st2, Separator);
    StepsAppend(st, [h], b.lines);
    StepsAppend(st, [h] + b.lines, [Separator]);
  }

  /** A block's header line finishes the question being read and opens
      the block's own. */
  lemma HeaderStep(st: Scan, b: Block)
    requires WellWritten(b)
    ensures Step(st, HeaderLine(b)) == Scan(Flush(st), Some((b.id, b.text)), [], false)
  {
    HeaderRoundTrip(b.id, " ", b.text, "", "");
    ConcatEmpty(b.id);
    ConcatEmpty(HeaderLine(b));
  }

  lemma StepsOne(st: Scan, line: string)
    ensures Steps(st, [line]) == Step(st, line)
  {
    assert [line][0] == line && [line][1..] == [];
  }

  /** A separator line switches query reading off and changes nothing else. */
  lemma SeparatorStep(st: Scan)
    requires st.current.Some?
    ensures Step(st, Separator) == st.(inQuery := false)
  {
    assert Separator[0] == '=';
    StripOfStripped(Separator);
    NonHeader(Separator);
  }

  /** A line `keep` accepts is kept by a step while a question is open and
      reading is on or the line opens a query. */
  ghost predicate KeptBy(keep: string -> bool) {
    forall st: Scan, t: string | st.current.Some? && keep(t) && (st.inQuery || OpensQuery(t)) ::
      Step(st, t) == st.(queryLines := st.queryLines + [t], inQuery := true)
  }

  /** Query lines under a header are kept one by one, and reading is on once
      the first one, which opens the query, is seen. */
  lemma {:induction false} QueryLinesSteps(keep: string -> bool, st: Scan, ls: seq<string>)
    requires KeptBy(keep) && st.current.Some?
    requires forall i :: 0 <= i < |ls| ==> keep(ls[i])
    requires |ls| > 0 ==> st.inQuery || OpensQuery(ls[0])
    ensures Steps(st, ls) == st.(queryLines := st.queryLines + ls, inQuery := st.inQuery || |ls| > 0)
    decreases |ls|
  {
    if |ls| == 0 {
      ConcatEmpty(st.queryLines);
    } else {
      var st' := st.(queryLines := st.queryLines + [ls[0]], inQuery := true);
      assert Step(st, ls[0]) == st';
      var rest := ls[1..];
      assert forall i :: 0 <= i < |rest| ==> rest[i] == ls[i + 1];
      QueryLinesSteps(keep, st', rest);
      ShiftFirst(st.queryLines, ls);
    }
  }

  /** Query lines are kept. */
  lemma QueryLinesKept()
    ensures KeptBy(QueryLine)
  {
    forall st: Scan, t: string | st.current.Some? && QueryLine(t) && (st.inQuery || OpensQuery(t))
      ensures Step(st, t) == st.(queryLines := st.queryLines + [t], inQuery := true)
    {
      KeepLine(st, t);
    }
  }

  /** A query line of a written block: good, and not starting with `Q`, so
      never a header. */
  predicate QueryLine(t: string) {
    GoodLine(t) && t[0] != 'Q'
  }

  /** A good line under a header, while reading or opening a query, is
      kept and leaves reading on. */
  lemma KeepLine(st: Scan, t: string)
    requires st.current.Some? && QueryLine(t)
    requires st.inQuery || OpensQuery(t)
    ensures Step(st, t) == st.(queryLines := st.queryLines + [t], inQuery := true)
  {
    NonHeader(t);
    StripOfStripped(t);
  }

  /** No line of a written file holds a line feed. */
  lemma {:induction false} FileLinesOneLine(bs: seq<Block>)
    requires forall i :: 0 <= i < |bs| ==> WellWritten(bs[i])
    ensures forall i, j :: 0 <= i < |FileLines(bs)| && 0 <= j < |FileLines(bs)[i]| ==>
              FileLines(bs)[i][j] != '\n'
    decreases |bs|
  {
    if |bs| > 0 {
      var init := bs[..|bs| - 1];
      assert forall i :: 0 <= i < |init| ==> init[i] == bs[i];
      FileLinesOneLine(init);
      BlockOneLine(bs[|bs| - 1]);
      var a, c := FileLines(init), BlockLines(bs[|bs| - 1]);
      assert FileLines(bs) == a + c;
      forall i, j | 0 <= i < |a + c| && 0 <= j < |(a + c)[i]|
        ensures (a + c)[i][j] != '\n'
      {
        if i < |a| {
          assert (a + c)[i] == a[i];
        } else {
          assert (a + c)[i] == c[i - |a|];
        }
      }
    }
  }

  lemma BlockOneLine(b: Block)
    requires WellWritten(b)
    ensures forall i :: 0 <= i < |BlockLines(b)| ==> OneLine(BlockLines(b)[i])
  {
    var h := HeaderLine(b);
    forall j | 0 <= j < |h|
      ensures h[j] != '\n'
    {
      if j < |b.id| {
        assert h[j] == b.id[j];
        assert j == 0 || IsDigit(b.id[j]);
      } else if j >= |b.id| + 2 {
        assert h[j] == b.text[j - |b.id| - 2];
      }
    }
    var ls := BlockLines(b);
    forall i | 0 <= i < |ls|
      ensures OneLine(ls[i])
    {
      if i == 0 {
        assert ls[i] == h;
      } else if i <= |b.lines| {
        assert ls[i] == b.lines[i - 1];
      } else {
        assert ls[i] == Separator;
      }
    }
  }
}

/** The query file the batch runner reads: Cypher queries, each under a
    `// <n>. Query` header line, possibly with `//` comment lines. */
module QueryFile {
  import opened Wrappers
  import opened Text

  // ---------------------------------------------------------------------
  // Header lines: `// \d+\. Query.*`
  // ---------------------------------------------------------------------

  /** The end of the line holding index `k`: the next '\n' or the end. */
  function LineEnd(s: string, k: nat): (e: nat)
    requires k <= |s|
    ensures k <= e <= |s|
    ensures forall i :: k <= i < e ==> s[i] != '\n'
    ensures e < |s| ==> s[e] == '\n'
    decreases |s| - k
  {
    if k < |s| && s[k] != '\n' then LineEnd(s, k + 1) else k
  }

  /** Where a header match starting at `i` ends: "// ", digits, ". Query"
      and the rest of the line.  The digit run is taken whole, since a
      shorter one is followed by a digit rather than '.'. */
  function HeaderEnd(s: string, i: nat): (e: Option<nat>)
    requires i <= |s|
    ensures e.Some? ==> i < e.value <= |s| && s[i] == '/'
  {
    if OpensHeader(s, i) then
      var d := DigitEnd(s, i + 3);
      if d > i + 3 && ClosesHeader(s, d) then Some(LineEnd(s, d + 7)) else None
    else None
  }

  /** "// " at `i`. */
  predicate OpensHeader(s: string, i: nat) {
    i + 3 <= |s| && s[i] == '/' && s[i + 1] == '/' && s[i + 2] == ' '
  }

  /** ". Query" at `d`. */
  predicate ClosesHeader(s: string, d: nat) {
    d + 7 <= |s| && s[d] == '.' && s[d + 1] == ' ' && s[d + 2] == 'Q' && s[d + 3] == 'u' &&
    s[d + 4] == 'e' && s[d + 5] == 'r' && s[d + 6] == 'y'
  }

  /** The first header match at or after `i`, as its start and end. */
  function FirstHeader(s: string, i: nat): (r: Option<(nat, nat)>)
    requires i <= |s|
    ensures r.Some? ==> i <= r.value.0 < r.value.1 <= |s| && HeaderEnd(s, r.value.0) == Some(r.value.1)
    decreases |s| - i
  {
    if i == |s| then None
    else match HeaderEnd(s, i)
      case Some(e) => Some((i, e))
      case None => FirstHeader(s, i + 1)
  }

  /** `re.split` on the header pattern: the texts between header
      matches, the one before the first header included. */
  function Segments(s: string): (segs: seq<string>)
    ensures |segs| >= 1
    decreases |s|
  {
    match FirstHeader(s, 0)
    case None => [s]
    case Some((p, e)) => [s[..p]] + Segments(s[e..])
  }

  // ---------------------------------------------------------------------
  // parse_queries
  // ---------------------------------------------------------------------

  /** A line that is a `//` comment once stripped. */
  predicate IsComment(line: string) {
    StartsWith(Strip(line), "//")
  }

  /** The lines that are not comments, in order. */
  function Uncommented(lines: seq<string>): (kept: seq<string>)
    ensures |kept| <= |lines|
    ensures forall i :: 0 <= i < |kept| ==> !IsComment(kept[i])
    decreases |lines|
  {
    if |lines| == 0 then []
    else
      var rest := Uncommented(lines[1..]);
      if IsComment(lines[0]) then rest else [lines[0]] + rest
  }

  /** Lines without comments are all kept. */
  lemma {:induction false} KeepsAll(lines: seq<string>)
    requires forall i :: 0 <= i < |lines| ==> !IsComment(lines[i])
    ensures Uncommented(lines) == lines
    decreases |lines|
  {
    if |lines| > 0 {
      KeepsAll(lines[1..]);
    }
  }

  /** The query one segment holds, if any: its non-comment lines joined,
      stripped, and kept only when non-empty. */
  function QueryOf(part: string): (q: Option<string>)
    ensures q.Some? ==> q.value != "" && IsStripped(q.value)
    ensures q.Some? ==> q.value == Strip(Join(Uncommented(SplitLines(part)), "\n"))
  {
    var q := Strip(Join(Uncommented(SplitLines(part)), "\n"));
    if q != "" then Some(q) else None
  }

  function SegmentQueries(segs: seq<string>): (qs: seq<Option<string>>)
    ensures |qs| == |segs|
    ensures forall i :: 0 <= i < |qs| ==> qs[i] == QueryOf(segs[i])
  {
    seq(|segs|, i requires 0 <= i < |segs| => QueryOf(segs[i]))
  }

  /** `parse_queries`, on the file's text with line endings already
      turned into '\n': at most one query per segment, in file order. */
  function ParseQueries(content: string): (qs: seq<string>)
    ensures |qs| <= |Segments(content)|
    ensures forall i :: 0 <= i < |qs| ==> qs[i] != "" && IsStripped(qs[i])
  {
    var ys := SegmentQueries(Segments(content));
    SomesGood(ys);
    Somes(ys)
  }

  lemma SomesGood(ys: seq<Option<string>>)
    requires forall i :: 0 <= i < |ys| && ys[i].Some? ==> ys[i].value != "" && IsStripped(ys[i].value)
    ensures forall i :: 0 <= i < |Somes(ys)| ==> Somes(ys)[i] != "" && IsStripped(Somes(ys)[i])
  {
    forall i | 0 <= i < |Somes(ys)|
      ensures Somes(ys)[i] != "" && IsStripped(Somes(ys)[i])
    {
      var y := Somes(ys)[i];
      assert Some(y) in ys;
      var j :| 0 <= j < |ys| && ys[j] == Some(y);
    }
  }

  // ---------------------------------------------------------------------
  // Writing a query file
  // ---------------------------------------------------------------------

  predicate GoodNumber(n: string) {
    |n| > 0 && forall i :: 0 <= i < |n| ==> IsDigit(n[i])
  }

  /** A query that survives a round trip: non-empty, stripped, without
      '/', and with '\n' as its only line break. */
  predicate GoodQuery(q: string) {
    q != "" && IsStripped(q) && '/' !in q &&
    forall i :: 0 <= i < |q| && IsLineBreak(q[i]) ==> q[i] == '\n'
  }

  function Header(n: string): string {
    "// " + n + ". Query"
  }

  /** A query between line breaks, as it follows its header. */
  function Lead(q: string): string {
    "\n" + q + "\n"
  }

  function Leads(qs: seq<string>): (ls: seq<string>)
    ensures |ls| == |qs|
    ensures forall i :: 0 <= i < |qs| ==> ls[i] == Lead(qs[i])
    decreases |qs|
  {
    if |qs| == 0 then [] else [Lead(qs[0])] + Leads(qs[1..])
  }

  /** A header line and its query per number and query. */
  function Render(ns: seq<string>, qs: seq<string>): string
    requires |ns| == |qs|
    decreases |ns|
  {
    if |ns| == 0 then "" else Header(ns[0]) + Lead(qs[0]) + Render(ns[1..], qs[1..])
  }

  /** A header is matched where it stands, up to its line break. */
  lemma HeaderMatched(a: string, n: string, rest: string)
    requires GoodNumber(n)
    ensures HeaderEnd(a + Header(n) + "\n" + rest, |a|) == Some(|a| + |Header(n)|)
  {
    var s := a + Header(n) + "\n" + rest;
    var i := |a|;
    assert OpensHeader(s, i);
    var d := i + 3 + |n|;
    assert forall k :: i + 3 <= k < d ==> s[k] == n[k - i - 3];
    assert s[d] == '.';
    DigitEndOf(s, i + 3, d);
    assert ClosesHeader(s, d);
    assert s[d + 7] == '\n';
  }

  /** No header starts inside a lead. */
  lemma NoHeaderInLead(q: string, rest: string)
    requires '/' !in q
    ensures forall j :: 0 <= j < |Lead(q)| ==> HeaderEnd(Lead(q) + rest, j).None?
  {
    var s := Lead(q) + rest;
    forall j | 0 <= j < |Lead(q)|
      ensures s[j] != '/'
    {
      if 0 < j <= |q| {
        assert s[j] == q[j - 1];
      }
    }
  }

  /** The first header found is the one at `p`. */
  lemma {:induction false} FirstHeaderAt(s: string, i: nat, p: nat, e: nat)
    requires i <= p < |s| && HeaderEnd(s, p) == Some(e)
    requires forall j :: i <= j < p ==> HeaderEnd(s, j).None?
    ensures FirstHeader(s, i) == Some((p, e))
    decreases p - i
  {
    if i < p {
      assert HeaderEnd(s, i).None?;
      FirstHeaderAt(s, i + 1, p, e);
    }
  }

  lemma {:induction false} NoHeaderAfter(s: string, i: nat)
    requires i <= |s|
    requires forall j :: i <= j < |s| ==> s[j] != '/'
    ensures FirstHeader(s, i).None?
    decreases |s| - i
  {
    if i < |s| {
      NoHeaderAfter(s, i + 1);
    }
  }

  /** A lead followed by rendered blocks splits into the lead and the
      blocks' leads. */
  lemma {:induction false} SegmentsOfLead(q: string, ns: seq<string>, qs: seq<string>)
    requires |ns| == |qs| && '/' !in q
    requires forall i :: 0 <= i < |ns| ==> GoodNumber(ns[i]) && '/' !in qs[i]
    ensures Segments(Lead(q) + Render(ns, qs)) == [Lead(q)] + Leads(qs)
    decreases |ns|
  {
    var s := Lead(q) + Render(ns, qs);
    if |ns| == 0 {
      assert s == Lead(q);
      NoHeaderInLead(q, "");
      NoHeaderAfter(s, 0);
    } else {
      var p := |Lead(q)|;
      var tail := Lead(qs[0]) + Render(ns[1..], qs[1..]);
      assert s == Lead(q) + Header(ns[0]) + "\n" + (qs[0] + "\n" + Render(ns[1..], qs[1..]));
      HeaderMatched(Lead(q), ns[0], qs[0] + "\n" + Render(ns[1..], qs[1..]));
      NoHeaderInLead(q, Header(ns[0]) + tail);
      assert s == Lead(q) + (Header(ns[0]) + tail);
      var e := p + |Header(ns[0])|;
      FirstHeaderAt(s, 0, p, e);
      SegmentsStep(s, p, e);
      assert s[..p] == Lead(q);
      assert s[e..] == tail;
      SegmentsOfLead(qs[0], ns[1..], qs[1..]);
    }
  }

  /** A rendered file splits into an empty preamble and the blocks' leads. */
  lemma SegmentsOfRender(ns: seq<string>, qs: seq<string>)
    requires |ns| == |qs| > 0
    requires forall i :: 0 <= i < |ns| ==> GoodNumber(ns[i]) && '/' !in qs[i]
    ensures Segments(Render(ns, qs)) == [""] + Leads(qs)
  {
    RenderCons(ns, qs);
    SegmentsOfHeaded(ns[0], qs[0], ns[1..], qs[1..]);
  }

  lemma RenderCons(ns: seq<string>, qs: seq<string>)
    requires |ns| == |qs| > 0
    ensures Render(ns, qs) == Header(ns[0]) + (Lead(qs[0]) + Render(ns[1..], qs[1..]))
  {}

  lemma SegmentsOfHeaded(n: string, q: string, ns: seq<string>, qs: seq<string>)
    requires |ns| == |qs| && GoodNumber(n) && '/' !in q
    requires forall i :: 0 <= i < |ns| ==> GoodNumber(ns[i]) && '/' !in qs[i]
    ensures Segments(Header(n) + (Lead(q) + Render(ns, qs))) == [""] + Leads([q] + qs)
  {
    var tail := Lead(q) + Render(ns, qs);
    assert tail[0] == '\n';
    SegmentsAfterHeader(n, tail);
    SegmentsOfLead(q, ns, qs);
    assert Leads([q] + qs) == [Lead(q)] + Leads(qs);
  }

  /** A header at the very start leaves an empty preamble. */
  lemma SegmentsAfterHeader(n: string, tail: string)
    requires GoodNumber(n) && |tail| > 0 && tail[0] == '\n'
    ensures Segments(Header(n) + tail) == [""] + Segments(tail)
  {
    var s := Header(n) + tail;
    var e := |Header(n)|;
    LeadingHeader(n, tail[1..]);
    assert Header(n) + "\n" + tail[1..] == s;
    FirstHeaderAt(s, 0, 0, e);
    SegmentsStep(s, 0, e);
    assert s[..0] == "";
    assert s[e..] == tail;
  }

  lemma SegmentsStep(s: string, p: nat, e: nat)
    requires FirstHeader(s, 0) == Some((p, e))
    ensures Segments(s) == [s[..p]] + Segments(s[e..])
  {}

  lemma LeadingHeader(n: string, rest: string)
    requires GoodNumber(n)
    ensures HeaderEnd(Header(n) + "\n" + rest, 0) == Some(|Header(n)|)
  {
    HeaderMatched("", n, rest);
    assert "" + Header(n) + "\n" + rest == Header(n) + "\n" + rest;
  }

  // ---------------------------------------------------------------------
  // The query a lead holds
  // ---------------------------------------------------------------------

  lemma SplitBreaksLeading(x: string)
    ensures SplitOnBreaks("\n" + x) == [""] + SplitOnBreaks(x)
  {
    assert ("\n" + x)[1..] == x;
  }

  lemma {:induction false} SplitBreaksTrailing(x: string)
    ensures SplitOnBreaks(x + "\n") == SplitOnBreaks(x) + [""]
    decreases |x|
  {
    if |x| == 0 {
      assert SplitOnBreaks("\n") == [""] + SplitOnBreaks("");
    } else {
      assert (x + "\n")[1..] == x[1..] + "\n";
      SplitBreaksTrailing(x[1..]);
    }
  }

  /** Joining the pieces between '\n' breaks with '\n' gives the text
      back. */
  lemma {:induction false} JoinSplitBreaks(x: string)
    requires forall i :: 0 <= i < |x| && IsLineBreak(x[i]) ==> x[i] == '\n'
    ensures Join(SplitOnBreaks(x), "\n") == x
    decreases |x|
  {
    if |x| > 0 {
      var rest := SplitOnBreaks(x[1..]);
      JoinSplitBreaks(x[1..]);
      if IsLineBreak(x[0]) {
        assert Join([""] + rest, "\n") == "" + "\n" + Join(rest, "\n");
        assert [x[0]] + x[1..] == x;
      } else {
        var parts := [[x[0]] + rest[0]] + rest[1..];
        if |rest| == 1 {
          assert Join(parts, "\n") == [x[0]] + rest[0];
          assert [x[0]] + x[1..] == x;
        } else {
          assert Join(rest, "\n") == rest[0] + "\n" + Join(rest[1..], "\n");
          assert parts[1..] == rest[1..];
          assert Join(parts, "\n") == [x[0]] + rest[0] + "\n" + Join(rest[1..], "\n");
          assert [x[0]] + x[1..] == x;
        }
      }
    }
  }

  /** Every character of a piece is a character of the text. */
  lemma {:induction false} PieceChars(x: string, c: char)
    requires c !in x
    ensures forall i :: 0 <= i < |SplitOnBreaks(x)| ==> c !in SplitOnBreaks(x)[i]
    decreases |x|
  {
    if |x| > 0 {
      PieceChars(x[1..], c);
    }
  }

  lemma StripChars(x: string, c: char)
    requires c !in x
    ensures c !in Strip(x)
  {
    var a := TrimStart(x);
    assert forall k :: 0 <= k < |a| ==> a[k] == x[|x| - |a| + k];
    var b := TrimEnd(a);
    assert forall k :: 0 <= k < |b| ==> b[k] == a[k];
  }

  /** The query a lead holds is the query itself. */
  lemma QueryOfLead(q: string)
    requires GoodQuery(q)
    ensures QueryOf(Lead(q)) == Some(q)
  {
    var lines := [""] + SplitOnBreaks(q);
    LeadLines(q);
    NoCommentLines(q);
    KeepsAll(lines);
    JoinLead(q);
  }

  lemma LeadLines(q: string)
    requires q != "" && IsStripped(q)
    ensures SplitLines(Lead(q)) == [""] + SplitOnBreaks(q)
  {
    assert Lead(q) == "\n" + (q + "\n");
    SplitBreaksLeading(q + "\n");
    SplitBreaksTrailing(q);
  }

  lemma NoCommentLines(q: string)
    requires '/' !in q
    ensures forall i :: 0 <= i < |[""] + SplitOnBreaks(q)| ==> !IsComment(([""] + SplitOnBreaks(q))[i])
  {
    var pieces := SplitOnBreaks(q);
    var lines := [""] + pieces;
    PieceChars(q, '/');
    forall i | 0 <= i < |lines|
      ensures !IsComment(lines[i])
    {
      if i > 0 {
        assert lines[i] == pieces[i - 1];
        StripChars(lines[i], '/');
      }
    }
  }

  lemma JoinLead(q: string)
    requires GoodQuery(q)
    ensures Strip(Join([""] + SplitOnBreaks(q), "\n")) == q
  {
    var pieces := SplitOnBreaks(q);
    assert Join([""] + pieces, "\n") == "" + "\n" + Join(pieces, "\n");
    JoinSplitBreaks(q);
    assert "" + "\n" + q == "\n" + q + "";
    StripPadded("\n", q, "");
  }

  /** The leads of good queries give back the queries. */
  lemma QueriesOfLeads(qs: seq<string>)
    requires forall i :: 0 <= i < |qs| ==> GoodQuery(qs[i])
    ensures Somes(SegmentQueries(Leads(qs))) == qs
  {
    var ys := SegmentQueries(Leads(qs));
    forall i | 0 <= i < |qs|
      ensures ys[i] == Some(qs[i])
    {
      QueryOfLead(qs[i]);
    }
    SomesOfAll(ys, qs);
  }

  lemma SegmentQueriesCons(x: string, segs: seq<string>)
    ensures SegmentQueries([x] + segs) == [QueryOf(x)] + SegmentQueries(segs)
  {}

  lemma EmptyPreamble()
    ensures QueryOf("") == None
  {
    assert SplitOnBreaks("") == [""];
    assert SplitLines("") == [];
  }

  /** Reading a rendered query file gives back its queries, in order. */
  lemma ParseRendered(ns: seq<string>, qs: seq<string>)
    requires |ns| == |qs| > 0
    requires forall i :: 0 <= i < |ns| ==> GoodNumber(ns[i]) && GoodQuery(qs[i])
    ensures ParseQueries(Render(ns, qs)) == qs
  {
    SegmentsOfRender(ns, qs);
    SegmentQueriesCons("", Leads(qs));
    EmptyPreamble();
    SomesAppend([None], SegmentQueries(Leads(qs)));
    QueriesOfLeads(qs);
    assert Somes([None]) == Somes<string>([]);
  }

  /** Text before the first header is read like any other query. */
  lemma ParsePreamble(q: string, ns: seq<string>, qs: seq<string>)
    requires GoodQuery(q) && |ns| == |qs|
    requires forall i :: 0 <= i < |ns| ==> GoodNumber(ns[i]) && GoodQuery(qs[i])
    ensures ParseQueries(Lead(q) + Render(ns, qs)) == [q] + qs
  {
    SegmentsOfLead(q, ns, qs);
    assert [Lead(q)] + Leads(qs) == Leads([q] + qs);
    QueriesOfLeads([q] + qs);
  }
}

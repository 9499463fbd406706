/** Character classes and the string operations of Python's `str` that the
    pipeline relies on: strip, lower, split, splitlines, join, find and the
    `in` substring test.  Character classes follow Python for whitespace and
    line boundaries; letters, digits and word characters are the ASCII ones. */
module Text {
  import opened Wrappers

  // ---------------------------------------------------------------------
  // Character classes
  // ---------------------------------------------------------------------

  /** `str.isspace()` for a single character. */
  predicate IsSpace(c: char) {
    || c == ' '
    || ('\t' <= c <= '\r')
    || ('\U{1C}' <= c <= '\U{1F}')
    || c == '\U{85}' || c == '\U{A0}' || c == '\U{1680}'
    || ('\U{2000}' <= c <= '\U{200A}')
    || c == '\U{2028}' || c == '\U{2029}' || c == '\U{202F}' || c == '\U{205F}' || c == '\U{3000}'
  }

  /** The characters at which `str.splitlines()` ends a line. */
  predicate IsLineBreak(c: char) {
    || ('\n' <= c <= '\r')
    || ('\U{1C}' <= c <= '\U{1E}')
    || c == '\U{85}' || c == '\U{2028}' || c == '\U{2029}'
  }

  predicate IsDigit(c: char) { '0' <= c <= '9' }

  predicate IsUpper(c: char) { 'A' <= c <= 'Z' }

  predicate IsAlpha(c: char) { IsUpper(c) || ('a' <= c <= 'z') }

  /** The regular-expression class `\w`. */
  predicate IsWordChar(c: char) { IsAlpha(c) || IsDigit(c) || c == '_' }

  lemma LineBreakIsSpace(c: char)
    ensures IsLineBreak(c) ==> IsSpace(c)
  {}

  // ---------------------------------------------------------------------
  // Case
  // ---------------------------------------------------------------------

  function LowerChar(c: char): (d: char)
    ensures !IsUpper(d)
    ensures IsSpace(d) <==> IsSpace(c)
    ensures IsWordChar(d) <==> IsWordChar(c)
    ensures d == '$' <==> c == '$'
    ensures !IsUpper(c) ==> d == c
  {
    if IsUpper(c) then (c as int + 32) as char else c
  }

  /** `str.lower()` */
  function Lower(s: string): (r: string)
    ensures |r| == |s|
    ensures forall i :: 0 <= i < |s| ==> r[i] == LowerChar(s[i])
  {
    seq(|s|, i requires 0 <= i < |s| => LowerChar(s[i]))
  }

  predicate IsLower(s: string) {
    forall i :: 0 <= i < |s| ==> !IsUpper(s[i])
  }

  lemma LowerOfLower(s: string)
    requires IsLower(s)
    ensures Lower(s) == s
  {}

  lemma LowerAppend(a: string, b: string)
    ensures Lower(a + b) == Lower(a) + Lower(b)
  {}

  // ---------------------------------------------------------------------
  // Strip
  // ---------------------------------------------------------------------

  /** `str.lstrip()` */
  function TrimStart(s: string): (r: string)
    ensures |r| <= |s| && r == s[|s| - |r|..]
    ensures |r| > 0 ==> !IsSpace(r[0])
    ensures forall i :: 0 <= i < |s| - |r| ==> IsSpace(s[i])
    decreases |s|
  {
    if |s| > 0 && IsSpace(s[0]) then TrimStart(s[1..]) else s
  }

  /** `str.rstrip()` */
  function TrimEnd(s: string): (r: string)
    ensures |r| <= |s| && r == s[..|r|]
    ensures |r| > 0 ==> !IsSpace(r[|r| - 1])
    ensures forall i :: |r| <= i < |s| ==> IsSpace(s[i])
    decreases |s|
  {
    if |s| > 0 && IsSpace(s[|s| - 1]) then TrimEnd(s[..|s| - 1]) else s
  }

  /** `str.strip()` */
  function Strip(s: string): (r: string)
    ensures |r| <= |s|
    ensures |r| > 0 ==> !IsSpace(r[0]) && !IsSpace(r[|r| - 1])
  {
    TrimEnd(TrimStart(s))
  }

  /** A string that `str.strip()` leaves alone. */
  predicate IsStripped(s: string) {
    |s| == 0 || (!IsSpace(s[0]) && !IsSpace(s[|s| - 1]))
  }

  lemma StripOfStripped(s: string)
    requires IsStripped(s)
    ensures Strip(s) == s
  {}

  lemma StripIdempotent(s: string)
    ensures Strip(Strip(s)) == Strip(s)
  {
    StripOfStripped(Strip(s));
  }

  /** `str.strip()` keeps every character that is not whitespace. */
  lemma NonSpaceSurvivesStrip(s: string, i: nat)
    requires i < |s| && !IsSpace(s[i])
    ensures s[i] in Strip(s)
  {
    var a := TrimStart(s);
    var off := |s| - |a|;
    assert i >= off;
    assert a[i - off] == s[i];
    var b := TrimEnd(a);
    assert i - off < |b|;
    assert b[i - off] == s[i];
  }

  /** A character of `s` occurs in it as a one-character string. */
  lemma CharContained(s: string, c: char)
    requires c in s
    ensures Contains(s, [c])
  {
    var j :| 0 <= j < |s| && s[j] == c;
    assert s[j..j + 1] == [c];
    assert OccursAt(s, [c], j);
  }

  /** A string with no non-space character strips to the empty string. */
  lemma StripAllSpace(s: string)
    requires forall i :: 0 <= i < |s| ==> IsSpace(s[i])
    ensures Strip(s) == ""
    decreases |s|
  {
    if |s| > 0 {
      StripAllSpace(s[1..]);
    }
  }

  // ---------------------------------------------------------------------
  // Prefixes and substrings
  // ---------------------------------------------------------------------

  /** `s.startswith(p)` */
  predicate StartsWith(s: string, p: string) {
    |p| <= |s| && s[..|p|] == p
  }

  /** `p` occurs in `s` at index `i`. */
  predicate OccursAt(s: string, p: string, i: int) {
    0 <= i && i + |p| <= |s| && s[i..i + |p|] == p
  }

  /** The end of the run of ASCII digits starting at `k`. */
  function DigitEnd(s: string, k: nat): (e: nat)
    requires k <= |s|
    ensures k <= e <= |s|
    ensures forall i :: k <= i < e ==> IsDigit(s[i])
    ensures e < |s| ==> !IsDigit(s[e])
    decreases |s| - k
  {
    if k < |s| && IsDigit(s[k]) then DigitEnd(s, k + 1) else k
  }

  lemma {:induction false} DigitEndOf(s: string, k: nat, e: nat)
    requires k <= e <= |s| && (forall i :: k <= i < e ==> IsDigit(s[i])) && (e < |s| ==> !IsDigit(s[e]))
    ensures DigitEnd(s, k) == e
    decreases e - k
  {
    if k < e {
      DigitEndOf(s, k + 1, e);
    }
  }

  /** Python's `p in s` for strings. */
  predicate Contains(s: string, p: string) {
    exists i | 0 <= i <= |s| :: OccursAt(s, p, i)
  }

  /** The first index at or after `k` where `p` occurs in `s`. */
  function FindFrom(s: string, p: string, k: nat): (r: Option<nat>)
    requires k <= |s|
    ensures r.Some? ==> k <= r.value && OccursAt(s, p, r.value)
    ensures r.Some? ==> forall j :: k <= j < r.value ==> !OccursAt(s, p, j)
    ensures r.None? ==> forall j :: k <= j <= |s| ==> !OccursAt(s, p, j)
    decreases |s| - k
  {
    if OccursAt(s, p, k) then Some(k)
    else if k == |s| then None
    else FindFrom(s, p, k + 1)
  }

  /** `str.find(p)`, with `None` for -1. */
  function Find(s: string, p: string): (r: Option<nat>)
    ensures r.Some? <==> Contains(s, p)
    ensures r.Some? ==> OccursAt(s, p, r.value) && forall j :: 0 <= j < r.value ==> !OccursAt(s, p, j)
  {
    FindFrom(s, p, 0)
  }

  /** `s.split(p)[0]`: the text before the first occurrence of `p`, or all of
      `s` when `p` does not occur.  (Python refuses an empty separator.) */
  function Before(s: string, p: string): (r: string)
    requires |p| > 0
    ensures StartsWith(s, r)
    ensures Contains(s, p) ==> OccursAt(s, p, |r|)
    ensures !Contains(s, p) ==> r == s
    ensures forall j :: 0 <= j < |r| ==> !OccursAt(s, p, j)
  {
    match Find(s, p)
    case Some(i) => s[..i]
    case None => s
  }

  /** `s.split(p, 1)[1]`: the text after the first occurrence of `p`. */
  function After(s: string, p: string): (r: string)
    requires |p| > 0 && Contains(s, p)
    ensures s == Before(s, p) + p + r
  {
    var i := Find(s, p).value;
    assert s == s[..i] + s[i..i + |p|] + s[i + |p|..];
    s[i + |p|..]
  }

  /** `s.split(p)[1]`: the text between the first and the second
      occurrence of `p`, or the rest of `s` when `p` occurs only once. */
  function SecondPiece(s: string, p: string): (r: string)
    requires |p| > 0 && Contains(s, p)
    ensures !Contains(r, p)
    ensures |r| + |p| <= |s|
  {
    var r := Before(After(s, p), p);
    BeforeIdempotent(After(s, p), p);
    r
  }

  /** Splitting `a + p + b + p + c` at `p` puts `b` second, when neither `a`
      nor `b` can hold the start of an occurrence of `p`. */
  lemma SecondPieceOf(a: string, p: string, b: string, c: string)
    requires |p| > 0
    requires forall i :: 0 <= i < |a| ==> a[i] != p[0]
    requires forall i :: 0 <= i < |b| ==> b[i] != p[0]
    ensures Contains(a + p + b + p + c, p) && SecondPiece(a + p + b + p + c, p) == b
  {
    assert a + p + b + p + c == a + p + (b + p + c);
    CutAtSeparator(a, p, b + p + c);
    CutAtSeparator(b, p, c);
  }

  /** Text made only of whitespace (including the empty text). */
  predicate AllSpace(s: string) {
    forall i :: 0 <= i < |s| ==> IsSpace(s[i])
  }

  lemma {:induction false} TrimStartPadded(a: string, x: string)
    requires AllSpace(a) && (|x| == 0 || !IsSpace(x[0]))
    ensures TrimStart(a + x) == x
    decreases |a|
  {
    if |a| == 0 {
      assert a + x == x;
    } else {
      assert (a + x)[0] == a[0];
      assert (a + x)[1..] == a[1..] + x;
      TrimStartPadded(a[1..], x);
    }
  }

  lemma {:induction false} TrimEndPadded(x: string, b: string)
    requires AllSpace(b) && (|x| == 0 || !IsSpace(x[|x| - 1]))
    ensures TrimEnd(x + b) == x
    decreases |b|
  {
    if |b| == 0 {
      assert x + b == x;
    } else {
      assert (x + b)[|x + b| - 1] == b[|b| - 1];
      assert (x + b)[..|x + b| - 1] == x + b[..|b| - 1];
      TrimEndPadded(x, b[..|b| - 1]);
    }
  }

  /** Stripping undoes padding a stripped text with whitespace. */
  lemma StripPadded(a: string, x: string, b: string)
    requires AllSpace(a) && AllSpace(b) && IsStripped(x)
    ensures Strip(a + x + b) == x
  {
    if |x| == 0 {
      assert a + x + b == a + b;
      assert AllSpace(a + b);
      StripAllSpace(a + b);
    } else {
      assert a + x + b == a + (x + b);
      TrimStartPadded(a, x + b);
      TrimEndPadded(x, b);
    }
  }

  lemma OccursInPrefix(s: string, n: nat, p: string, j: int)
    requires n <= |s|
    requires OccursAt(s[..n], p, j)
    ensures OccursAt(s, p, j)
  {
    assert s[j..j + |p|] == s[..n][j..j + |p|];
  }

  /** Cutting `a + p + b` at `p` gives back `a` and `b` when `a` cannot hold
      the start of an occurrence of `p`. */
  lemma {:induction false} CutAtSeparator(a: string, p: string, b: string)
    requires |p| > 0 && forall i :: 0 <= i < |a| ==> a[i] != p[0]
    ensures Contains(a + p + b, p)
    ensures Before(a + p + b, p) == a
    ensures After(a + p + b, p) == b
  {
    var s := a + p + b;
    assert OccursAt(s, p, |a|) by {
      assert s[|a|..|a| + |p|] == p;
    }
    forall j | 0 <= j < |a|
      ensures !OccursAt(s, p, j)
    {
      assert s[j] == a[j];
    }
    var i := Find(s, p).value;
    assert i == |a|;
    var r := After(s, p);
    assert s == a + p + r;
    assert s[|a| + |p|..] == b;
    assert (a + p + r)[|a| + |p|..] == r;
  }

  /** Cutting at the first occurrence of `p`, given that none starts
      inside `a`, even one running on past `a`. */
  lemma CutAtFirst(a: string, p: string, b: string)
    requires |p| > 0 && forall j :: 0 <= j < |a| ==> !OccursAt(a + p + b, p, j)
    ensures Contains(a + p + b, p)
    ensures Before(a + p + b, p) == a
    ensures After(a + p + b, p) == b
  {
    var s := a + p + b;
    assert OccursAt(s, p, |a|) by {
      assert s[|a|..|a| + |p|] == p;
    }
    var r := After(s, p);
    assert s == a + p + r;
    assert s[|a| + |p|..] == b;
    assert (a + p + r)[|a| + |p|..] == r;
  }

  /** A text that does not open with whitespace keeps its first character
      when stripped. */
  lemma StripKeepsHead(s: string)
    requires |s| > 0 && !IsSpace(s[0])
    ensures |Strip(s)| > 0 && Strip(s)[0] == s[0]
  {
    assert TrimStart(s) == s;
    var r := TrimEnd(s);
    assert !IsSpace(s[0]);
    assert r[0] == s[0];
  }

  /** Cutting at a separator twice is cutting once. */
  lemma BeforeIdempotent(s: string, p: string)
    requires |p| > 0
    ensures Before(Before(s, p), p) == Before(s, p)
  {
    var b := Before(s, p);
    if Contains(b, p) {
      var j :| 0 <= j <= |b| && OccursAt(b, p, j);
      OccursInPrefix(s, |b|, p, j);
      assert false;
    }
  }

  lemma LongerOccurrence(s: string, q: string, p: string, k: int)
    requires StartsWith(q, p) && OccursAt(s, q, k)
    ensures OccursAt(s, p, k)
  {
    assert s[k..k + |p|] == s[k..k + |q|][..|p|];
  }

  /** When `q` starts with `p`, cutting at `q` and then at `p` is cutting at
      `p`, unless the first `p` begins fewer than `|p|` characters before
      the first `q` and so overlaps it. */
  lemma BeforeLongerSeparator(s: string, q: string, p: string)
    requires |p| > 0 && StartsWith(q, p)
    requires Contains(s, p) && Contains(s, q) ==>
      var i, k := Find(s, p).value, Find(s, q).value;
      i == k || i + |p| <= k
    ensures Before(Before(s, q), p) == Before(s, p)
  {
    var b := Before(s, q);
    if !Contains(s, q) {
      assert b == s;
    } else {
      var k := Find(s, q).value;
      assert b == s[..k];
      LongerOccurrence(s, q, p, k);
      var i := Find(s, p).value;
      assert Before(s, p) == s[..i];
      if i == k {
        if Contains(b, p) {
          var j := Find(b, p).value;
          OccursInPrefix(s, k, p, j);
          assert false;
        }
      } else {
        assert OccursAt(b, p, i) by {
          assert b[i..i + |p|] == s[i..i + |p|];
        }
        var j := Find(b, p).value;
        OccursInPrefix(s, k, p, j);
        assert j == i;
      }
    }
  }

  // ---------------------------------------------------------------------
  // Whitespace splitting and joining
  // ---------------------------------------------------------------------

  /** Length of the longest prefix of `s` with no whitespace. */
  function NonSpaceRun(s: string): (n: nat)
    ensures n <= |s|
    ensures forall i :: 0 <= i < n ==> !IsSpace(s[i])
    ensures n < |s| ==> IsSpace(s[n])
    decreases |s|
  {
    if |s| == 0 || IsSpace(s[0]) then 0 else 1 + NonSpaceRun(s[1..])
  }

  /** A word of `str.split()`: non-empty and free of whitespace. */
  predicate IsWord(w: string) {
    |w| > 0 && forall i :: 0 <= i < |w| ==> !IsSpace(w[i])
  }

  lemma RunIsWord(t: string)
    requires |t| > 0 && !IsSpace(t[0])
    ensures NonSpaceRun(t) > 0 && IsWord(t[..NonSpaceRun(t)])
  {}

  /** `str.split()` with no argument: the maximal whitespace-free runs. */
  function Words(s: string): (ws: seq<string>)
    ensures forall i :: 0 <= i < |ws| ==> IsWord(ws[i])
    decreases |s|
  {
    var t := TrimStart(s);
    if |t| == 0 then []
    else
      var n := NonSpaceRun(t);
      RunIsWord(t);
      [t[..n]] + Words(t[n..])
  }

  /** Whatever occurs in a suffix of `s` occurs in `s`. */
  lemma ContainsInSuffix(s: string, k: nat, p: string)
    requires k <= |s| && Contains(s[k..], p)
    ensures Contains(s, p)
  {
    var i :| 0 <= i <= |s[k..]| && OccursAt(s[k..], p, i);
    assert s[k + i..k + i + |p|] == s[k..][i..i + |p|];
    assert OccursAt(s, p, k + i);
  }

  /** Every word of `str.split()` occurs in the text. */
  lemma {:induction false} WordsOccur(s: string)
    ensures forall i :: 0 <= i < |Words(s)| ==> Contains(s, Words(s)[i])
    decreases |s|
  {
    var t := TrimStart(s);
    if |t| > 0 {
      var n := NonSpaceRun(t);
      WordsOccur(t[n..]);
      OccurAfterRun(s, t, n, Words(t[n..]));
      assert Words(s) == [t[..n]] + Words(t[n..]);
    }
  }

  /** A run opening a suffix `t` of `s`, and whatever occurs after the run
      in `t`, occur in `s`. */
  lemma OccurAfterRun(s: string, t: string, n: nat, rest: seq<string>)
    requires |t| <= |s| && t == s[|s| - |t|..] && n <= |t|
    requires forall i :: 0 <= i < |rest| ==> Contains(t[n..], rest[i])
    ensures forall i :: 0 <= i < |[t[..n]] + rest| ==> Contains(s, ([t[..n]] + rest)[i])
  {
    var k := |s| - |t|;
    var ws := [t[..n]] + rest;
    assert t[n..] == s[k + n..];
    forall i | 0 <= i < |ws|
      ensures Contains(s, ws[i])
    {
      if i == 0 {
        assert t[..n] == s[k..k + n];
        assert OccursAt(s, t[..n], k);
      } else {
        assert ws[i] == rest[i - 1];
        ContainsInSuffix(s, k + n, rest[i - 1]);
      }
    }
  }

  /** `sep.join(parts)` */
  function Join(parts: seq<string>, sep: string): (r: string)
    ensures |parts| == 0 ==> r == ""
    ensures |parts| == 1 ==> r == parts[0]
    decreases |parts|
  {
    if |parts| == 0 then ""
    else if |parts| == 1 then parts[0]
    else parts[0] + sep + Join(parts[1..], sep)
  }

  lemma WordsOfSpacePrefixed(s: string)
    requires |s| > 0 && IsSpace(s[0])
    ensures Words(s) == Words(s[1..])
  {}

  /** Splitting on whitespace undoes joining words with single spaces. */
  lemma {:induction false} WordsJoin(ws: seq<string>)
    requires forall i :: 0 <= i < |ws| ==> IsWord(ws[i])
    ensures Words(Join(ws, " ")) == ws
    decreases |ws|
  {
    if |ws| == 0 {
    } else if |ws| == 1 {
      var w := ws[0];
      assert TrimStart(w) == w;
      assert w + "" == w;
      NonSpaceRunOfWord(w, "");
      assert w[..|w|] == w;
      assert Words(w[|w|..]) == [];
    } else {
      var w := ws[0];
      var rest := Join(ws[1..], " ");
      var s := w + " " + rest;
      assert Join(ws, " ") == s;
      assert TrimStart(s) == s;
      NonSpaceRunOfWord(w, " " + rest);
      assert s == w + (" " + rest);
      assert s[|w|..] == " " + rest;
      assert s[..|w|] == w;
      WordsOfSpacePrefixed(" " + rest);
      assert (" " + rest)[1..] == rest;
      WordsJoin(ws[1..]);
      assert Words(s) == [w] + ws[1..];
    }
  }

  lemma {:induction false} NonSpaceRunOfWord(w: string, tail: string)
    requires IsWord(w)
    requires |tail| == 0 || IsSpace(tail[0])
    ensures NonSpaceRun(w + tail) == |w|
    decreases |w|
  {
    var s := w + tail;
    assert s[0] == w[0] && !IsSpace(s[0]);
    if |w| > 1 {
      assert s[1..] == w[1..] + tail;
      assert forall i :: 0 <= i < |w| - 1 ==> w[1..][i] == w[i + 1];
      NonSpaceRunOfWord(w[1..], tail);
    } else {
      assert s[1..] == tail;
    }
  }

  /** `' '.join(s.split())`: whitespace runs collapsed to single spaces and
      none left at either end. */
  function CollapseSpaces(s: string): string {
    Join(Words(s), " ")
  }

  // ---------------------------------------------------------------------
  // Splitting on one character, and into lines
  // ---------------------------------------------------------------------

  /** `s.split(c)` for a one-character separator. */
  function SplitOn(s: string, c: char): (parts: seq<string>)
    ensures |parts| >= 1
    ensures forall i, j :: 0 <= i < |parts| && 0 <= j < |parts[i]| ==> parts[i][j] != c
    decreases |s|
  {
    if |s| == 0 then [""]
    else
      var rest := SplitOn(s[1..], c);
      if s[0] == c then [""] + rest
      else [[s[0]] + rest[0]] + rest[1..]
  }

  /** The pieces between line boundaries, like `SplitOn` with every line
      boundary as a separator. */
  function SplitOnBreaks(s: string): (parts: seq<string>)
    ensures |parts| >= 1
    ensures forall i, j :: 0 <= i < |parts| && 0 <= j < |parts[i]| ==> !IsLineBreak(parts[i][j])
    decreases |s|
  {
    if |s| == 0 then [""]
    else
      var rest := SplitOnBreaks(s[1..]);
      if IsLineBreak(s[0]) then [""] + rest
      else [[s[0]] + rest[0]] + rest[1..]
  }

  /** `str.splitlines()` on text whose line endings are single characters (as
      Python's text-mode reading leaves them): the pieces between line
      boundaries, without the empty piece after a final boundary. */
  function SplitLines(s: string): (lines: seq<string>)
    ensures forall i, j :: 0 <= i < |lines| && 0 <= j < |lines[i]| ==> !IsLineBreak(lines[i][j])
  {
    var parts := SplitOnBreaks(s);
    if parts[|parts| - 1] == "" then parts[..|parts| - 1] else parts
  }

  /** `s.replace(c, "")` */
  function RemoveChar(s: string, c: char): (r: string)
    ensures forall i :: 0 <= i < |r| ==> r[i] != c
    ensures c !in s ==> r == s
    decreases |s|
  {
    if |s| == 0 then ""
    else if s[0] == c then RemoveChar(s[1..], c)
    else [s[0]] + RemoveChar(s[1..], c)
  }

  lemma {:induction false} RemoveCharAppend(a: string, b: string, c: char)
    ensures RemoveChar(a + b, c) == RemoveChar(a, c) + RemoveChar(b, c)
    decreases |a|
  {
    if |a| == 0 {
      assert a + b == b;
    } else {
      assert (a + b)[0] == a[0];
      assert (a + b)[1..] == a[1..] + b;
      RemoveCharAppend(a[1..], b, c);
    }
  }

  /** A text whose last character is not whitespace strips to a non-empty
      text. */
  lemma StripNonBlank(s: string)
    requires |s| > 0 && !IsSpace(s[|s| - 1])
    ensures |Strip(s)| > 0
  {
    var t := TrimStart(s);
    assert |t| > 0 && t[|t| - 1] == s[|s| - 1];
  }

  /** Joining non-empty stripped parts gives a stripped text. */
  lemma {:induction false} JoinStripped(parts: seq<string>, sep: string)
    requires |parts| > 0
    requires forall i :: 0 <= i < |parts| ==> |parts[i]| > 0 && IsStripped(parts[i])
    ensures var j := Join(parts, sep);
            |j| > 0 && IsStripped(j)
    decreases |parts|
  {
    if |parts| > 1 {
      JoinStripped(parts[1..], sep);
      var rest := Join(parts[1..], sep);
      assert Join(parts, sep) == parts[0] + sep + rest;
    }
  }

  /** A text without the separator splits into itself. */
  lemma {:induction false} SplitOnWhole(a: string, c: char)
    requires forall i :: 0 <= i < |a| ==> a[i] != c
    ensures SplitOn(a, c) == [a]
    decreases |a|
  {
    if |a| > 0 {
      SplitOnWhole(a[1..], c);
      assert [a[0]] + a[1..] == a;
    }
  }

  /** Splitting at the first separator. */
  lemma {:induction false} SplitOnCut(a: string, b: string, c: char)
    requires forall i :: 0 <= i < |a| ==> a[i] != c
    ensures SplitOn(a + [c] + b, c) == [a] + SplitOn(b, c)
    decreases |a|
  {
    var s := a + [c] + b;
    if |a| == 0 {
      assert s[0] == c && s[1..] == b;
    } else {
      assert s[0] == a[0] && s[1..] == a[1..] + [c] + b;
      SplitOnCut(a[1..], b, c);
      assert [a[0]] + a[1..] == a;
    }
  }

  /** Splitting on a character undoes joining parts that do not hold it. */
  lemma {:induction false} SplitOnJoin(parts: seq<string>, c: char)
    requires |parts| > 0
    requires forall i, j :: 0 <= i < |parts| && 0 <= j < |parts[i]| ==> parts[i][j] != c
    ensures SplitOn(Join(parts, [c]), c) == parts
    decreases |parts|
  {
    if |parts| == 1 {
      SplitOnWhole(parts[0], c);
    } else {
      var rest := Join(parts[1..], [c]);
      assert Join(parts, [c]) == parts[0] + [c] + rest;
      SplitOnCut(parts[0], rest, c);
      SplitOnJoin(parts[1..], c);
      assert [parts[0]] + parts[1..] == parts;
    }
  }
}

/** Cypher query text as the pipeline sees it: opaque, except for the
    `$name` parameter references (the pattern `\$\w+`).  Query text is never
    interpreted; this module only finds, replaces and assembles those
    references. */
module CypherText {
  import opened Wrappers
  import opened Text

  /** Length of the longest prefix of `s` made of word characters. */
  function WordRun(s: string): (n: nat)
    ensures n <= |s|
    ensures forall i :: 0 <= i < n ==> IsWordChar(s[i])
    ensures n < |s| ==> !IsWordChar(s[n])
    decreases |s|
  {
    if |s| == 0 || !IsWordChar(s[0]) then 0 else 1 + WordRun(s[1..])
  }

  /** A parameter name: one or more word characters. */
  predicate IsName(n: string) {
    |n| > 0 && forall i :: 0 <= i < |n| ==> IsWordChar(n[i])
  }

  /** True when the text `s` cannot extend a parameter name that precedes it. */
  predicate EndsName(s: string) {
    |s| == 0 || !IsWordChar(s[0])
  }

  /** The names of all parameter references in `s`, as `re.findall(r'\$(\w+)', s)`
      finds them. */
  function ParamRefs(s: string): set<string>
    decreases |s|
  {
    if |s| == 0 then {}
    else if s[0] == '$' && WordRun(s[1..]) > 0 then
      var n := WordRun(s[1..]);
      {s[1..1 + n]} + ParamRefs(s[1 + n..])
    else ParamRefs(s[1..])
  }

  /** `re.sub(r'\$\w+', '$param', s)`: every parameter reference renamed. */
  function SubstituteParams(s: string): string
    decreases |s|
  {
    if |s| == 0 then ""
    else if s[0] == '$' && WordRun(s[1..]) > 0 then
      "$param" + SubstituteParams(s[1 + WordRun(s[1..])..])
    else [s[0]] + SubstituteParams(s[1..])
  }

  // ---------------------------------------------------------------------
  // Facts about SubstituteParams
  // ---------------------------------------------------------------------

  /** Renaming keeps the first character, so it keeps non-emptiness. */
  lemma {:induction false} SubstituteFirst(s: string)
    ensures |SubstituteParams(s)| == 0 <==> |s| == 0
    ensures |s| > 0 ==> SubstituteParams(s)[0] == s[0]
  {}

  /** After renaming, no parameter reference other than `$param` is left. */
  lemma {:induction false} SubstituteLeavesOnlyParam(s: string)
    ensures ParamRefs(SubstituteParams(s)) <= {"param"}
    decreases |s|
  {
    if |s| == 0 {
    } else if s[0] == '$' && WordRun(s[1..]) > 0 {
      var rest := RestAfterRef(s);
      SubstituteLeavesOnlyParam(rest);
      RenamedAhead(SubstituteParams(rest));
    } else {
      SubstituteLeavesOnlyParam(s[1..]);
      NoRefAtHead(s);
    }
  }

  /** The text after a reference at the head of `s`; it cannot extend the
      reference, and neither can its renaming. */
  function RestAfterRef(s: string): (rest: string)
    requires |s| > 0 && s[0] == '$' && WordRun(s[1..]) > 0
    ensures EndsName(rest) && EndsName(SubstituteParams(rest))
    ensures |rest| < |s|
    ensures SubstituteParams(s) == "$param" + SubstituteParams(rest)
  {
    var rest := s[1 + WordRun(s[1..])..];
    SubstituteFirst(rest);
    rest
  }

  /** When `s` does not start with a reference, its head character passes
      through renaming and scanning unchanged. */
  lemma NoRefAtHead(s: string)
    requires |s| > 0 && !(s[0] == '$' && WordRun(s[1..]) > 0)
    ensures SubstituteParams(s) == [s[0]] + SubstituteParams(s[1..])
    ensures ParamRefs(SubstituteParams(s)) == ParamRefs(SubstituteParams(s[1..]))
    ensures SubstituteParams(SubstituteParams(s))
         == [s[0]] + SubstituteParams(SubstituteParams(s[1..]))
  {
    var t := SubstituteParams(s[1..]);
    SubstituteFirst(s[1..]);
    var u := [s[0]] + t;
    assert u[0] == s[0];
    assert u[1..] == t;
    if s[0] == '$' {
      assert WordRun(u[1..]) == 0;
    }
  }

  /** A reference `$n` followed by text that cannot extend it contributes
      exactly `n`. */
  lemma ParamAhead(n: string, rest: string)
    requires IsName(n) && EndsName(rest)
    ensures ParamRefs("$" + n + rest) == {n} + ParamRefs(rest)
    ensures SubstituteParams("$" + n + rest) == "$param" + SubstituteParams(rest)
  {
    var s := "$" + n + rest;
    assert s[1..] == n + rest;
    WordRunOfName(n, rest);
    assert s[1..1 + |n|] == n;
    assert s[1 + |n|..] == rest;
  }

  /** `ParamAhead` for the name every reference is renamed to. */
  lemma RenamedAhead(t: string)
    requires EndsName(t)
    ensures ParamRefs("$param" + t) == {"param"} + ParamRefs(t)
    ensures SubstituteParams("$param" + t) == "$param" + SubstituteParams(t)
  {
    assert IsName("param");
    assert "$" + "param" + t == "$param" + t;
    ParamAhead("param", t);
  }

  lemma {:induction false} WordRunOfName(n: string, rest: string)
    requires IsName(n) && EndsName(rest)
    ensures WordRun(n + rest) == |n|
    decreases |n|
  {
    assert (n + rest)[0] == n[0];
    if |n| > 1 {
      assert (n + rest)[1..] == n[1..] + rest;
      WordRunOfName(n[1..], rest);
    } else {
      assert (n + rest)[1..] == rest;
    }
  }

  /** Renaming is idempotent: renamed text renames to itself. */
  lemma {:induction false} SubstituteIdempotent(s: string)
    ensures SubstituteParams(SubstituteParams(s)) == SubstituteParams(s)
    decreases |s|
  {
    if |s| == 0 {
    } else if s[0] == '$' && WordRun(s[1..]) > 0 {
      var rest := RestAfterRef(s);
      SubstituteIdempotent(rest);
      RenamedAhead(SubstituteParams(rest));
    } else {
      SubstituteIdempotent(s[1..]);
      NoRefAtHead(s);
    }
  }

  /** Renaming works piecewise when the second piece cannot extend a name
      that ends the first. */
  lemma {:induction false} SubstituteAppend(a: string, b: string)
    requires EndsName(b)
    ensures SubstituteParams(a + b) == SubstituteParams(a) + SubstituteParams(b)
    decreases |a|, 1
  {
    if |a| == 0 {
      assert a + b == b;
    } else if a[0] == '$' && WordRun(a[1..]) > 0 {
      SubstituteAppendRef(a, b);
    } else {
      var s := a + b;
      assert s[0] == a[0];
      assert s[1..] == a[1..] + b;
      WordRunAppend(a[1..], b);
      calc {
        SubstituteParams(s);
        { SubstituteChar(s); }
        [a[0]] + SubstituteParams(a[1..] + b);
        { SubstituteAppend(a[1..], b); }
        [a[0]] + (SubstituteParams(a[1..]) + SubstituteParams(b));
        { ConcatAssoc([a[0]], SubstituteParams(a[1..]), SubstituteParams(b)); }
        ([a[0]] + SubstituteParams(a[1..])) + SubstituteParams(b);
        { SubstituteChar(a); }
        SubstituteParams(a) + SubstituteParams(b);
      }
    }
  }

  /** `SubstituteAppend` when `a` opens with a parameter reference. */
  lemma {:induction false} SubstituteAppendRef(a: string, b: string)
    requires EndsName(b) && |a| > 0 && a[0] == '$' && WordRun(a[1..]) > 0
    ensures SubstituteParams(a + b) == SubstituteParams(a) + SubstituteParams(b)
    decreases |a|, 0
  {
    var s := a + b;
    var n := WordRun(a[1..]);
    assert s[0] == a[0];
    assert s[1..] == a[1..] + b;
    WordRunAppend(a[1..], b);
    var rest := a[1 + n..];
    calc {
      SubstituteParams(s);
      { SubstituteRef(s); }
      "$param" + SubstituteParams(s[1 + n..]);
      { assert s[1 + n..] == rest + b; }
      "$param" + SubstituteParams(rest + b);
      { SubstituteAppend(rest, b); }
      "$param" + (SubstituteParams(rest) + SubstituteParams(b));
      { ConcatAssoc("$param", SubstituteParams(rest), SubstituteParams(b)); }
      ("$param" + SubstituteParams(rest)) + SubstituteParams(b);
      { SubstituteRef(a); }
      SubstituteParams(a) + SubstituteParams(b);
    }
  }

  /** A parameter reference at the front becomes `$param`. */
  lemma SubstituteRef(s: string)
    requires |s| > 0 && s[0] == '$' && WordRun(s[1..]) > 0
    ensures SubstituteParams(s) == "$param" + SubstituteParams(s[1 + WordRun(s[1..])..])
  {}

  /** Any other first character is kept. */
  lemma SubstituteChar(s: string)
    requires |s| > 0 && !(s[0] == '$' && WordRun(s[1..]) > 0)
    ensures SubstituteParams(s) == [s[0]] + SubstituteParams(s[1..])
  {}

  lemma {:induction false} WordRunAppend(a: string, b: string)
    requires EndsName(b)
    ensures WordRun(a + b) == WordRun(a)
    decreases |a|
  {
    if |a| == 0 {
      assert a + b == b;
    } else {
      assert (a + b)[0] == a[0];
      assert (a + b)[1..] == a[1..] + b;
      WordRunAppend(a[1..], b);
    }
  }

  /** Renaming never introduces an upper-case letter. */
  lemma {:induction false} SubstitutePreservesLower(s: string)
    requires IsLower(s)
    ensures IsLower(SubstituteParams(s))
    decreases |s|
  {
    if |s| > 0 {
      if s[0] == '$' && WordRun(s[1..]) > 0 {
        SubstitutePreservesLower(s[1 + WordRun(s[1..])..]);
      } else {
        SubstitutePreservesLower(s[1..]);
      }
    }
  }

  /** Renaming never introduces or removes whitespace. */
  lemma {:induction false} SubstitutePreservesWord(w: string)
    requires IsWord(w)
    ensures IsWord(SubstituteParams(w))
    decreases |w|
  {
    SubstituteFirst(w);
    if |w| > 1 {
      if w[0] == '$' && WordRun(w[1..]) > 0 {
        var rest := w[1 + WordRun(w[1..])..];
        if |rest| > 0 {
          SubstitutePreservesWord(rest);
        }
      } else {
        SubstitutePreservesWord(w[1..]);
      }
    }
  }

  // ---------------------------------------------------------------------
  // Query text assembled from literal pieces and parameter references
  // ---------------------------------------------------------------------

  /** A piece of query text: literal Cypher, or a `$name` reference. */
  datatype Piece = Lit(text: string) | Ref(name: string)

  /** The query text the pieces spell. */
  function Render(ps: seq<Piece>): string
    decreases |ps|
  {
    if |ps| == 0 then ""
    else
      match ps[0]
      case Lit(t) => t + Render(ps[1..])
      case Ref(n) => "$" + n + Render(ps[1..])
  }

  /** The names the pieces reference. */
  function Params(ps: seq<Piece>): set<string>
    decreases |ps|
  {
    if |ps| == 0 then {}
    else
      match ps[0]
      case Lit(_) => Params(ps[1..])
      case Ref(n) => {n} + Params(ps[1..])
  }

  /** Literal query text: no `$` anywhere in it. */
  predicate IsLiteral(t: string) {
    forall i :: 0 <= i < |t| ==> t[i] != '$'
  }

  /** Literal text joined to literal text is literal. */
  lemma LiteralAppend(a: string, b: string)
    requires IsLiteral(a) && IsLiteral(b)
    ensures IsLiteral(a + b)
  {
    forall i | 0 <= i < |a + b|
      ensures (a + b)[i] != '$'
    {
      if i < |a| {
        assert (a + b)[i] == a[i];
      } else {
        assert (a + b)[i] == b[i - |a|];
      }
    }
  }

  /** Pieces spell their references unambiguously: literals hold no `$`,
      names are made of word characters, and no name runs into the text
      that follows it. */
  predicate WellFormed(ps: seq<Piece>)
    decreases |ps|
  {
    |ps| == 0 ||
    ((match ps[0]
      case Lit(t) => IsLiteral(t)
      case Ref(n) => IsName(n) && EndsName(Render(ps[1..])))
     && WellFormed(ps[1..]))
  }

  lemma {:induction false} ParamRefsAfterLiteral(t: string, rest: string)
    requires IsLiteral(t)
    ensures ParamRefs(t + rest) == ParamRefs(rest)
    decreases |t|
  {
    if |t| == 0 {
      assert t + rest == rest;
    } else {
      assert (t + rest)[0] == t[0];
      assert (t + rest)[1..] == t[1..] + rest;
      ParamRefsAfterLiteral(t[1..], rest);
    }
  }

  /** Scanning the rendered text for `$name` references finds exactly the
      references the pieces hold. */
  lemma {:induction false} ScanRendered(ps: seq<Piece>)
    requires WellFormed(ps)
    ensures ParamRefs(Render(ps)) == Params(ps)
    decreases |ps|
  {
    if |ps| > 0 {
      ScanRendered(ps[1..]);
      match ps[0]
      case Lit(t) => ParamRefsAfterLiteral(t, Render(ps[1..]));
      case Ref(n) => ParamAhead(n, Render(ps[1..]));
    }
  }
}

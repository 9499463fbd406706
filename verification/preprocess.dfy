/** The stand-alone intent-and-entity parser: one model call returns a JSON
    object holding both, optionally wrapped in a code block.  Unlike the
    query preprocessor it only unwraps a block that starts the reply, and it
    reports every failure as `None`. */
module Preprocess {
  import opened Wrappers
  import opened Text
  import opened Values
  import Preprocessing

  /** The text handed to the JSON parser: for a reply that starts with a
      fence, the stripped body of that first block; otherwise the reply. */
  function LeadingBlockPayload(raw: string): (p: string)
    ensures !StartsWith(raw, Preprocessing.Fence) ==> p == raw
    ensures StartsWith(raw, Preprocessing.Fence) ==> IsStripped(p)
  {
    if StartsWith(raw, Preprocessing.JsonFence) then
      JsonFenceStartsFence(raw);
      BlockBody(raw, Preprocessing.JsonFence)
    else if StartsWith(raw, Preprocessing.Fence) then
      BlockBody(raw, Preprocessing.Fence)
    else raw
  }

  /** `raw.split(open)[1].split("```")[0].strip()`: the stripped piece
      after the opening `open`, ending at the next `open` or the next fence,
      whichever comes first. */
  function BlockBody(raw: string, open: string): (p: string)
    requires |open| > 0 && StartsWith(raw, open)
    ensures IsStripped(p)
  {
    assert raw[0..|open|] == open;
    assert OccursAt(raw, open, 0);
    Strip(Before(SecondPiece(raw, open), Preprocessing.Fence))
  }

  lemma JsonFenceStartsFence(s: string)
    requires StartsWith(s, Preprocessing.JsonFence)
    ensures StartsWith(s, Preprocessing.Fence)
  {
    assert Preprocessing.JsonFence[..|Preprocessing.Fence|] == Preprocessing.Fence;
    assert s[..|Preprocessing.Fence|] == Preprocessing.JsonFence[..|Preprocessing.Fence|];
  }

  lemma OccursAtStart(s: string, p: string)
    requires StartsWith(s, p)
    ensures Contains(s, p) && Find(s, p) == Some(0)
  {
    assert OccursAt(s, p, 0);
  }

  /** `get_intent_and_entities`: `reply` is the model's message, or `None`
      when the API call raised; the result is the parsed object, or `None`
      on an API error or invalid JSON. */
  function GetIntentAndEntities(reply: Option<string>, parse: Preprocessing.Parser): (r: Option<Value>)
    ensures reply.None? ==> r.None?
    ensures reply.Some? ==> r == parse(LeadingBlockPayload(Strip(reply.value)))
  {
    match reply
    case None => None
    case Some(content) => parse(LeadingBlockPayload(Strip(content)))
  }

  // ---------------------------------------------------------------------
  // Agreement with the query preprocessor
  // ---------------------------------------------------------------------

  /** A stripped reply that opens with a JSON block hands its stripped
      payload to the parser, whatever follows the block, as long as the
      closing fence is not followed by another backtick. */
  lemma LeadingBlockRoundTrip(payload: string, post: string)
    requires Preprocessing.Unfenced(payload) && !StartsWith(post, "`")
    ensures LeadingBlockPayload(Preprocessing.JsonFence + payload + Preprocessing.Fence + post)
            == Strip(payload)
  {
    var s := Preprocessing.JsonFence + payload + Preprocessing.Fence + post;
    assert s == "" + Preprocessing.JsonFence + (payload + Preprocessing.Fence + post);
    assert StartsWith(s, Preprocessing.JsonFence);
    CutAtSeparator("", Preprocessing.JsonFence, payload + Preprocessing.Fence + post);
    Preprocessing.JsonCut(payload, post);
  }

  /** When the stripped reply opens with a JSON block, or opens with a plain
      block and holds no JSON block at all, both parsers hand the JSON parser
      the same text. */
  lemma AgreesWithPreprocessor(raw: string)
    requires StartsWith(raw, Preprocessing.JsonFence) ||
             (StartsWith(raw, Preprocessing.Fence) && !Contains(raw, Preprocessing.JsonFence))
    ensures LeadingBlockPayload(raw) == Strip(Preprocessing.FencedPayload(raw))
  {
    if StartsWith(raw, Preprocessing.JsonFence) {
      OccursAtStart(raw, Preprocessing.JsonFence);
    } else {
      OccursAtStart(raw, Preprocessing.Fence);
    }
  }

  /** A reply with no fence at all is parsed whole by both, up to the
      stripping the parser tolerates anyway. */
  lemma AgreesWithoutFence(raw: string)
    requires !Contains(raw, Preprocessing.Fence)
    ensures LeadingBlockPayload(raw) == raw
    ensures Preprocessing.FencedPayload(raw) == raw
  {
    if StartsWith(raw, Preprocessing.Fence) {
      OccursAtStart(raw, Preprocessing.Fence);
    }
  }

  /** A code block after a preamble is unwrapped by the query preprocessor
      but handed whole, once stripped, to the parser here: the preamble's
      first character is not whitespace, so stripping keeps it and the
      stripped reply does not open with a fence. */
  lemma PreambleDiverges(pre: string, payload: string, post: string, parse: Preprocessing.Parser)
    requires |pre| > 0 && !IsSpace(pre[0])
    requires Preprocessing.Unfenced(pre) && Preprocessing.Unfenced(payload)
    requires !StartsWith(post, "`")
    ensures var s := pre + Preprocessing.JsonFence + payload + Preprocessing.Fence + post;
            LeadingBlockPayload(Strip(s)) == Strip(s) &&
            GetIntentAndEntities(Some(s), parse) == parse(Strip(s)) &&
            Preprocessing.FencedPayload(s) == payload
  {
    var s := pre + Preprocessing.JsonFence + payload + Preprocessing.Fence + post;
    assert s[0] == pre[0];
    StripKeepsHead(s);
    NoOpeningFence(Strip(s));
    Preprocessing.JsonBlockRoundTrip(pre, payload, post);
  }

  /** A text that does not open with a backtick is handed on whole. */
  lemma NoOpeningFence(t: string)
    requires |t| > 0 && t[0] != '`'
    ensures LeadingBlockPayload(t) == t
  {
    if |t| >= 3 {
      assert t[..3][0] == t[0];
    }
  }

  /** A reply that opens with a plain code block and holds a JSON block
      later is split differently: the parser here takes the first block,
      the query preprocessor the JSON block.  For "```a```b```jsonc```"
      they see "a" and "c". */
  lemma LaterJsonBlockDiverges(a: string, b: string, c: string, post: string)
    requires Preprocessing.Unfenced(a) && Preprocessing.Unfenced(b) && Preprocessing.Unfenced(c)
    requires !StartsWith(a, "j") && !StartsWith(b, "j") && !StartsWith(post, "`")
    ensures var s := Preprocessing.Fence + a + Preprocessing.Fence
                     + (b + Preprocessing.JsonFence + (c + Preprocessing.Fence + post));
            LeadingBlockPayload(s) == Strip(a) && Preprocessing.FencedPayload(s) == c
  {
    var head := Preprocessing.Fence + a + Preprocessing.Fence;
    var rest := c + Preprocessing.Fence + post;
    FirstBlockOf(a, b + Preprocessing.JsonFence + rest);
    ConcatAssoc(head, b + Preprocessing.JsonFence, rest);
    ConcatAssoc(head, b, Preprocessing.JsonFence);
    NoEarlyJsonFence(a, b, rest);
    JsonBlockAfter(head + b, c, post);
  }

  /** A reply opening with a plain block whose body holds no backtick and
      does not open with `j` hands on that stripped body. */
  lemma FirstBlockOf(a: string, tail: string)
    requires Preprocessing.Unfenced(a) && !StartsWith(a, "j")
    ensures LeadingBlockPayload(Preprocessing.Fence + a + Preprocessing.Fence + tail) == Strip(a)
  {
    PlainOpening(a, tail);
    PlainBody(a, tail);
  }

  /** Such a reply opens with a fence but not with a JSON fence. */
  lemma PlainOpening(a: string, tail: string)
    requires Preprocessing.Unfenced(a) && !StartsWith(a, "j")
    ensures var s := Preprocessing.Fence + a + Preprocessing.Fence + tail;
            StartsWith(s, Preprocessing.Fence) && !StartsWith(s, Preprocessing.JsonFence)
  {
    var s := Preprocessing.Fence + a + Preprocessing.Fence + tail;
    assert |a| > 0 ==> a[..1] == [a[0]];
    assert s[3] != 'j';
    if |s| >= 7 {
      assert s[..7][3] == s[3];
    }
    assert s[..3] == Preprocessing.Fence;
  }

  /** The body of its first block is `a`. */
  lemma PlainBody(a: string, tail: string)
    requires Preprocessing.Unfenced(a)
    ensures StartsWith(Preprocessing.Fence + a + Preprocessing.Fence + tail, Preprocessing.Fence)
    ensures BlockBody(Preprocessing.Fence + a + Preprocessing.Fence + tail, Preprocessing.Fence) == Strip(a)
  {
    var s := Preprocessing.Fence + a + Preprocessing.Fence + tail;
    assert s[..3] == Preprocessing.Fence;
    assert s == "" + Preprocessing.Fence + a + Preprocessing.Fence + tail;
    SecondPieceOf("", Preprocessing.Fence, a, tail);
    NoFenceIn(a);
  }

  /** The query preprocessor takes the first JSON block, wherever it sits,
      when no JSON fence starts before it. */
  lemma JsonBlockAfter(x: string, c: string, post: string)
    requires Preprocessing.Unfenced(c) && !StartsWith(post, "`")
    requires forall j :: 0 <= j < |x| ==>
               !OccursAt(x + Preprocessing.JsonFence + (c + Preprocessing.Fence + post), Preprocessing.JsonFence, j)
    ensures Preprocessing.FencedPayload(x + Preprocessing.JsonFence + (c + Preprocessing.Fence + post)) == c
  {
    CutAtFirst(x, Preprocessing.JsonFence, c + Preprocessing.Fence + post);
    Preprocessing.JsonCut(c, post);
  }

  /** A backtick-free text holds no fence. */
  lemma NoFenceIn(a: string)
    requires Preprocessing.Unfenced(a)
    ensures !Contains(a, Preprocessing.Fence)
  {
    forall k | 0 <= k <= |a|
      ensures !OccursAt(a, Preprocessing.Fence, k)
    {
      if k + 3 <= |a| {
        assert a[k..k + 3][0] == a[k];
      }
    }
  }

  /** No JSON fence starts before the one that follows two plain blocks
      whose bodies neither hold a backtick nor open with `j`. */
  lemma NoEarlyJsonFence(a: string, b: string, rest: string)
    requires Preprocessing.Unfenced(a) && Preprocessing.Unfenced(b)
    requires !StartsWith(a, "j") && !StartsWith(b, "j")
    ensures var x := Preprocessing.Fence + a + Preprocessing.Fence + b;
            forall j :: 0 <= j < |x| ==> !OccursAt(x + Preprocessing.JsonFence + rest, Preprocessing.JsonFence, j)
  {
    var x := Preprocessing.Fence + a + Preprocessing.Fence + b;
    var s := x + Preprocessing.JsonFence + rest;
    var m := |a|;
    assert m > 0 ==> a[..1] == [a[0]];
    assert |b| > 0 ==> b[..1] == [b[0]];
    assert s[3] != '`' || m == 0;
    assert s[3] != 'j';
    assert s[m + 6] != 'j';
    forall j | 0 <= j < |x|
      ensures !OccursAt(s, Preprocessing.JsonFence, j)
    {
      var w := s[j..j + 7];
      if 3 <= j < 3 + m {
        assert w[0] == s[j] == a[j - 3];
      } else if 6 + m <= j {
        assert w[0] == s[j] == b[j - 6 - m];
      } else if j == 0 || j == 3 + m {
        assert w[3] == s[j + 3];
      } else if j == 1 || j == 4 + m {
        assert w[2] == s[j + 2];
        assert w[3] == s[j + 3];
      } else {
        assert w[1] == s[j + 1];
        assert w[3] == s[j + 3];
      }
    }
  }
}

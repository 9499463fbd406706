/** The query preprocessor: it asks a language model for an intent key and
    for a JSON object of entities, and cleans up what comes back.  The model
    call and the JSON parser are parameters; what is modelled is the
    clean-up around them. */
module Preprocessing {
  import opened Wrappers
  import opened Text
  import opened Values

  /** The intent reported when the model's answer names no registered intent. */
  const Unknown: string := "unknown"

  /** The opening fence of a JSON code block, and the bare fence. */
  const JsonFence: string := "```json"
  const Fence: string := "```"

  /** A JSON parser: the value a text decodes to, or `None` where Python's
      `json.loads` raises `JSONDecodeError`. */
  type Parser = string -> Option<Value>

  // ---------------------------------------------------------------------
  // classify_intent
  // ---------------------------------------------------------------------

  /** The answer with surrounding whitespace and every quote character
      removed. */
  function CleanAnswer(answer: string): (c: string)
    ensures IsStripped(c)
    ensures forall i :: 0 <= i < |c| ==> c[i] != '"' && c[i] != '\''
  {
    var once := RemoveChar(RemoveChar(Strip(answer), '"'), '\'');
    RemoveCharKeeps(RemoveChar(Strip(answer), '"'), '\'', '"');
    Strip(once)
  }

  lemma {:induction false} RemoveCharKeeps(s: string, c: char, d: char)
    requires forall i :: 0 <= i < |s| ==> s[i] != d
    ensures forall i :: 0 <= i < |RemoveChar(s, c)| ==> RemoveChar(s, c)[i] != d
    decreases |s|
  {
    if |s| > 0 {
      RemoveCharKeeps(s[1..], c, d);
    }
  }

  /** `classify_intent`: the cleaned answer when it is an available intent,
      else "unknown". */
  function ClassifyIntent(answer: string, intents: seq<string>): (r: string)
    ensures r in intents || r == Unknown
    ensures CleanAnswer(answer) in intents <==> r in intents && r == CleanAnswer(answer)
    ensures CleanAnswer(answer) !in intents ==> r == Unknown
  {
    var c := CleanAnswer(answer);
    if c in intents then c else Unknown
  }

  /** An answer that is an available intent, quoted and padded with
      whitespace, classifies as that intent. */
  lemma ClassifyQuoted(k: string, q: char, a: string, b: string, intents: seq<string>)
    requires k in intents && IsStripped(k)
    requires forall i :: 0 <= i < |k| ==> k[i] != '"' && k[i] != '\''
    requires q == '"' || q == '\''
    requires AllSpace(a) && AllSpace(b)
    ensures ClassifyIntent(a + [q] + k + [q] + b, intents) == k
  {
    var quoted := [q] + k + [q];
    assert a + [q] + k + [q] + b == a + quoted + b;
    StripPadded(a, quoted, b);
    assert '"' !in k && '\'' !in k;
    RemoveQuote(k, q, '"');
    if q == '\'' {
      RemoveQuote(k, q, '\'');
    }
    StripOfStripped(k);
  }

  /** Removing a character absent from `k` from `k` between two `q`s. */
  lemma RemoveQuote(k: string, q: char, c: char)
    requires c !in k
    ensures RemoveChar([q] + k + [q], c) == if q == c then k else [q] + k + [q]
  {
    RemoveCharAppend([q] + k, [q], c);
    RemoveCharAppend([q], k, c);
    assert [q][1..] == [];
  }

  // ---------------------------------------------------------------------
  // extract_entities
  // ---------------------------------------------------------------------

  /** The text handed to the JSON parser (before stripping): the piece after
      the first JSON fence if there is one anywhere, cut at the next fence,
      else the piece after the first fence, else the whole response.  The
      piece after a JSON fence ends where the next JSON fence begins, even
      when that one shares backticks with a fence before it. */
  function FencedPayload(response: string): (p: string)
    ensures !Contains(response, Fence) ==> p == response
    ensures Contains(response, Fence) ==> !Contains(p, Fence)
  {
    JsonFenceIsFence(response);
    if Contains(response, JsonFence) then
      var piece := SecondPiece(response, JsonFence);
      BeforeFenceUnfenced(piece);
      Before(piece, Fence)
    else if Contains(response, Fence) then
      var piece := SecondPiece(response, Fence);
      BeforeFenceUnfenced(piece);
      Before(piece, Fence)
    else response
  }

  /** Text cut at its first fence holds no fence. */
  lemma BeforeFenceUnfenced(s: string)
    ensures !Contains(Before(s, Fence), Fence)
  {
    BeforeIdempotent(s, Fence);
  }

  /** A text holding a JSON fence holds a bare fence. */
  lemma JsonFenceIsFence(s: string)
    ensures Contains(s, JsonFence) ==> Contains(s, Fence)
  {
    if Contains(s, JsonFence) {
      assert JsonFence[..|Fence|] == Fence;
      LongerOccurrence(s, JsonFence, Fence, Find(s, JsonFence).value);
    }
  }

  /** `extract_entities`: the parsed payload, or an empty dictionary when it
      is not valid JSON. */
  function ExtractEntities(response: string, parse: Parser): (v: Value)
    ensures parse(Strip(FencedPayload(response))).None? ==> v == Dict(map[])
    ensures parse(Strip(FencedPayload(response))).Some? ==>
              v == parse(Strip(FencedPayload(response))).value
  {
    parse(Strip(FencedPayload(response))).GetOr(Dict(map[]))
  }

  /** No backtick: text that cannot open or close a code fence. */
  predicate Unfenced(s: string) {
    forall i :: 0 <= i < |s| ==> s[i] != '`'
  }

  /** Wrapping a payload in a JSON code block, with any fence-free preamble
      and any epilogue that does not extend the closing backtick run, hands
      the payload back to the parser. */
  lemma JsonBlockRoundTrip(pre: string, payload: string, post: string)
    requires Unfenced(pre) && Unfenced(payload) && !StartsWith(post, "`")
    ensures FencedPayload(pre + JsonFence + payload + Fence + post) == payload
  {
    var s := pre + JsonFence + payload + Fence + post;
    assert s == pre + JsonFence + (payload + Fence + post);
    CutAtSeparator(pre, JsonFence, payload + Fence + post);
    JsonCut(payload, post);
  }

  /** The body of a JSON block, cut first at the next JSON fence and then at
      the next fence, is the body, provided the closing fence is not followed
      by another backtick. */
  lemma JsonCut(payload: string, post: string)
    requires Unfenced(payload) && !StartsWith(post, "`")
    ensures Before(Before(payload + Fence + post, JsonFence), Fence) == payload
  {
    var t := payload + Fence + post;
    var i := |payload|;
    CutAtSeparator(payload, Fence, post);
    assert Find(t, Fence) == Some(i);
    assert JsonFence[..|Fence|] == Fence;
    NoJsonFenceNear(payload, post);
    if Contains(t, JsonFence) {
      var k := Find(t, JsonFence).value;
      assert k == i || i + |Fence| <= k;
    }
    BeforeLongerSeparator(t, JsonFence, Fence);
  }

  /** No JSON fence starts inside a backtick-free body, nor one or two
      characters into the closing fence when no backtick follows it. */
  lemma NoJsonFenceNear(payload: string, post: string)
    requires Unfenced(payload) && !StartsWith(post, "`")
    ensures forall k :: 0 <= k < |payload| ==> !OccursAt(payload + Fence + post, JsonFence, k)
    ensures !OccursAt(payload + Fence + post, JsonFence, |payload| + 1)
    ensures !OccursAt(payload + Fence + post, JsonFence, |payload| + 2)
  {
    var t := payload + Fence + post;
    var i := |payload|;
    forall k | 0 <= k < i
      ensures !OccursAt(t, JsonFence, k)
    {
      assert t[k] == payload[k] != JsonFence[0];
      if k + |JsonFence| <= |t| {
        assert t[k..k + |JsonFence|][0] == t[k];
      }
    }
    if |post| > 0 {
      assert post[..1] == [post[0]];
      assert t[i + 3] == post[0] != '`';
    }
    if i + 8 <= |t| {
      assert t[i + 1..i + 8][2] == t[i + 3];
    }
    if i + 9 <= |t| {
      assert t[i + 2..i + 9][1] == t[i + 3];
    }
  }

  /** Python's `split("```json")[1]` ends where the next JSON fence begins,
      so a closing fence that runs into a second JSON fence leaves a
      backtick behind: for `"```json{}````json"` the parser sees `{}`
      followed by a backtick. */
  lemma OverlappingClose(pre: string, payload: string, post: string)
    requires Unfenced(pre) && Unfenced(payload)
    ensures FencedPayload(pre + JsonFence + payload + "`" + JsonFence + post) == payload + "`"
  {
    var rest := payload + "`" + JsonFence + post;
    assert pre + JsonFence + payload + "`" + JsonFence + post == pre + JsonFence + rest;
    CutAtSeparator(pre, JsonFence, rest);
    OverlapPiece(payload, post);
    PieceUnfenced(payload);
  }

  /** The piece after a JSON fence that reaches a backtick-led JSON fence
      keeps that backtick. */
  lemma OverlapPiece(payload: string, post: string)
    requires Unfenced(payload)
    ensures Before(payload + "`" + JsonFence + post, JsonFence) == payload + "`"
  {
    var rest := payload + "`" + JsonFence + post;
    var i := |payload|;
    assert OccursAt(rest, JsonFence, i + 1) by {
      assert rest[i + 1..i + 8] == JsonFence;
    }
    forall k | 0 <= k <= i
      ensures !OccursAt(rest, JsonFence, k)
    {
      if k < i {
        assert rest[k] == payload[k] != JsonFence[0];
        assert rest[k..k + 7][0] == rest[k];
      } else {
        assert rest[i..i + 7][3] == rest[i + 3] == '`' != JsonFence[3];
      }
    }
  }

  /** A backtick-free text followed by one backtick holds no fence. */
  lemma PieceUnfenced(payload: string)
    requires Unfenced(payload)
    ensures !Contains(payload + "`", Fence)
  {
    var piece := payload + "`";
    forall k | 0 <= k <= |piece|
      ensures !OccursAt(piece, Fence, k)
    {
      if k + 3 <= |piece| {
        assert piece[k] == payload[k] != Fence[0];
        assert piece[k..k + 3][0] == piece[k];
      }
    }
  }

  /** The same for a plain code block, when no JSON block appears anywhere. */
  lemma PlainBlockRoundTrip(pre: string, payload: string, post: string)
    requires Unfenced(pre) && Unfenced(payload)
    requires !Contains(pre + Fence + payload + Fence + post, JsonFence)
    ensures FencedPayload(pre + Fence + payload + Fence + post) == payload
  {
    var s := pre + Fence + payload + Fence + post;
    assert s == pre + Fence + (payload + Fence + post);
    CutAtSeparator(pre, Fence, payload + Fence + post);
    CutAtSeparator(payload, Fence, post);
  }
}

/** The LLM layer's pure parts: choosing the vector index for an embedding
    model, merging the rows of the two retrieval methods, rendering them as
    prompt context, and laying out the prompt. */
module LlmHandler {
  import opened Wrappers
  import opened Text
  import opened Values

  // ---------------------------------------------------------------------
  // _get_index_for_model
  // ---------------------------------------------------------------------

  const MiniLmIndex: string := "minilm_vec_index"
  const MpnetIndex: string := "mpnet_vec_index"
  const BgeM3Index: string := "bgem3_vec_index"

  /** The vector index for an embedding model: the first of "minilm",
      "mpnet" and "bge-m3" found in the lower-cased name decides, and any
      other name falls back to the BGE-M3 index. */
  function IndexForModel(modelName: string): (index: string)
    ensures index in {MiniLmIndex, MpnetIndex, BgeM3Index}
    ensures index == MiniLmIndex <==> Contains(Lower(modelName), "minilm")
    ensures index == MpnetIndex <==>
              !Contains(Lower(modelName), "minilm") && Contains(Lower(modelName), "mpnet")
  {
    var name := Lower(modelName);
    if Contains(name, "minilm") then MiniLmIndex
    else if Contains(name, "mpnet") then MpnetIndex
    else if Contains(name, "bge-m3") then BgeM3Index
    else BgeM3Index
  }

  /** Only the letters of the name matter, not their case. */
  lemma IndexIgnoresCase(modelName: string)
    ensures IndexForModel(Lower(modelName)) == IndexForModel(modelName)
  {
    LowerOfLower(Lower(modelName));
  }

  // ---------------------------------------------------------------------
  // combine_results
  // ---------------------------------------------------------------------

  /** A result row: the dictionary a retrieval method produced. */
  type Row = map<string, Value>

  datatype Source = Baseline | Embedding

  /** An entry of `merged_data`: where the row came from, the row itself,
      and for embedding rows the similarity score. */
  datatype Entry = Entry(source: Source, data: Row, score: Option<Value>)

  /** The merged view: both inputs, kept as given, and the merged rows. */
  datatype Combined = Combined(baseline: Row, embedding: Row, merged: seq<Entry>)

  /** The feedback id a row is de-duplicated by: baseline rows use
      `feedback_ID`, falling back to `feedback_id`; embedding rows use
      `feedback_id` only.  A missing key reads as `None`. */
  function IdOf(src: Source, item: Row): Value {
    match src
    case Baseline => Or(Get(item, "feedback_ID", Null), Get(item, "feedback_id", Null))
    case Embedding => Get(item, "feedback_id", Null)
  }

  /** The id as the `seen_ids` set of `combine_results` compares it: by Python
      equality, so `1`, `1.0` and `True` are one id. */
  function KeyOf(src: Source, item: Row): (k: Value)
    ensures Truthy(k) <==> Truthy(IdOf(src, item))
  {
    PyKey(IdOf(src, item))
  }

  /** The id of a merged entry, compared as Python compares ids. */
  function EntryId(e: Entry): Value {
    KeyOf(e.source, e.data)
  }

  /** The entry a kept row becomes; embedding rows carry their score, 0 when
      they have none. */
  function MakeEntry(src: Source, item: Row): (e: Entry)
    ensures e.source == src && e.data == item
    ensures e.score.Some? <==> src == Embedding
  {
    match src
    case Baseline => Entry(Baseline, item, None)
    case Embedding => Entry(Embedding, item, Some(Get(item, "score", Int(0))))
  }

  /** Row `i` is the first row with its id, and that id is truthy and not
      already taken; ids are compared by Python equality. */
  predicate FirstAt(items: seq<Row>, src: Source, taken: set<Value>, i: int)
    requires 0 <= i < |items|
  {
    var id := KeyOf(src, items[i]);
    Truthy(id) && id !in taken && forall j :: 0 <= j < i ==> KeyOf(src, items[j]) != id
  }

  /** The reference definition of de-duplication: the rows that are first
      occurrences of an untaken truthy id, in input order. */
  function Kept(items: seq<Row>, src: Source, taken: set<Value>): seq<Entry>
    decreases |items|
  {
    if |items| == 0 then []
    else
      var n := |items| - 1;
      Kept(items[..n], src, taken)
        + (if FirstAt(items, src, taken, n) then [MakeEntry(src, items[n])] else [])
  }

  /** The ids taken once all of `items` has been seen. */
  function TakenAfter(items: seq<Row>, src: Source, taken: set<Value>): set<Value> {
    taken + set i | 0 <= i < |items| && Truthy(KeyOf(src, items[i])) :: KeyOf(src, items[i])
  }

  /** Whether a `results` value can be iterated the way the merge does: a
      list whose items are all dictionaries, or anything that is not a list
      (which the merge skips).  A list holding a non-dictionary makes
      Python fail on `item.get`. */
  predicate Mergeable(results: Value) {
    results.List? ==> forall i :: 0 <= i < |results.items| ==> results.items[i].Dict?
  }

  /** The rows of a `results` value: the dictionaries of a list, none for
      anything else. */
  function RowsOf(results: Value): (rows: seq<Row>)
    requires Mergeable(results)
    ensures results.List? ==> |rows| == |results.items|
    ensures results.List? ==> forall i :: 0 <= i < |rows| ==> rows[i] == results.items[i].entries
    ensures !results.List? ==> rows == []
  {
    if results.List? then
      seq(|results.items|, i requires 0 <= i < |results.items| => results.items[i].entries)
    else []
  }

  function ResultsOf(d: Row): Value {
    Get(d, "results", List([]))
  }

  /** One pass of the merge loop over `items`, from `taken`. */
  method MergeRows(items: seq<Row>, src: Source, taken: set<Value>)
    returns (entries: seq<Entry>, takenAfter: set<Value>)
    ensures entries == Kept(items, src, taken)
    ensures takenAfter == TakenAfter(items, src, taken)
  {
    entries := [];
    takenAfter := taken;
    var i := 0;
    while i < |items|
      invariant 0 <= i <= |items|
      invariant entries == Kept(items[..i], src, taken)
      invariant takenAfter == TakenAfter(items[..i], src, taken)
    {
      var id := KeyOf(src, items[i]);
      KeptStep(items, src, taken, i);
      if Truthy(id) && id !in takenAfter {
        takenAfter := takenAfter + {id};
        entries := entries + [MakeEntry(src, items[i])];
      }
      i := i + 1;
    }
    assert items[..|items|] == items;
  }

  /** One more row extends the kept rows by that row, and the taken keys by
      its key, exactly when its id is truthy and its key not yet taken;
      otherwise neither changes. */
  lemma KeptStep(items: seq<Row>, src: Source, taken: set<Value>, i: int)
    requires 0 <= i < |items|
    ensures var id := KeyOf(src, items[i]);
            Truthy(id) && id !in TakenAfter(items[..i], src, taken) ==>
              Kept(items[..i + 1], src, taken) == Kept(items[..i], src, taken) + [MakeEntry(src, items[i])] &&
              TakenAfter(items[..i + 1], src, taken) == TakenAfter(items[..i], src, taken) + {id}
    ensures var id := KeyOf(src, items[i]);
            !(Truthy(id) && id !in TakenAfter(items[..i], src, taken)) ==>
              Kept(items[..i + 1], src, taken) == Kept(items[..i], src, taken) &&
              TakenAfter(items[..i + 1], src, taken) == TakenAfter(items[..i], src, taken)
  {
    var id := KeyOf(src, items[i]);
    FirstAtIff(items[..i + 1], src, taken, i);
    assert items[..i + 1][..i] == items[..i];
    TakenStep(items, src, taken, i);
    if !(Truthy(id) && id !in TakenAfter(items[..i], src, taken)) {
      assert Kept(items[..i + 1], src, taken) == Kept(items[..i], src, taken) + [];
    }
  }

  lemma FirstAtIff(items: seq<Row>, src: Source, taken: set<Value>, i: int)
    requires 0 <= i < |items|
    ensures FirstAt(items, src, taken, i) <==>
              Truthy(KeyOf(src, items[i])) && KeyOf(src, items[i]) !in TakenAfter(items[..i], src, taken)
  {
    var id := KeyOf(src, items[i]);
    if Truthy(id) && id !in taken && !FirstAt(items, src, taken, i) {
      var j :| 0 <= j < i && KeyOf(src, items[j]) == id;
      assert items[..i][j] == items[j];
    }
    if FirstAt(items, src, taken, i) {
      forall j | 0 <= j < i
        ensures KeyOf(src, items[..i][j]) != id
      {
        assert items[..i][j] == items[j];
      }
    }
  }

  lemma TakenStep(items: seq<Row>, src: Source, taken: set<Value>, i: int)
    requires 0 <= i < |items|
    ensures TakenAfter(items[..i + 1], src, taken)
         == TakenAfter(items[..i], src, taken)
            + (if Truthy(KeyOf(src, items[i])) then {KeyOf(src, items[i])} else {})
  {
    var a := items[..i];
    var b := items[..i + 1];
    assert forall j :: 0 <= j < i ==> b[j] == a[j];
    assert b[i] == items[i];
  }

  /** The ids of `rows` that the merge looks up in its set are hashable:
      a truthy list or dictionary id makes Python raise `TypeError`. */
  predicate HashableIds(rows: seq<Row>, src: Source) {
    forall i :: 0 <= i < |rows| ==> Truthy(IdOf(src, rows[i])) ==> Hashable(IdOf(src, rows[i]))
  }

  /** Inputs `combine_results` merges without raising. */
  predicate Combinable(baseline: Row, embedding: Row) {
    Mergeable(ResultsOf(baseline)) && Mergeable(ResultsOf(embedding)) &&
    HashableIds(RowsOf(ResultsOf(baseline)), Baseline) &&
    HashableIds(RowsOf(ResultsOf(embedding)), Embedding)
  }

  /** `combine_results`: baseline rows first, then embedding rows, each kept
      only if its feedback id is truthy and not seen before; `None` stands
      for the exception Python raises on a list item that is not a
      dictionary or on an unhashable id. */
  method CombineResults(baseline: Row, embedding: Row) returns (c: Option<Combined>)
    ensures c.None? <==> !Combinable(baseline, embedding)
    ensures c.Some? ==> c.value.baseline == baseline && c.value.embedding == embedding
    ensures c.Some? ==>
              var b := RowsOf(ResultsOf(baseline));
              c.value.merged == Kept(b, Baseline, {})
                + Kept(RowsOf(ResultsOf(embedding)), Embedding, TakenAfter(b, Baseline, {}))
  {
    if !Combinable(baseline, embedding) {
      return None;
    }
    var b := RowsOf(ResultsOf(baseline));
    var fromBaseline, seen := MergeRows(b, Baseline, {});
    var fromEmbedding, _ := MergeRows(RowsOf(ResultsOf(embedding)), Embedding, seen);
    c := Some(Combined(baseline, embedding, fromBaseline + fromEmbedding));
  }

  // Properties of the reference definition

  /** Entries from `src` whose ids are truthy, not in `taken`, and in
      `after`. */
  predicate FreshIds(k: seq<Entry>, src: Source, taken: set<Value>, after: set<Value>) {
    forall a :: 0 <= a < |k| ==>
      k[a].source == src && Truthy(EntryId(k[a])) && EntryId(k[a]) !in taken && EntryId(k[a]) in after
  }

  /** No two entries share a feedback id. */
  predicate DistinctIds(k: seq<Entry>) {
    forall a, b :: 0 <= a < b < |k| ==> EntryId(k[a]) != EntryId(k[b])
  }

  /** Kept rows come from the given source, carry distinct truthy ids that
      were not taken, and every such id is taken by the end. */
  lemma {:induction false} KeptIds(items: seq<Row>, src: Source, taken: set<Value>)
    ensures FreshIds(Kept(items, src, taken), src, taken, TakenAfter(items, src, taken))
    ensures DistinctIds(Kept(items, src, taken))
    decreases |items|
  {
    if |items| > 0 {
      var n := |items| - 1;
      var init := items[..n];
      KeptIds(init, src, taken);
      var k0 := Kept(init, src, taken);
      var before := TakenAfter(init, src, taken);
      var after := TakenAfter(items, src, taken);
      TakenStep(items, src, taken, n);
      assert items[..n + 1] == items;
      if FirstAt(items, src, taken, n) {
        FirstAtIff(items, src, taken, n);
        FreshAppend(k0, MakeEntry(src, items[n]), src, taken, before, after);
      } else {
        FreshWiden(k0, src, taken, before, after);
      }
    }
  }

  /** An entry with a fresh id extends fresh, distinct entries. */
  lemma FreshAppend(k0: seq<Entry>, e: Entry, src: Source, taken: set<Value>,
                    before: set<Value>, after: set<Value>)
    requires FreshIds(k0, src, taken, before) && DistinctIds(k0) && before <= after
    requires e.source == src && Truthy(EntryId(e))
    requires EntryId(e) !in taken && EntryId(e) !in before && EntryId(e) in after
    ensures FreshIds(k0 + [e], src, taken, after) && DistinctIds(k0 + [e])
  {
    var k := k0 + [e];
    assert forall a :: 0 <= a < |k0| ==> k[a] == k0[a];
    assert k[|k0|] == e;
  }

  /** Fresh entries stay fresh for a larger final set of ids. */
  lemma FreshWiden(k: seq<Entry>, src: Source, taken: set<Value>, before: set<Value>, after: set<Value>)
    requires FreshIds(k, src, taken, before) && before <= after
    ensures FreshIds(k, src, taken, after)
  {}

  /** Nothing eligible is dropped: every truthy, untaken id among the rows
      is the id of a kept entry. */
  lemma {:induction false} KeptComplete(items: seq<Row>, src: Source, taken: set<Value>, i: int)
    requires 0 <= i < |items|
    requires Truthy(KeyOf(src, items[i])) && KeyOf(src, items[i]) !in taken
    ensures exists a :: 0 <= a < |Kept(items, src, taken)| &&
                        EntryId(Kept(items, src, taken)[a]) == KeyOf(src, items[i])
    decreases |items|
  {
    var n := |items| - 1;
    var init := items[..n];
    var k := Kept(items, src, taken);
    var k0 := Kept(init, src, taken);
    assert k[..|k0|] == k0;
    var id := KeyOf(src, items[i]);
    if exists j :: 0 <= j < n && KeyOf(src, items[j]) == id {
      var j :| 0 <= j < n && KeyOf(src, items[j]) == id;
      assert init[j] == items[j];
      KeptComplete(init, src, taken, j);
      var a :| 0 <= a < |k0| && EntryId(k0[a]) == id;
      assert k[a] == k0[a];
    } else {
      assert i == n;
      assert FirstAt(items, src, taken, n);
      assert k[|k0|] == MakeEntry(src, items[n]);
    }
  }

  /** The merged data never holds two entries with the same feedback id, all
      baseline entries come before all embedding entries, and only rows with
      a truthy id are merged. */
  lemma MergedDistinct(baseline: Row, embedding: Row, c: Combined)
    requires Mergeable(ResultsOf(baseline)) && Mergeable(ResultsOf(embedding))
    requires var b := RowsOf(ResultsOf(baseline));
             c.merged == Kept(b, Baseline, {})
                         + Kept(RowsOf(ResultsOf(embedding)), Embedding, TakenAfter(b, Baseline, {}))
    ensures forall a, b :: 0 <= a < b < |c.merged| ==> EntryId(c.merged[a]) != EntryId(c.merged[b])
    ensures forall a, b :: 0 <= a < b < |c.merged| && c.merged[b].source == Baseline ==>
              c.merged[a].source == Baseline
    ensures forall a :: 0 <= a < |c.merged| ==> Truthy(EntryId(c.merged[a]))
  {
    var rb := RowsOf(ResultsOf(baseline));
    var re := RowsOf(ResultsOf(embedding));
    var t := TakenAfter(rb, Baseline, {});
    KeptIds(rb, Baseline, {});
    KeptIds(re, Embedding, t);
    FreshConcat(Kept(rb, Baseline, {}), Kept(re, Embedding, t), t, TakenAfter(re, Embedding, t));
  }

  /** Baseline entries with fresh ids followed by embedding entries whose ids
      avoid every baseline id keep their ids distinct and their sources in
      order. */
  lemma FreshConcat(kb: seq<Entry>, ke: seq<Entry>, t: set<Value>, te: set<Value>)
    requires FreshIds(kb, Baseline, {}, t) && DistinctIds(kb)
    requires FreshIds(ke, Embedding, t, te) && DistinctIds(ke)
    ensures DistinctIds(kb + ke)
    ensures forall a, b :: 0 <= a < b < |kb + ke| && (kb + ke)[b].source == Baseline ==>
              (kb + ke)[a].source == Baseline
    ensures forall a :: 0 <= a < |kb + ke| ==> Truthy(EntryId((kb + ke)[a]))
  {
    var m := kb + ke;
    assert forall a :: 0 <= a < |kb| ==> m[a] == kb[a];
    assert forall a :: |kb| <= a < |m| ==> m[a] == ke[a - |kb|];
  }

  /** Ids are compared as Python compares them: an embedding row whose id
      is the float `n.0` is dropped after a baseline row with the integer
      id `n`. */
  lemma NumericIdsMerge(n: int)
    ensures var b: Row := map["feedback_ID" := Int(n)];
            var e: Row := map["feedback_id" := Float(n as real)];
            Kept([e], Embedding, TakenAfter([b], Baseline, {})) == []
  {
    var b: Row := map["feedback_ID" := Int(n)];
    var e: Row := map["feedback_id" := Float(n as real)];
    PyKeyNumeric(n, true);
    assert KeyOf(Embedding, e) == Int(n);
    if n != 0 {
      assert Get(b, "feedback_ID", Null) == Int(n);
      assert KeyOf(Baseline, b) == Int(n);
      assert [b][0] == b;
      assert Int(n) in TakenAfter([b], Baseline, {});
    }
    assert [e][..0] == [];
    assert !FirstAt([e], Embedding, TakenAfter([b], Baseline, {}), 0);
  }

  /** A `results` value that is not a list, such as an error message,
      contributes no entries. */
  lemma NonListContributesNothing(results: Value, src: Source, taken: set<Value>)
    requires !results.List?
    ensures Kept(RowsOf(results), src, taken) == []
  {}

  // ---------------------------------------------------------------------
  // format_context
  // ---------------------------------------------------------------------

  const NoData: string := "No relevant data found."
  const StructuredHeader: string := "=== STRUCTURED QUERY RESULTS ==="
  const SemanticHeader: string := "\n=== SEMANTIC SEARCH RESULTS ==="

  /** How many semantic matches the context shows at most. */
  const TopMatches: nat := 3

  /** Python's `str()` of a value, `json.dumps(v, indent=2)`, and the
      `:.3f` rendering of a score; all are opaque here. */
  datatype Renderers = Renderers(str: Value -> string, dumps: Value -> string, fixed3: Value -> string)

  /** What `format_context` can render without raising: embedding results
      that are falsy, or a list whose first three items, the only ones it
      reads, are dictionaries whose `semantic_text`, when present, is a
      string.  Truthy results of any other kind fail when sliced or when
      their first element is asked for a field; an item that is not a
      dictionary fails on `get`; a `semantic_text` that is not a string
      fails in the final newline join. */
  predicate Renderable(embedding: Row) {
    var rs := Get(embedding, "results", Null);
    Truthy(rs) ==>
      rs.List? && forall i :: 0 <= i < |rs.items| && i < TopMatches ==>
        rs.items[i].Dict? &&
        ("semantic_text" in rs.items[i].entries ==> rs.items[i].entries["semantic_text"].Str?)
  }

  /** The three context lines for the `n`-th semantic match. */
  function MatchParts(n: nat, result: Row, show: Renderers): (parts: seq<string>)
    requires "semantic_text" in result ==> result["semantic_text"].Str?
    ensures |parts| == 3
  {
    var text := Get(result, "semantic_text", Str("N/A"));
    [ "\n--- Match " + NatToString(n) + " (Score: " + show.fixed3(Get(result, "score", Int(0))) + ") ---",
      text.s,
      "Details: Flight " + show.str(Get(result, "flight_number", Null)) + ", "
        + show.str(Get(result, "origin", Null)) + " \U{2192} " + show.str(Get(result, "destination", Null))
        + ", Delay: " + show.str(Get(result, "delay", Null)) + "min, "
        + "Food: " + show.str(Get(result, "food_score", Null)) + "/5" ]
  }

  /** Decimal digits of a natural number. */
  function NatToString(n: nat): (s: string)
    ensures |s| > 0 && forall i :: 0 <= i < |s| ==> IsDigit(s[i])
  {
    var d := ['0', '1', '2', '3', '4', '5', '6', '7', '8', '9'][n % 10];
    if n < 10 then [d] else NatToString(n / 10) + [d]
  }

  /** The lines for matches `n`, `n+1`, ... drawn from `rs`. */
  function MatchesParts(n: nat, rs: seq<Value>, show: Renderers): (parts: seq<string>)
    requires forall i :: 0 <= i < |rs| ==>
               rs[i].Dict? && ("semantic_text" in rs[i].entries ==> rs[i].entries["semantic_text"].Str?)
    ensures |parts| == 3 * |rs|
    decreases |rs|
  {
    if |rs| == 0 then []
    else MatchParts(n, rs[0].entries, show) + MatchesParts(n + 1, rs[1..], show)
  }

  function Min(a: int, b: int): int { if a <= b then a else b }

  /** The lines of the context, before joining.  The structured block shows
      intent, entities and the results as JSON; the semantic block shows at
      most the first three matches. */
  function ContextParts(baseline: Row, embedding: Row, show: Renderers): (parts: seq<string>)
    requires Renderable(embedding)
    ensures var b := Truthy(Get(baseline, "results", Null));
            var e := Get(embedding, "results", Null);
            |parts| == (if b then 4 else 0)
                       + (if Truthy(e) then 1 + 3 * Min(|e.items|, TopMatches) else 0)
    ensures |parts| > 0 ==> parts[0] == StructuredHeader || parts[0] == SemanticHeader
  {
    var structured :=
      if Truthy(Get(baseline, "results", Null)) then
        [ StructuredHeader,
          "Intent: " + show.str(Get(baseline, "intent", Null)),
          "Entities: " + show.str(Get(baseline, "entities", Null)),
          "Results: " + show.dumps(baseline["results"]) ]
      else [];
    var rs := Get(embedding, "results", Null);
    var semantic :=
      if Truthy(rs) then
        var top := if |rs.items| <= TopMatches then rs.items else rs.items[..TopMatches];
        [SemanticHeader] + MatchesParts(1, top, show)
      else [];
    structured + semantic
  }

  /** `format_context`: the lines joined by newlines, or the no-data
      message when there are none; `None` stands for the exception
      Python raises on embedding results it cannot render. */
  function FormatContext(combined: Combined, show: Renderers): (context: Option<string>)
    ensures context.None? <==> !Renderable(combined.embedding)
  {
    if !Renderable(combined.embedding) then None
    else
      var parts := ContextParts(combined.baseline, combined.embedding, show);
      Some(if |parts| > 0 then Join(parts, "\n") else NoData)
  }

  lemma JoinStartsWithFirst(parts: seq<string>, sep: string)
    requires |parts| > 0
    ensures StartsWith(Join(parts, sep), parts[0])
  {
    if |parts| > 1 {
      assert Join(parts, sep) == parts[0] + (sep + Join(parts[1..], sep));
    }
  }

  /** The context is the no-data message exactly when neither method
      returned truthy results. */
  lemma NoDataIff(combined: Combined, show: Renderers)
    ensures FormatContext(combined, show) == Some(NoData) <==>
              !Truthy(Get(combined.baseline, "results", Null)) &&
              !Truthy(Get(combined.embedding, "results", Null))
  {
    if Renderable(combined.embedding) {
      var parts := ContextParts(combined.baseline, combined.embedding, show);
      if |parts| > 0 {
        JoinStartsWithFirst(parts, "\n");
        var r := Join(parts, "\n");
        assert r[0] == parts[0][0];
        assert parts[0][0] == '=' || parts[0][0] == '\n';
        assert NoData[0] == 'N';
      }
    }
  }

  // ---------------------------------------------------------------------
  // create_structured_prompt
  // ---------------------------------------------------------------------

  const DefaultPersona: string :=
    "You are an Airline Flight Insights Assistant working for the airline company.\n"
    + "Your role is to analyze flight data, passenger feedback, and operational metrics to provide\n"
    + "actionable insights for improving airline operations and customer satisfaction.\n"
    + "You speak professionally and focus on data-driven insights."

  const TaskIntro: string :=
    "Answer the following question using ONLY the provided information from the knowledge graph.\n"
    + "Do not make up information or hallucinate. If the data doesn't contain the answer, say so clearly.\n"
    + "\nQuestion: "

  const TaskOutro: string :=
    "\n\nProvide a clear, concise answer that:\n"
    + "1. Directly addresses the question\n"
    + "2. References specific data points from the context\n"
    + "3. Provides actionable insights when relevant\n"
    + "4. Uses a professional tone appropriate for airline management"

  const PersonaHeader: string := "### PERSONA\n"
  const ContextHeader: string := "\n\n### CONTEXT (Knowledge Graph Data)\n"
  const TaskHeader: string := "\n\n### TASK\n"
  const AnswerHeader: string := "\n\n### ANSWER\n"

  /** The persona used: the caller's when it is a non-empty string, else the
      default. */
  function PersonaOrDefault(persona: Option<string>): (p: string)
    ensures persona.Some? && |persona.value| > 0 ==> p == persona.value
    ensures persona.None? || persona.value == "" ==> p == DefaultPersona
  {
    if persona.Some? && |persona.value| > 0 then persona.value else DefaultPersona
  }

  /** The task section: the instructions around the user's question. */
  function Task(userQuery: string): (task: string)
    ensures |task| == |TaskIntro| + |userQuery| + |TaskOutro|
    ensures task[|TaskIntro|..|TaskIntro| + |userQuery|] == userQuery
  {
    Middle(TaskIntro, userQuery, TaskOutro);
    TaskIntro + userQuery + TaskOutro
  }

  /** `create_structured_prompt` */
  function StructuredPrompt(userQuery: string, context: string, persona: Option<string>): (prompt: string)
  {
    PersonaHeader + PersonaOrDefault(persona) + ContextHeader + context
      + TaskHeader + Task(userQuery) + AnswerHeader
  }

  /** The four section headers appear in order, each followed by its
      content: the persona, the context verbatim, the task holding the
      question verbatim, and finally the answer slot at the very end. */
  lemma PromptLayout(userQuery: string, context: string, persona: Option<string>)
    ensures var prompt := StructuredPrompt(userQuery, context, persona);
            var p := PersonaOrDefault(persona);
            var c := |PersonaHeader| + |p|;
            var t := c + |ContextHeader| + |context|;
            var q := t + |TaskHeader| + |TaskIntro|;
            var a := q + |userQuery| + |TaskOutro|;
            OccursAt(prompt, PersonaHeader, 0) &&
            prompt[|PersonaHeader|..c] == p &&
            OccursAt(prompt, ContextHeader, c) &&
            prompt[c + |ContextHeader|..t] == context &&
            OccursAt(prompt, TaskHeader, t) &&
            prompt[q..q + |userQuery|] == userQuery &&
            OccursAt(prompt, AnswerHeader, a) &&
            a + |AnswerHeader| == |prompt|
  {
    Sections(StructuredPrompt(userQuery, context, persona), PersonaHeader, PersonaOrDefault(persona),
             ContextHeader, context, TaskHeader, TaskIntro, userQuery, TaskOutro, AnswerHeader);
  }

  /** `PromptLayout` for any headers, persona and task text. */
  lemma Sections(prompt: string, h1: string, p: string, h2: string, c: string, h3: string,
                 intro: string, u: string, outro: string, h4: string)
    requires prompt == h1 + p + h2 + c + h3 + (intro + u + outro) + h4
    ensures var i := |h1| + |p|;
            var t := i + |h2| + |c|;
            var q := t + |h3| + |intro|;
            var a := q + |u| + |outro|;
            OccursAt(prompt, h1, 0) &&
            prompt[|h1|..i] == p &&
            OccursAt(prompt, h2, i) &&
            prompt[i + |h2|..t] == c &&
            OccursAt(prompt, h3, t) &&
            prompt[q..q + |u|] == u &&
            OccursAt(prompt, h4, a) &&
            a + |h4| == |prompt|
  {
    var task := intro + u + outro;
    Layout(h1, p, h2, c, h3, task, h4);
    Middle(intro, u, outro);
    var k := |h1| + |p| + |h2| + |c| + |h3|;
    assert prompt[k..k + |task|] == task;
    assert prompt[k + |intro|..k + |intro| + |u|] == task[|intro|..|intro| + |u|];
  }

  /** Where each part of a seven-part concatenation sits. */
  lemma Layout(h1: string, p: string, h2: string, c: string, h3: string, task: string, h4: string)
    ensures var s := h1 + p + h2 + c + h3 + task + h4;
            var i := |h1| + |p|;
            var t := i + |h2| + |c|;
            var k := t + |h3|;
            var a := k + |task|;
            s[..|h1|] == h1 && s[|h1|..i] == p && s[i..i + |h2|] == h2 &&
            s[i + |h2|..t] == c && s[t..k] == h3 && s[k..a] == task &&
            s[a..] == h4 && a + |h4| == |s|
  {
    Middle([], h1, p + h2 + c + h3 + task + h4);
    Middle(h1, p, h2 + c + h3 + task + h4);
    Middle(h1 + p, h2, c + h3 + task + h4);
    Middle(h1 + p + h2, c, h3 + task + h4);
    Middle(h1 + p + h2 + c, h3, task + h4);
    Middle(h1 + p + h2 + c + h3, task, h4);
    Middle(h1 + p + h2 + c + h3 + task, h4, []);
  }

  /** The middle part of a three-part concatenation. */
  lemma Middle(x: string, y: string, z: string)
    ensures x + y + z == x + (y + z)
    ensures (x + y + z)[|x|..|x| + |y|] == y
  {
    assert (x + y + z)[|x|..|x| + |y|] == (x + y)[|x|..];
  }
}

/** The query test runner: each question of the test file goes through the
    query pipeline, the query that ran is compared with the expected one,
    and the outcomes are summarised.  The pipeline stages it drives are
    parameters. */
module QueryTestRunner {
  import opened Wrappers
  import opened Values
  import opened QueryComparison
  import TenQParser

  // ---------------------------------------------------------------------
  // serialize_results
  // ---------------------------------------------------------------------

  /** `str(x)` on a value: opaque here. */
  type Show = Value -> string

  /** One value of a record made JSON-ready: a mapping-like driver object
      becomes a dictionary of its properties, any other object its `str`,
      and everything else (a dictionary is copied as is) stays. */
  function SerializeValue(v: Value, show: Show): (r: Value)
    ensures v.Node? ==> r == Dict(ToMap(v.props))
    ensures v.Object? ==> r == Str(show(v))
    ensures !v.Node? && !v.Object? ==> r == v
  {
    match v
    case Node(props) => Dict(ToMap(props))
    case Object(_) => Str(show(v))
    case _ => v
  }

  /** One record: a dictionary has each value serialised, anything else
      becomes its `str`. */
  function SerializeRecord(record: Value, show: Show): (r: Value)
    ensures record.Dict? ==> r.Dict? && r.entries.Keys == record.entries.Keys
    ensures record.Dict? ==> forall k :: k in r.entries ==>
              r.entries[k] == SerializeValue(record.entries[k], show)
    ensures !record.Dict? ==> r == Str(show(record))
  {
    match record
    case Dict(m) => Dict(map k | k in m :: SerializeValue(m[k], show))
    case _ => Str(show(record))
  }

  /** `serialize_results`: an error text is returned unchanged, any other
      non-list becomes its `str`, and a list has each record serialised. */
  function SerializeResults(results: Value, show: Show): (r: Value)
    ensures results.Str? ==> r == results
    ensures !results.Str? && !results.List? ==> r == Str(show(results))
    ensures results.List? ==> r.List? && |r.items| == |results.items|
    ensures results.List? ==>
              forall i :: 0 <= i < |r.items| ==> r.items[i] == SerializeRecord(results.items[i], show)
  {
    match results
    case Str(_) => results
    case List(records) => List(seq(|records|, i requires 0 <= i < |records| =>
                                     SerializeRecord(records[i], show)))
    case _ => Str(show(results))
  }

  /** A value with no driver object left at its top level. */
  predicate Plain(v: Value) {
    !v.Node? && !v.Object?
  }

  /** Serialised output: a text, or a list of texts and dictionaries whose
      values are plain. */
  predicate Serialized(r: Value) {
    r.Str? ||
    (r.List? && forall i :: 0 <= i < |r.items| ==>
       r.items[i].Str? ||
       (r.items[i].Dict? && forall k :: k in r.items[i].entries ==> Plain(r.items[i].entries[k])))
  }

  /** `str` of a text is the text itself. */
  ghost predicate ShowsTextAsIs(show: Show) {
    forall s: string :: show(Str(s)) == s
  }

  /** Every result is serialised output. */
  lemma SerializeResultsSerialized(results: Value, show: Show)
    ensures Serialized(SerializeResults(results, show))
  {}

  /** Serialising serialised output changes nothing. */
  lemma SerializeIdempotent(results: Value, show: Show)
    requires ShowsTextAsIs(show)
    ensures SerializeResults(SerializeResults(results, show), show) == SerializeResults(results, show)
  {
    var r := SerializeResults(results, show);
    SerializeResultsSerialized(results, show);
    SerializeSerialized(r, show);
  }

  lemma SerializeSerialized(r: Value, show: Show)
    requires ShowsTextAsIs(show) && Serialized(r)
    ensures SerializeResults(r, show) == r
  {
    if r.List? {
      var r' := SerializeResults(r, show);
      forall i | 0 <= i < |r.items|
        ensures r'.items[i] == r.items[i]
      {
        var x := r.items[i];
        if x.Dict? {
          assert SerializeRecord(x, show).entries == x.entries;
        } else {
          assert show(Str(x.s)) == x.s;
        }
      }
      assert r'.items == r.items;
    }
  }

  // ---------------------------------------------------------------------
  // run_all_tests: one question
  // ---------------------------------------------------------------------

  /** The intent key the preprocessor answers for a question it cannot
      place. */
  const UnknownIntent: string := "unknown"
  const UnknownIntentError: string := "Unknown intent"

  /** The threshold on pattern similarity for a clause match to pass. */
  const SimilarityThreshold: real := 0.7

  /** The preprocessing stage: intent, entities and parameters for a
      question, or the text of the exception it raised. */
  type Processor = string -> Result<(string, map<string, Value>, map<string, Value>)>

  /** The retrieval stage as the runner calls it: query results and the
      query that ran, or the text of the exception raised. */
  type Runner = (string, map<string, Value>) -> Result<(Value, Option<string>)>

  datatype Compared = Compared(comparison: Comparison) | NoExpectedQuery

  /** The record kept for one question. */
  datatype TestResult = TestResult(
    id: string,
    text: string,
    expected: string,
    actualQuery: Option<string>,
    intent: Option<string>,
    entities: Option<map<string, Value>>,
    parameters: Option<map<string, Value>>,
    queryResults: Option<Value>,
    resultCount: nat,
    comparison: Option<Compared>,
    success: bool,
    error: Option<string>)

  /** `{**entities, **parameters}`: the union, parameters winning. */
  function Combine(entities: map<string, Value>, parameters: map<string, Value>): (m: map<string, Value>)
    ensures m.Keys == entities.Keys + parameters.Keys
    ensures forall k :: k in parameters ==> m[k] == parameters[k]
    ensures forall k :: k in entities && k !in parameters ==> m[k] == entities[k]
  {
    entities + parameters
  }

  /** Whether a comparison passes: exact, or the same clauses and enough
      shared patterns. */
  predicate Passes(c: Comparison) {
    c.exactMatch || (c.clausesMatch && c.similarity >= SimilarityThreshold)
  }

  /** A non-empty text: Python truthiness of an optional string. */
  predicate Given(s: Option<string>) {
    s.Some? && s.value != ""
  }

  /** One iteration of `run_all_tests`. */
  function RunOne(q: TenQParser.Question, process: Processor, run: Runner,
                  round2: Rounder, show: Show): (r: TestResult)
    ensures r.id == q.id && r.text == q.text && r.expected == q.expected
  {
    var base := TestResult(q.id, q.text, q.expected, None, None, None, None, None, 0, None, false, None);
    match process(q.text)
    case Failure(e) => base.(error := Some(e))
    case Success((intent, entities, parameters)) =>
      var known := base.(intent := Some(intent), entities := Some(entities), parameters := Some(parameters));
      if intent == UnknownIntent then known.(error := Some(UnknownIntentError))
      else
        match run(intent, Combine(entities, parameters))
        case Failure(e) => known.(error := Some(e))
        case Success((results, actual)) =>
          var serialized := SerializeResults(results, show);
          var ran := known.(actualQuery := actual, queryResults := Some(serialized),
                            resultCount := if serialized.List? then |serialized.items| else 0);
          if q.expected != "" && Given(actual) then
            var c := CompareQueries(q.expected, actual.value, round2);
            ran.(comparison := Some(Compared(c)), success := Passes(c))
          else if Given(actual) then
            ran.(comparison := Some(NoExpectedQuery), success := true)
          else ran
  }

  /** When a question passes: the stages ran without error on a known
      intent, a query was reported, and it matches the expected one when
      there is one. */
  lemma RunOneSuccess(q: TenQParser.Question, process: Processor, run: Runner,
                      round2: Rounder, show: Show)
    ensures var r := RunOne(q, process, run, round2, show);
            r.success <==>
              process(q.text).Success? && process(q.text).value.0 != UnknownIntent &&
              (var (intent, entities, parameters) := process(q.text).value;
               var out := run(intent, Combine(entities, parameters));
               out.Success? && Given(out.value.1) &&
               (q.expected != "" ==> Passes(CompareQueries(q.expected, out.value.1.value, round2))))
  {}

  /** A passing question records no error, and an error always fails. */
  lemma SuccessMeansNoError(q: TenQParser.Question, process: Processor, run: Runner,
                            round2: Rounder, show: Show)
    ensures var r := RunOne(q, process, run, round2, show);
            (r.success ==> r.error.None?) && (r.error.Some? ==> !r.success)
  {}

  /** An unknown intent fails with "Unknown intent" and never reaches the
      retrieval stage: the outcome does not depend on it. */
  lemma UnknownIntentSkipsRunner(q: TenQParser.Question, process: Processor, run1: Runner,
                                 run2: Runner, round2: Rounder, show: Show)
    requires process(q.text).Success? && process(q.text).value.0 == UnknownIntent
    ensures RunOne(q, process, run1, round2, show) == RunOne(q, process, run2, round2, show)
    ensures RunOne(q, process, run1, round2, show).error == Some(UnknownIntentError)
    ensures !RunOne(q, process, run1, round2, show).success
  {}

  /** The result count is the number of rows when the stage returned a
      list, and 0 otherwise. */
  lemma ResultCount(q: TenQParser.Question, process: Processor, run: Runner,
                    round2: Rounder, show: Show)
    requires process(q.text).Success? && process(q.text).value.0 != UnknownIntent
    ensures var (intent, entities, parameters) := process(q.text).value;
            var out := run(intent, Combine(entities, parameters));
            var r := RunOne(q, process, run, round2, show);
            out.Success? ==>
              r.resultCount == (if out.value.0.List? then |out.value.0.items| else 0) &&
              r.actualQuery == out.value.1
  {}

  /** `run_all_tests`: one record per question, in order. */
  function RunAll(qs: seq<TenQParser.Question>, process: Processor, run: Runner,
                  round2: Rounder, show: Show): (rs: seq<TestResult>)
    ensures |rs| == |qs|
    ensures forall i :: 0 <= i < |qs| ==> rs[i] == RunOne(qs[i], process, run, round2, show)
  {
    seq(|qs|, i requires 0 <= i < |qs| => RunOne(qs[i], process, run, round2, show))
  }

  // ---------------------------------------------------------------------
  // generate_summary
  // ---------------------------------------------------------------------

  /** Per-intent tallies. */
  datatype IntentTally = IntentTally(intent: string, total: nat, success: nat)

  /** The failed question as listed: id, text and error. */
  datatype FailedEntry = FailedQuery(id: string, text: string, error: Option<string>)

  datatype Summary = Summary(
    total: nat,
    successful: nat,
    failed: int,
    successRate: real,
    byIntent: seq<IntentTally>,
    errorCount: nat,
    failedQueries: seq<FailedEntry>)

  /** The intent a result is filed under: its intent, or "unknown" when it
      has none. */
  function IntentKey(r: TestResult): (k: string)
    ensures k != ""
  {
    if Given(r.intent) then r.intent.value else UnknownIntent
  }

  function Successes(rs: seq<TestResult>): (n: nat)
    ensures n <= |rs|
    decreases |rs|
  {
    if |rs| == 0 then 0
    else Successes(rs[..|rs| - 1]) + (if rs[|rs| - 1].success then 1 else 0)
  }

  function Errors(rs: seq<TestResult>): (n: nat)
    ensures n <= |rs|
    decreases |rs|
  {
    if |rs| == 0 then 0
    else Errors(rs[..|rs| - 1]) + (if Given(rs[|rs| - 1].error) then 1 else 0)
  }

  /** The failed questions, in order. */
  function Failures(rs: seq<TestResult>): (fs: seq<FailedEntry>)
    decreases |rs|
  {
    if |rs| == 0 then []
    else
      var r := rs[|rs| - 1];
      Failures(rs[..|rs| - 1]) + (if r.success then [] else [FailedQuery(r.id, r.text, r.error)])
  }

  /** Add one result to the tallies: bump the tally of its intent, or add a
      new one at the end. */
  function Tally(ts: seq<IntentTally>, key: string, ok: bool): (ts': seq<IntentTally>)
    decreases |ts|
  {
    if |ts| == 0 then [IntentTally(key, 1, if ok then 1 else 0)]
    else if ts[0].intent == key then
      [IntentTally(key, ts[0].total + 1, ts[0].success + (if ok then 1 else 0))] + ts[1..]
    else [ts[0]] + Tally(ts[1..], key, ok)
  }

  /** The tallies of `rs`, in order of each intent's first appearance. */
  function ByIntent(rs: seq<TestResult>): seq<IntentTally>
    decreases |rs|
  {
    if |rs| == 0 then []
    else Tally(ByIntent(rs[..|rs| - 1]), IntentKey(rs[|rs| - 1]), rs[|rs| - 1].success)
  }

  /** `generate_summary`. */
  function GenerateSummary(rs: seq<TestResult>, round2: Rounder): (s: Summary)
    ensures s.total == |rs| && s.successful == Successes(rs)
    ensures s.failed == s.total - s.successful && s.failed >= 0
    ensures |rs| == 0 ==> s.successRate == 0.0
    ensures s.byIntent == ByIntent(rs) && s.errorCount == Errors(rs)
    ensures s.failedQueries == Failures(rs)
  {
    var total := |rs|;
    var ok := Successes(rs);
    Summary(total, ok, total - ok,
            if total > 0 then round2((ok as real) / (total as real) * 100.0) else 0.0,
            ByIntent(rs), Errors(rs), Failures(rs))
  }

  // ----- what the summary's parts mean -----

  /** The number of results filed under `key`, and how many of them passed. */
  function CountOf(rs: seq<TestResult>, key: string): (n: nat)
    decreases |rs|
  {
    if |rs| == 0 then 0
    else CountOf(rs[..|rs| - 1], key) + (if IntentKey(rs[|rs| - 1]) == key then 1 else 0)
  }

  function SuccessesOf(rs: seq<TestResult>, key: string): (n: nat)
    ensures n <= CountOf(rs, key)
    decreases |rs|
  {
    if |rs| == 0 then 0
    else SuccessesOf(rs[..|rs| - 1], key) +
         (if IntentKey(rs[|rs| - 1]) == key && rs[|rs| - 1].success then 1 else 0)
  }

  /** The tallies name distinct intents. */
  predicate DistinctIntents(ts: seq<IntentTally>) {
    forall i, j :: 0 <= i < j < |ts| ==> ts[i].intent != ts[j].intent
  }

  /** The first tally for `key`. */
  function TallyFor(ts: seq<IntentTally>, key: string): (t: Option<IntentTally>)
    ensures t.Some? ==> t.value.intent == key
    decreases |ts|
  {
    if |ts| == 0 then None
    else if ts[0].intent == key then Some(ts[0])
    else TallyFor(ts[1..], key)
  }

  /** No tally is found for an intent exactly when no tally names it. */
  lemma {:induction false} TallyForNone(ts: seq<IntentTally>, key: string)
    ensures TallyFor(ts, key).None? <==> forall i :: 0 <= i < |ts| ==> ts[i].intent != key
    decreases |ts|
  {
    if |ts| > 0 {
      TallyForNone(ts[1..], key);
      assert forall i :: 1 <= i < |ts| ==> ts[i] == ts[1..][i - 1];
    }
  }

  function TotalOf(ts: seq<IntentTally>): nat
    decreases |ts|
  {
    if |ts| == 0 then 0 else ts[0].total + TotalOf(ts[1..])
  }

  function SuccessOf(ts: seq<IntentTally>): nat
    decreases |ts|
  {
    if |ts| == 0 then 0 else ts[0].success + SuccessOf(ts[1..])
  }

  function Bump(t: Option<IntentTally>, key: string, ok: bool): IntentTally {
    var b := if ok then 1 else 0;
    match t
    case None => IntentTally(key, 1, b)
    case Some(x) => IntentTally(key, x.total + 1, x.success + b)
  }

  /** Tallying a result bumps the tally of its intent and leaves the
      others alone. */
  lemma {:induction false} TallyFinds(ts: seq<IntentTally>, key: string, ok: bool, k: string)
    ensures TallyFor(Tally(ts, key, ok), k) ==
            (if k == key then Some(Bump(TallyFor(ts, key), key, ok)) else TallyFor(ts, k))
    decreases |ts|
  {
    if |ts| > 0 && ts[0].intent != key {
      TallyFinds(ts[1..], key, ok, k);
      assert Tally(ts, key, ok)[1..] == Tally(ts[1..], key, ok);
    } else if |ts| > 0 {
      assert Tally(ts, key, ok)[1..] == ts[1..];
    }
  }

  /** Tallying keeps the intents distinct and adds one to the totals. */
  lemma {:induction false} TallySums(ts: seq<IntentTally>, key: string, ok: bool)
    requires DistinctIntents(ts)
    ensures DistinctIntents(Tally(ts, key, ok))
    ensures TotalOf(Tally(ts, key, ok)) == TotalOf(ts) + 1
    ensures SuccessOf(Tally(ts, key, ok)) == SuccessOf(ts) + (if ok then 1 else 0)
    decreases |ts|
  {
    var ts' := Tally(ts, key, ok);
    if |ts| > 0 && ts[0].intent != key {
      TallySums(ts[1..], key, ok);
      assert ts'[1..] == Tally(ts[1..], key, ok);
      forall j | 1 <= j < |ts'|
        ensures ts'[j].intent != ts[0].intent
      {
        TallyFinds(ts[1..], key, ok, ts[0].intent);
        TallyForNone(ts[1..], ts[0].intent);
        TallyForNone(Tally(ts[1..], key, ok), ts[0].intent);
        assert TallyFor(ts[1..], ts[0].intent).None?;
        assert ts'[1..][j - 1] == ts'[j];
      }
    } else if |ts| > 0 {
      assert ts'[1..] == ts[1..];
    }
  }

  /** The tallies of the results name distinct intents, their totals add
      up to the number of results, and their successes to the successes. */
  lemma {:induction false} ByIntentSums(rs: seq<TestResult>)
    ensures DistinctIntents(ByIntent(rs))
    ensures TotalOf(ByIntent(rs)) == |rs| && SuccessOf(ByIntent(rs)) == Successes(rs)
    decreases |rs|
  {
    if |rs| > 0 {
      var init := rs[..|rs| - 1];
      ByIntentSums(init);
      TallySums(ByIntent(init), IntentKey(rs[|rs| - 1]), rs[|rs| - 1].success);
    }
  }

  /** The tally for an intent counts exactly the results filed under it,
      and there is none for an intent no result is filed under. */
  lemma {:induction false} ByIntentCounts(rs: seq<TestResult>, k: string)
    ensures TallyFor(ByIntent(rs), k) ==
            (if CountOf(rs, k) > 0 then Some(IntentTally(k, CountOf(rs, k), SuccessesOf(rs, k))) else None)
    decreases |rs|
  {
    if |rs| > 0 {
      var init := rs[..|rs| - 1];
      var r := rs[|rs| - 1];
      var key := IntentKey(r);
      var before := ByIntent(init);
      var after := Tally(before, key, r.success);
      ByIntentCounts(init, k);
      assert ByIntent(rs) == after;
      var c, n := CountOf(init, k), SuccessesOf(init, k);
      TallyStep(before, key, r.success, k, c, n);
      CountStep(rs, k);
      CountsAgree(TallyFor(before, k), TallyFor(after, k), key, r.success, k, c, n, CountOf(rs, k), SuccessesOf(rs, k));
    }
  }

  lemma CountsAgree(t: Option<IntentTally>, t': Option<IntentTally>, key: string, ok: bool, k: string,
                    c: nat, n: nat, c': nat, n': nat)
    requires t == (if c > 0 then Some(IntentTally(k, c, n)) else None)
    requires t' == (if key == k then Some(IntentTally(k, c + 1, n + (if ok then 1 else 0))) else t)
    requires c' == c + (if key == k then 1 else 0) && n' == n + (if key == k && ok then 1 else 0)
    ensures t' == (if c' > 0 then Some(IntentTally(k, c', n')) else None)
  {}

  /** One more result under `key`, seen from the tally for `k`. */
  lemma TallyStep(ts: seq<IntentTally>, key: string, ok: bool, k: string, c: nat, s: nat)
    requires s <= c && TallyFor(ts, k) == (if c > 0 then Some(IntentTally(k, c, s)) else None)
    ensures TallyFor(Tally(ts, key, ok), k) ==
            (if key == k then Some(IntentTally(k, c + 1, s + (if ok then 1 else 0))) else TallyFor(ts, k))
  {
    TallyFinds(ts, key, ok, k);
    if key == k {
      BumpCounts(TallyFor(ts, k), k, ok, c, s);
    }
  }

  /** Bumping the tally of `c` results, `s` of them successful. */
  lemma BumpCounts(t: Option<IntentTally>, k: string, ok: bool, c: nat, s: nat)
    requires s <= c && t == (if c > 0 then Some(IntentTally(k, c, s)) else None)
    ensures Bump(t, k, ok) == IntentTally(k, c + 1, s + (if ok then 1 else 0))
  {}

  lemma CountStep(rs: seq<TestResult>, k: string)
    requires |rs| > 0
    ensures var r := rs[|rs| - 1];
            CountOf(rs, k) == CountOf(rs[..|rs| - 1], k) + (if IntentKey(r) == k then 1 else 0) &&
            SuccessesOf(rs, k) == SuccessesOf(rs[..|rs| - 1], k) + (if IntentKey(r) == k && r.success then 1 else 0)
  {}

  /** The failed list holds exactly the results that did not pass, in
      order, and the failed count is its length. */
  lemma {:induction false} FailuresCount(rs: seq<TestResult>)
    ensures |Failures(rs)| == |rs| - Successes(rs)
    ensures |Failures(rs)| == GenerateSummary(rs, x => x).failed
    decreases |rs|
  {
    if |rs| > 0 {
      FailuresCount(rs[..|rs| - 1]);
    }
  }

  /** Each failure names an unsuccessful result, and each unsuccessful
      result is listed. */
  lemma {:induction false} FailuresAreUnsuccessful(rs: seq<TestResult>)
    ensures forall f :: f in Failures(rs) <==>
              exists i :: 0 <= i < |rs| && !rs[i].success && f == FailedQuery(rs[i].id, rs[i].text, rs[i].error)
    decreases |rs|
  {
    if |rs| > 0 {
      var init := rs[..|rs| - 1];
      FailuresAreUnsuccessful(init);
      forall f
        ensures f in Failures(rs) <==>
                exists i :: 0 <= i < |rs| && !rs[i].success && f == FailedQuery(rs[i].id, rs[i].text, rs[i].error)
      {
        if f in Failures(init) {
          var i :| 0 <= i < |init| && !init[i].success && f == FailedQuery(init[i].id, init[i].text, init[i].error);
          assert rs[i] == init[i];
        }
        if i :| 0 <= i < |rs| && !rs[i].success && f == FailedQuery(rs[i].id, rs[i].text, rs[i].error) {
          if i < |init| {
            assert rs[i] == init[i];
          }
        }
      }
    }
  }
}

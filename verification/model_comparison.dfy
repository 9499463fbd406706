/** The multi-model comparison: expected outcomes are loaded from an earlier
    query test run, each model's answer is checked against them, and the
    attempts are aggregated per model.  Timing and the model calls are
    outside the model; attempts arrive as data. */
module ModelComparison {
  import opened Wrappers
  import opened Text
  import opened Values
  import opened SetFacts

  // ---------------------------------------------------------------------
  // load_expected_results
  // ---------------------------------------------------------------------

  /** What is kept of one earlier test result. */
  datatype Expected = Expected(
    questionId: Value,
    intent: Value,
    success: Value,
    queryResults: Value,
    resultCount: Value)

  /** The items a `for` loop visits in the stored `results` value, or
      `None` when visiting them (or calling `.get` on one) raises: only a
      list can hold records, and an empty text or dictionary is visited
      without error. */
  function ResultItems(v: Value): (items: Option<seq<Value>>)
    ensures v.List? ==> items == Some(v.items)
  {
    match v
    case List(xs) => Some(xs)
    case Str(s) => if s == "" then Some([]) else None
    case Dict(m) => if |m| == 0 then Some([]) else None
    case _ => None
  }

  /** One record's entry: its stripped question text (`""` to skip it) and
      the expected outcome, or `None` when reading it raises. */
  function Entry(record: Value): (e: Option<(string, Expected)>)
    ensures e.Some? ==> record.Dict? && IsStripped(e.value.0)
  {
    match record
    case Dict(m) =>
      var q := Get(m, "question_text", Str(""));
      if !q.Str? then None
      else
        StripIdempotent(q.s);
        StripOfStrippedIsStripped(q.s);
        Some((Strip(q.s), Expected(Get(m, "question_id", Null), Get(m, "intent", Null),
                                   Get(m, "success", Bool(false)),
                                   Get(m, "query_results", List([])),
                                   Get(m, "result_count", Int(0)))))
    case _ => None
  }

  lemma StripOfStrippedIsStripped(s: string)
    ensures IsStripped(Strip(s))
  {}

  /** The entries of `items` in order, or `None` if any of them raises. */
  function Entries(items: seq<Value>): (es: Option<seq<(string, Expected)>>)
    ensures es.Some? ==> |es.value| == |items|
    ensures es.Some? ==> forall i :: 0 <= i < |items| ==> Entry(items[i]) == Some(es.value[i])
    decreases |items|
  {
    if |items| == 0 then Some([])
    else
      var init := Entries(items[..|items| - 1]);
      var last := Entry(items[|items| - 1]);
      if init.None? || last.None? then None
      else
        EntriesStep(Entry, items, init.value, last.value);
        Some(init.value + [last.value])
  }

  /** Extending a list of per-item results by the last item's result. */
  lemma EntriesStep<A, B>(f: A -> Option<B>, items: seq<A>, init: seq<B>, last: B)
    requires |items| > 0 && |init| == |items| - 1
    requires forall i :: 0 <= i < |init| ==> f(items[..|items| - 1][i]) == Some(init[i])
    requires f(items[|items| - 1]) == Some(last)
    ensures forall i :: 0 <= i < |items| ==> f(items[i]) == Some((init + [last])[i])
  {
    forall i | 0 <= i < |items|
      ensures f(items[i]) == Some((init + [last])[i])
    {
      if i < |init| {
        assert items[..|items| - 1][i] == items[i];
      }
    }
  }

  /** A record that raises makes the whole list raise. */
  lemma {:induction false} EntriesFail(items: seq<Value>, i: int)
    requires 0 <= i < |items| && Entry(items[i]).None?
    ensures Entries(items).None?
    decreases |items|
  {
    if i < |items| - 1 {
      EntriesFail(items[..|items| - 1], i);
    }
  }

  /** Entries with a question, later ones overwriting earlier ones. */
  function Table(es: seq<(string, Expected)>): map<string, Expected>
    decreases |es|
  {
    if |es| == 0 then map[]
    else
      var t := Table(es[..|es| - 1]);
      var (q, e) := es[|es| - 1];
      if q != "" then t[q := e] else t
  }

  /** `load_expected_results`: `data` is the parsed file, or `None` when it
      could not be opened or parsed; any failure leaves the table empty. */
  function LoadExpected(data: Option<Value>): (table: map<string, Expected>)
    ensures data.None? ==> table == map[]
    ensures "" !in table
  {
    var loaded :=
      if data.None? || !data.value.Dict? then None
      else
        var items := ResultItems(Get(data.value.entries, "results", List([])));
        if items.None? then None else Entries(items.value);
    match loaded
    case None => map[]
    case Some(es) => TableKeys(es); Table(es)
  }

  /** The table holds exactly the non-empty questions, each with the last
      entry given for it. */
  lemma {:induction false} TableLastWins(es: seq<(string, Expected)>, q: string)
    ensures q in Table(es) <==> q != "" && LastIndexOf(es, q) >= 0
    ensures q in Table(es) ==> Table(es)[q] == es[LastIndexOf(es, q)].1
    decreases |es|
  {
    if |es| > 0 {
      TableLastWins(es[..|es| - 1], q);
    }
  }

  lemma {:induction false} TableKeys(es: seq<(string, Expected)>)
    ensures "" !in Table(es)
    decreases |es|
  {
    if |es| > 0 {
      TableKeys(es[..|es| - 1]);
    }
  }

  /** When the file loads, the table is keyed by the stripped question of
      each record that has one, bound to the last such record. */
  lemma LoadedTable(data: Value, q: string)
    requires data.Dict?
    requires var items := ResultItems(Get(data.entries, "results", List([])));
             items.Some? && Entries(items.value).Some?
    ensures var es := Entries(ResultItems(Get(data.entries, "results", List([]))).value).value;
            LoadExpected(Some(data)) == Table(es) &&
            (q in LoadExpected(Some(data)) <==> q != "" && LastIndexOf(es, q) >= 0)
  {
    var es := Entries(ResultItems(Get(data.entries, "results", List([]))).value).value;
    LoadedIsTable(data);
    TableLastWins(es, q);
  }

  lemma LoadedIsTable(data: Value)
    requires data.Dict?
    requires var items := ResultItems(Get(data.entries, "results", List([])));
             items.Some? && Entries(items.value).Some?
    ensures LoadExpected(Some(data)) ==
            Table(Entries(ResultItems(Get(data.entries, "results", List([]))).value).value)
  {}

  /** A record that is not a dictionary makes the whole load fail. */
  lemma BadRecordEmptiesTable(data: Value, i: int)
    requires data.Dict? && Get(data.entries, "results", List([])).List?
    requires var items := Get(data.entries, "results", List([])).items;
             0 <= i < |items| && !items[i].Dict?
    ensures LoadExpected(Some(data)) == map[]
  {
    var items := Get(data.entries, "results", List([])).items;
    EntriesFail(items, i);
  }

  // ---------------------------------------------------------------------
  // compare_with_expected
  // ---------------------------------------------------------------------

  /** The numeric value of a number (a `bool` counts as 0 or 1), or `None`
      for any other value. */
  function Number(v: Value): (n: Option<real>)
    ensures v.Int? ==> n == Some(v.i as real)
  {
    match v
    case Int(i) => Some(i as real)
    case Float(r) => Some(r)
    case Bool(b) => Some(if b then 1.0 else 0.0)
    case _ => None
  }

  function Abs(x: real): real { if x < 0.0 then -x else x }

  /** The check of one answer against the table. */
  datatype Check =
    | NoExpected
    | Checked(
        matches: bool,
        expectedIntent: Value,
        actualIntent: Value,
        intentMatch: bool,
        expectedCount: Value,
        actualCount: nat,
        countMatch: bool,
        expectedSuccess: Value)

  /** `compare_with_expected` on the handler's result dictionary; `Failure`
      where Python raises (the baseline part is not a dictionary, or a
      non-numeric expected count reaches the subtraction). */
  function CompareWithExpected(table: map<string, Expected>, query: string,
                               result: map<string, Value>): (c: Result<Check>)
    ensures Strip(query) !in table ==> c == Success(NoExpected)
    ensures c.Failure? <==>
              Strip(query) in table &&
              var baseline := Get(result, "baseline_results", Dict(map[]));
              (!baseline.Dict? ||
               (Get(baseline.entries, "intent", Null) == table[Strip(query)].intent &&
                Number(table[Strip(query)].resultCount).None?))
  {
    if Strip(query) !in table then Success(NoExpected)
    else
      var expected := table[Strip(query)];
      var baseline := Get(result, "baseline_results", Dict(map[]));
      if !baseline.Dict? then Failure("'baseline_results' is not a dictionary")
      else
        var actualIntent := Get(baseline.entries, "intent", Null);
        var rows := Get(baseline.entries, "results", List([]));
        var count: nat := if rows.List? then |rows.items| else 0;
        var intentMatch := actualIntent == expected.intent;
        var countMatch := Number(expected.resultCount) == Some(count as real);
        if intentMatch && !countMatch && Number(expected.resultCount).None? then
          Failure("unsupported operand type for -")
        else
          var matches := intentMatch &&
            (countMatch || Abs(count as real - Number(expected.resultCount).value) <= 2.0) &&
            count > 0;
          Success(Checked(matches, expected.intent, actualIntent, intentMatch,
                          expected.resultCount, count, countMatch, expected.success))
  }

  /** The check's parts, as promised: the intents match iff equal, the
      counts match iff equal, the actual count is the number of baseline
      rows (0 when they are not a list), and the answer matches iff the
      intents are equal, some row came back and the expected count is a
      number within two of the actual count. */
  lemma CheckMeaning(table: map<string, Expected>, query: string, result: map<string, Value>)
    requires Strip(query) in table
    requires CompareWithExpected(table, query, result).Success?
    ensures var expected := table[Strip(query)];
            var baseline := Get(result, "baseline_results", Dict(map[])).entries;
            var rows := Get(baseline, "results", List([]));
            var c := CompareWithExpected(table, query, result).value;
            c.Checked? &&
            c.actualCount == (if rows.List? then |rows.items| else 0) &&
            (c.intentMatch <==> Get(baseline, "intent", Null) == expected.intent) &&
            (c.countMatch <==> Number(expected.resultCount) == Some(c.actualCount as real)) &&
            (c.matches <==> c.intentMatch && c.actualCount > 0 && Number(expected.resultCount).Some? &&
                            c.actualCount as real - 2.0 <= Number(expected.resultCount).value
                                                        <= c.actualCount as real + 2.0)
  {}

  // ---------------------------------------------------------------------
  // generate_summary
  // ---------------------------------------------------------------------

  /** One model's attempt at one query: the response time is `None` when
      the call failed. */
  datatype Attempt = Attempt(responseTime: Option<real>, wordCount: int, correct: Value, hasExpected: Value)

  /** One query run across several models. */
  datatype QueryRun = QueryRun(models: map<string, Attempt>)

  datatype ModelStats = ModelStats(
    timedQueries: nat,
    successRate: real,
    accuracy: real,
    correctCount: nat,
    queriesWithExpected: nat,
    avgResponseTime: real,
    avgWordCount: real,
    minResponseTime: real,
    maxResponseTime: real)

  datatype Summary =
    | NoResults
    | Summary(totalQueries: nat, models: map<string, ModelStats>)

  /** Whether a run holds an attempt by `model`. */
  function Names(model: string): QueryRun -> bool {
    (r: QueryRun) => model in r.models
  }

  /** The attempts of `model`, in query order: one per run that names the
      model (AttemptsCover and AttemptsFrom say which). */
  function AttemptsOf(runs: seq<QueryRun>, model: string): (a: seq<Attempt>)
    ensures |a| <= |runs|
    ensures |a| == |Indices(runs, Names(model))|
    decreases |runs|
  {
    if |runs| == 0 then
      assert Indices(runs, Names(model)) == {};
      []
    else
      var n := |runs| - 1;
      var last := runs[n];
      IndicesStep(runs, Names(model));
      assert Names(model)(last) == (model in last.models);
      AttemptsOf(runs[..n], model) + (if model in last.models then [last.models[model]] else [])
  }

  /** Each run naming `model` contributes its attempt to the model's
      attempts. */
  lemma {:induction false} AttemptsCover(runs: seq<QueryRun>, model: string)
    ensures forall i :: 0 <= i < |runs| && model in runs[i].models ==>
              runs[i].models[model] in AttemptsOf(runs, model)
    decreases |runs|
  {
    if |runs| > 0 {
      var n := |runs| - 1;
      var init := runs[..n];
      AttemptsCover(init, model);
      var a0 := AttemptsOf(init, model);
      var a := AttemptsOf(runs, model);
      assert a == a0 + (if model in runs[n].models then [runs[n].models[model]] else []);
      forall i | 0 <= i < |runs| && model in runs[i].models
        ensures runs[i].models[model] in a
      {
        if i < n {
          assert init[i] == runs[i];
          assert runs[i].models[model] in a0;
        }
      }
    }
  }

  /** Every attempt of `model` is the attempt some run holds for it. */
  lemma {:induction false} AttemptsFrom(runs: seq<QueryRun>, model: string)
    ensures forall k :: 0 <= k < |AttemptsOf(runs, model)| ==>
              exists i :: 0 <= i < |runs| && model in runs[i].models &&
                          AttemptsOf(runs, model)[k] == runs[i].models[model]
    decreases |runs|
  {
    if |runs| == 0 {
      assert AttemptsOf(runs, model) == [];
    } else {
      var n := |runs| - 1;
      var init := runs[..n];
      AttemptsFrom(init, model);
      var a0 := AttemptsOf(init, model);
      var a := AttemptsOf(runs, model);
      assert a == a0 + (if model in runs[n].models then [runs[n].models[model]] else []);
      forall k | 0 <= k < |a|
        ensures exists i :: 0 <= i < |runs| && model in runs[i].models &&
                            AttemptsOf(runs, model)[k] == runs[i].models[model]
      {
        if k < |a0| {
          assert a[k] == a0[k];
          var i :| 0 <= i < |init| && model in init[i].models && AttemptsOf(init, model)[k] == init[i].models[model];
          assert runs[i] == init[i];
        } else {
          assert a[k] == runs[n].models[model];
        }
      }
    }
  }

  /** Whether an attempt has a response time. */
  predicate IsTimed(x: Attempt) { x.responseTime.Some? }

  /** The attempts that have a response time, one per timed position
      (TimedHeld says which). */
  function Timed(a: seq<Attempt>): (t: seq<Attempt>)
    ensures |t| <= |a|
    ensures |t| == |Indices(a, IsTimed)|
    ensures forall i :: 0 <= i < |t| ==> t[i].responseTime.Some?
    decreases |a|
  {
    if |a| == 0 then
      assert Indices(a, IsTimed) == {};
      []
    else
      var n := |a| - 1;
      IndicesStep(a, IsTimed);
      assert forall i :: 0 <= i < n ==> a[..n][i] == a[i];
      Timed(a[..n]) + (if a[n].responseTime.Some? then [a[n]] else [])
  }

  /** The timed attempts are exactly the attempts of `a` with a response
      time: each of those is kept, and nothing else is. */
  lemma {:induction false} TimedHeld(a: seq<Attempt>)
    ensures forall i :: 0 <= i < |a| && a[i].responseTime.Some? ==> a[i] in Timed(a)
    ensures forall x :: x in Timed(a) ==> x in a
    decreases |a|
  {
    if |a| > 0 {
      var n := |a| - 1;
      TimedHeld(a[..n]);
      assert forall i :: 0 <= i < n ==> a[..n][i] == a[i];
      assert forall x :: x in a[..n] ==> x in a;
    }
  }

  function Times(t: seq<Attempt>): (ts: seq<real>)
    requires forall i :: 0 <= i < |t| ==> t[i].responseTime.Some?
    ensures |ts| == |t|
  {
    seq(|t|, i requires 0 <= i < |t| => t[i].responseTime.value)
  }

  function Sum(xs: seq<real>): real
    decreases |xs|
  {
    if |xs| == 0 then 0.0 else Sum(xs[..|xs| - 1]) + xs[|xs| - 1]
  }

  /** Python's `min`: an element no larger than any other. */
  function MinOf(xs: seq<real>): (m: real)
    requires |xs| > 0
    ensures m in xs
    ensures forall i :: 0 <= i < |xs| ==> m <= xs[i]
    decreases |xs|
  {
    if |xs| == 1 then xs[0]
    else
      var m := MinOf(xs[..|xs| - 1]);
      assert forall i :: 0 <= i < |xs| - 1 ==> xs[..|xs| - 1][i] == xs[i];
      if xs[|xs| - 1] < m then xs[|xs| - 1] else m
  }

  /** Python's `max`: an element no smaller than any other. */
  function MaxOf(xs: seq<real>): (m: real)
    requires |xs| > 0
    ensures m in xs
    ensures forall i :: 0 <= i < |xs| ==> xs[i] <= m
    decreases |xs|
  {
    if |xs| == 1 then xs[0]
    else
      var m := MaxOf(xs[..|xs| - 1]);
      assert forall i :: 0 <= i < |xs| - 1 ==> xs[..|xs| - 1][i] == xs[i];
      if xs[|xs| - 1] > m then xs[|xs| - 1] else m
  }

  function Words(t: seq<Attempt>): (ws: seq<real>)
    ensures |ws| == |t|
  {
    seq(|t|, i requires 0 <= i < |t| => t[i].wordCount as real)
  }

  /** An attempt judged correct, and one whose question had an expected
      result: `d.get("correct", False)` and the `has_expected` flag. */
  predicate Correct(x: Attempt) { Truthy(x.correct) }

  predicate HasExpected(x: Attempt) { Truthy(x.hasExpected) }

  /** How many attempts have a truthy `correct`, and a truthy
      `has_expected`. */
  function CorrectCount(a: seq<Attempt>): (n: nat)
    ensures n <= |a|
    ensures n == |Indices(a, Correct)|
    decreases |a|
  {
    if |a| == 0 then
      assert Indices(a, Correct) == {};
      0
    else
      IndicesStep(a, Correct);
      CorrectCount(a[..|a| - 1]) + (if Truthy(a[|a| - 1].correct) then 1 else 0)
  }

  function WithExpected(a: seq<Attempt>): (n: nat)
    ensures n <= |a|
    ensures n == |Indices(a, HasExpected)|
    decreases |a|
  {
    if |a| == 0 then
      assert Indices(a, HasExpected) == {};
      0
    else
      IndicesStep(a, HasExpected);
      WithExpected(a[..|a| - 1]) + (if Truthy(a[|a| - 1].hasExpected) then 1 else 0)
  }

  /** Every model named in some run. */
  function AllModels(runs: seq<QueryRun>): set<string> {
    set i, k | 0 <= i < |runs| && k in runs[i].models :: k
  }

  /** The statistics of one model with at least one timed attempt. */
  function Stats(runs: seq<QueryRun>, model: string): (s: ModelStats)
    requires |Timed(AttemptsOf(runs, model))| > 0
  {
    var all := AttemptsOf(runs, model);
    var timed := Timed(all);
    var n := |timed| as real;
    var times := Times(timed);
    ModelStats(|timed|, n / (|runs| as real),
               (CorrectCount(all) as real) / (|all| as real),
               CorrectCount(all), WithExpected(all),
               Sum(times) / n, Sum(Words(timed)) / n, MinOf(times), MaxOf(times))
  }

  /** `generate_summary` over the stored runs. */
  function GenerateSummary(runs: seq<QueryRun>): (s: Summary)
    ensures |runs| == 0 <==> s.NoResults?
    ensures s.Summary? ==> s.totalQueries == |runs|
    ensures s.Summary? ==> forall m :: m in s.models <==>
              m in AllModels(runs) && |Timed(AttemptsOf(runs, m))| > 0
  {
    if |runs| == 0 then NoResults
    else
      Summary(|runs|, map m | m in AllModels(runs) && |Timed(AttemptsOf(runs, m))| > 0 :: Stats(runs, m))
  }

  // ----- what the statistics mean -----

  /** A model has attempts iff some run names it. */
  lemma {:induction false} AttemptsIff(runs: seq<QueryRun>, m: string)
    ensures |AttemptsOf(runs, m)| > 0 <==> m in AllModels(runs)
    decreases |runs|
  {
    if |runs| > 0 {
      var init := runs[..|runs| - 1];
      AttemptsIff(init, m);
      if m in AllModels(init) {
        var i, k :| 0 <= i < |init| && k in init[i].models && k == m;
        assert runs[i] == init[i];
      }
      if m in AllModels(runs) {
        var i, k :| 0 <= i < |runs| && k in runs[i].models && k == m;
        if i < |init| {
          assert init[i] == runs[i];
        }
      }
    }
  }

  /** A model is summarised exactly when one of its attempts was timed. */
  lemma SummarisedIff(runs: seq<QueryRun>, m: string)
    requires |runs| > 0
    ensures m in GenerateSummary(runs).models <==> |Timed(AttemptsOf(runs, m))| > 0
  {
    AttemptsIff(runs, m);
  }

  /** The mean of a non-empty list lies between its least and greatest
      element. */
  lemma {:induction false} SumBounds(xs: seq<real>, lo: real, hi: real)
    requires forall i :: 0 <= i < |xs| ==> lo <= xs[i] <= hi
    ensures (|xs| as real) * lo <= Sum(xs) <= (|xs| as real) * hi
    decreases |xs|
  {
    if |xs| > 0 {
      var init := xs[..|xs| - 1];
      assert forall i :: 0 <= i < |init| ==> init[i] == xs[i];
      SumBounds(init, lo, hi);
      var k := |init| as real;
      assert Sum(xs) == Sum(init) + xs[|xs| - 1];
      assert (|xs| as real) * lo == k * lo + lo;
      assert (|xs| as real) * hi == k * hi + hi;
    }
  }

  /** The summarised statistics are consistent: the least response time is
      at most the mean, which is at most the greatest; accuracy and the
      success rate are ratios in [0, 1]. */
  lemma StatsBounds(runs: seq<QueryRun>, m: string)
    requires |Timed(AttemptsOf(runs, m))| > 0
    ensures var s := Stats(runs, m);
            s.minResponseTime <= s.avgResponseTime <= s.maxResponseTime &&
            0.0 <= s.accuracy <= 1.0 && 0.0 < s.successRate <= 1.0 &&
            s.correctCount <= |AttemptsOf(runs, m)| &&
            s.timedQueries == |Timed(AttemptsOf(runs, m))|
  {
    var all := AttemptsOf(runs, m);
    var timed := Timed(all);
    var times := Times(timed);
    var s := Stats(runs, m);
    assert s.minResponseTime == MinOf(times) && s.maxResponseTime == MaxOf(times);
    assert s.avgResponseTime == Sum(times) / (|times| as real);
    MeanWithinRange(times, MinOf(times), MaxOf(times));
    assert s.accuracy == (CorrectCount(all) as real) / (|all| as real);
    RatioAtMostOne(CorrectCount(all), |all|);
    assert s.successRate == (|timed| as real) / (|runs| as real);
    RatioAtMostOne(|timed|, |runs|);
  }

  lemma MeanWithinRange(xs: seq<real>, lo: real, hi: real)
    requires |xs| > 0
    requires forall i :: 0 <= i < |xs| ==> lo <= xs[i] <= hi
    ensures lo <= Sum(xs) / (|xs| as real) <= hi
  {
    SumBounds(xs, lo, hi);
    MeanBetween(Sum(xs), |xs| as real, lo, hi);
  }

  lemma MeanBetween(sum: real, n: real, lo: real, hi: real)
    requires n > 0.0 && n * lo <= sum <= n * hi
    ensures lo <= sum / n <= hi
  {}

  lemma RatioAtMostOne(a: nat, b: nat)
    requires 0 <= a <= b && b > 0
    ensures 0.0 <= (a as real) / (b as real) <= 1.0
    ensures a > 0 ==> 0.0 < (a as real) / (b as real)
  {}
}

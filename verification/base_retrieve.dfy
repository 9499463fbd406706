/** The template retriever: an intent selects one registered Cypher query,
    which runs against the graph with the caller's entities as its
    parameters.  Errors come back as message strings, never as exceptions. */
module Retriever {
  import opened Wrappers
  import opened Text
  import opened Values
  import opened CypherText
  import opened CypherTemplates

  /** A record as the driver yields it: its keys and values, in order. */
  type Record = seq<(string, Value)>

  /** What the driver's `execute_query` does: return records, or raise. */
  datatype Reply = Records(records: seq<Record>) | Raised(message: string)

  /** A graph driver, reduced to its query call: query text, parameters and
      target database in, reply out.  The network round trip is opaque. */
  datatype Driver = Driver(execute: (string, map<string, Value>, string) -> Reply)

  /** `run_query`'s result: a message string, or one dictionary per record. */
  datatype QueryResult = Err(text: string) | Rows(rows: seq<map<string, Value>>)

  /** The database every query runs in. */
  const Database: string := "neo4j"

  const UnknownIntentPrefix: string := "Error: No template found for intent '"
  const NoDriverMessage: string := "Database Error: Driver not initialized."
  const DatabaseErrorPrefix: string := "Database Error: "

  /** The driver a retriever uses: the one given, or else the configured
      default (which may itself be missing). */
  function ChooseDriver(given: Option<Driver>, default: Option<Driver>): (d: Option<Driver>)
    ensures d.Some? <==> given.Some? || default.Some?
    ensures given.Some? ==> d == given
  {
    if given.Some? then given else default
  }

  /** `reg[i]` is the first template registered for `intent`. */
  predicate FirstFor(reg: seq<Template>, intent: string, i: int) {
    0 <= i < |reg| && reg[i].intent == intent
    && forall j :: 0 <= j < i ==> reg[j].intent != intent
  }

  /** The template registered for `intent`: the first with that key. */
  function Lookup(reg: seq<Template>, intent: string): (r: Option<Template>)
    ensures r.Some? <==> intent in Intents(reg)
    ensures r.Some? ==> r.value in reg && r.value.intent == intent
    ensures r.Some? ==> exists i :: FirstFor(reg, intent, i) && reg[i] == r.value
    decreases |reg|
  {
    if |reg| == 0 then None
    else if reg[0].intent == intent then
      assert FirstFor(reg, intent, 0);
      Some(reg[0])
    else
      var r := Lookup(reg[1..], intent);
      assert Intents(reg) == [reg[0].intent] + Intents(reg[1..]);
      if r.Some? then
        ghost var i :| FirstFor(reg[1..], intent, i) && reg[1..][i] == r.value;
        FirstForShift(reg, intent, i);
        r
      else r
  }

  lemma FirstForShift(reg: seq<Template>, intent: string, i: int)
    requires |reg| > 0 && reg[0].intent != intent && FirstFor(reg[1..], intent, i)
    ensures FirstFor(reg, intent, i + 1) && reg[i + 1] == reg[1..][i]
  {
    forall j | 0 <= j < i + 1
      ensures reg[j].intent != intent
    {
      if j > 0 {
        assert reg[j] == reg[1..][j - 1];
      }
    }
  }

  /** `get_available_intents`: every registered intent, in order. */
  function AvailableIntents(reg: seq<Template>): (ks: seq<string>)
    ensures |ks| == |reg|
    ensures forall k :: k in ks <==> Lookup(reg, k).Some?
  {
    Intents(reg)
  }

  /** `run_query`: look the intent up, then hand its query and the caller's
      entities, unchanged, to the driver; records become dictionaries in the
      order the driver returned them. */
  function RunQuery(reg: seq<Template>, driver: Option<Driver>, intent: string,
                    entities: map<string, Value>): (r: QueryResult)
    ensures Lookup(reg, intent).None? ==>
              r == Err(UnknownIntentPrefix + intent + "'")
    ensures Lookup(reg, intent).Some? && driver.None? ==> r == Err(NoDriverMessage)
    ensures Lookup(reg, intent).Some? && driver.Some? ==>
              var reply := driver.value.execute(Lookup(reg, intent).value.Query(), entities, Database);
              match reply
              case Raised(e) => r == Err(DatabaseErrorPrefix + e)
              case Records(rs) =>
                r.Rows? && |r.rows| == |rs| &&
                forall i :: 0 <= i < |rs| ==> r.rows[i] == ToMap(rs[i])
  {
    match Lookup(reg, intent)
    case None => Err(UnknownIntentPrefix + intent + "'")
    case Some(t) =>
      if driver.None? then Err(NoDriverMessage)
      else
        match driver.value.execute(t.Query(), entities, Database)
        case Raised(e) => Err(DatabaseErrorPrefix + e)
        case Records(rs) => Rows(seq(|rs|, i requires 0 <= i < |rs| => ToMap(rs[i])))
  }

  // ---------------------------------------------------------------------
  // Properties of run_query
  // ---------------------------------------------------------------------

  /** The caller can tell an unknown intent from every other outcome: the
      result starts with the unknown-intent prefix exactly when the intent
      is not registered, whatever the driver says. */
  lemma UnknownIntentIff(reg: seq<Template>, driver: Option<Driver>, intent: string,
                         entities: map<string, Value>)
    ensures (var r := RunQuery(reg, driver, intent, entities);
             r.Err? && StartsWith(r.text, UnknownIntentPrefix))
            <==> intent !in AvailableIntents(reg)
  {
    var r := RunQuery(reg, driver, intent, entities);
    if intent !in AvailableIntents(reg) {
      assert r.text == UnknownIntentPrefix + (intent + "'");
      PrefixOfAppend(UnknownIntentPrefix, intent + "'");
    } else {
      KnownIntentErrors(reg, driver, intent, entities);
      if r.Err? {
        DatabaseErrorIsNotUnknownIntent(r.text);
      }
    }
  }

  /** For a registered intent every error is a database error. */
  lemma KnownIntentErrors(reg: seq<Template>, driver: Option<Driver>, intent: string,
                          entities: map<string, Value>)
    requires intent in AvailableIntents(reg)
    ensures var r := RunQuery(reg, driver, intent, entities);
            r.Err? ==> StartsWith(r.text, DatabaseErrorPrefix)
  {
    if driver.None? {
      NoDriverIsDatabaseError();
    } else {
      var reply := driver.value.execute(Lookup(reg, intent).value.Query(), entities, Database);
      if reply.Raised? {
        PrefixOfAppend(DatabaseErrorPrefix, reply.message);
      }
    }
  }

  lemma NoDriverIsDatabaseError()
    ensures StartsWith(NoDriverMessage, DatabaseErrorPrefix)
  {
    assert NoDriverMessage == DatabaseErrorPrefix + "Driver not initialized.";
    PrefixOfAppend(DatabaseErrorPrefix, "Driver not initialized.");
  }

  lemma PrefixOfAppend(p: string, x: string)
    ensures StartsWith(p + x, p)
  {
    assert (p + x)[..|p|] == p;
  }

  /** A database error message never reads as an unknown-intent message. */
  lemma DatabaseErrorIsNotUnknownIntent(t: string)
    requires StartsWith(t, DatabaseErrorPrefix)
    ensures !StartsWith(t, UnknownIntentPrefix)
  {
    assert t[0] == DatabaseErrorPrefix[0] == 'D';
    assert UnknownIntentPrefix[0] == 'E';
  }

  /** For an unknown intent neither the driver nor the entities matter: the
      database is never contacted. */
  lemma UnknownIntentSkipsDriver(reg: seq<Template>, d1: Option<Driver>, d2: Option<Driver>,
                                 intent: string, e1: map<string, Value>, e2: map<string, Value>)
    requires intent !in AvailableIntents(reg)
    ensures RunQuery(reg, d1, intent, e1) == RunQuery(reg, d2, intent, e2)
  {}

  /** Rows come back only for a registered intent with a driver, one row per
      record, each row holding exactly the record's keys with the value of
      the last field of that name. */
  lemma RowsFromRecords(reg: seq<Template>, driver: Option<Driver>, intent: string,
                        entities: map<string, Value>, i: int, k: string)
    requires RunQuery(reg, driver, intent, entities).Rows?
    requires 0 <= i < |RunQuery(reg, driver, intent, entities).rows|
    ensures intent in AvailableIntents(reg) && driver.Some?
    ensures var reply := driver.value.execute(Lookup(reg, intent).value.Query(), entities, Database);
            reply.Records? && |reply.records| == |RunQuery(reg, driver, intent, entities).rows| &&
            var row := RunQuery(reg, driver, intent, entities).rows[i];
            (k in row <==> LastIndexOf(reply.records[i], k) >= 0) &&
            (k in row ==> row[k] == reply.records[i][LastIndexOf(reply.records[i], k)].1)
  {
    var reply := driver.value.execute(Lookup(reg, intent).value.Query(), entities, Database);
    ToMapLastWins(reply.records[i], k);
  }

  /** The parameters a template's query refers to are the references among
      its pieces, provided the pieces are well formed. */
  lemma TemplateParams(t: Template)
    requires WellFormed(t.pieces)
    ensures ParamRefs(t.Query()) == Params(t.pieces)
  {
    ScanRendered(t.pieces);
  }

  /** With distinct keys the first-match lookup behaves like the retriever's
      Python dictionary: every registered template is found under its own intent. */
  lemma LookupDistinct(reg: seq<Template>, i: int)
    requires DistinctIntents(reg) && 0 <= i < |reg|
    ensures Lookup(reg, reg[i].intent) == Some(reg[i])
  {
    assert reg[i].intent in Intents(reg);
    var r := Lookup(reg, reg[i].intent);
    var k :| FirstFor(reg, reg[i].intent, k) && reg[k] == r.value;
    assert k == i;
  }

  /** Every template of the retriever is what its own intent looks up. */
  lemma RegistryLookup(i: int)
    ensures 0 <= i < |Registry| ==> Lookup(Registry, Registry[i].intent) == Some(Registry[i])
  {
    if 0 <= i < |Registry| {
      RegistryDistinct();
      LookupDistinct(Registry, i);
    }
  }

  /** The route-frequency intent looks up a query that expects exactly
      `origin` and `dest`. */
  lemma RouteFrequencyParams()
    ensures Lookup(Registry, "analytics.network.route_frequency") == Some(AnalyticsNetworkRouteFrequency)
    ensures ParamRefs(AnalyticsNetworkRouteFrequency.Query()) == {"origin", "dest"}
  {
    assert Registry[78] == NetworkTemplates[18] == AnalyticsNetworkRouteFrequency;
    RegistryLookup(78);
    RouteFrequencyWellFormed();
    TemplateParams(AnalyticsNetworkRouteFrequency);
    var ps := AnalyticsNetworkRouteFrequency.pieces;
    assert Params(ps[4..]) == {};
    assert Params(ps[2..]) == {"dest"};
  }

  /** The economy-workhorse intent looks up a query that takes no
      parameters. */
  lemma EconomyWorkhorseParams()
    ensures Lookup(Registry, "analytics.network.economy_workhorse") == Some(AnalyticsNetworkEconomyWorkhorse)
    ensures ParamRefs(AnalyticsNetworkEconomyWorkhorse.Query()) == {}
  {
    assert Registry[74] == NetworkTemplates[14] == AnalyticsNetworkEconomyWorkhorse;
    RegistryLookup(74);
    EconomyWorkhorseWellFormed();
    TemplateParams(AnalyticsNetworkEconomyWorkhorse);
    assert Params(AnalyticsNetworkEconomyWorkhorse.pieces[1..]) == {};
  }

  /** The retriever offers one hundred intents. */
  lemma RegistrySize()
    ensures |AvailableIntents(Registry)| == 100
  {}
}

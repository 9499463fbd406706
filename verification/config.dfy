/** The `key=value` configuration files read by the graph-building and
    embedding scripts, and the connection settings taken from them.  The
    four scripts carry the same `load_config`, modelled once here. */
module Config {
  import opened Wrappers
  import opened Text

  // ---------------------------------------------------------------------
  // load_config
  // ---------------------------------------------------------------------

  /** What one line sets: the stripped line cut at its first '=' into
      key and value, or nothing when the line has no '='. */
  function Setting(line: string): (kv: Option<(string, string)>)
    ensures kv.None? <==> '=' !in line
    ensures kv.Some? ==> '=' !in kv.value.0
    ensures kv.Some? ==> Strip(line) == kv.value.0 + "=" + kv.value.1
  {
    if '=' !in line then None
    else
      var t := Strip(line);
      EqualsSurvives(line);
      var key := Before(t, "=");
      NoEqualsBefore(t);
      Some((key, After(t, "=")))
  }

  lemma NoEqualsBefore(t: string)
    ensures '=' !in Before(t, "=")
  {
    var key := Before(t, "=");
    forall j | 0 <= j < |key|
      ensures key[j] != '='
    {
      assert !OccursAt(t, "=", j);
      assert key[j] == t[j];
    }
  }

  lemma EqualsSurvives(line: string)
    requires '=' in line
    ensures Contains(Strip(line), "=")
  {
    var i :| 0 <= i < |line| && line[i] == '=';
    assert !IsSpace('=');
    NonSpaceSurvivesStrip(line, i);
    CharContained(Strip(line), '=');
  }

  /** What each line sets. */
  function Settings(lines: seq<string>): (ss: seq<Option<(string, string)>>)
    ensures |ss| == |lines|
    ensures forall i :: 0 <= i < |ss| ==> ss[i] == Setting(lines[i])
  {
    seq(|lines|, i requires 0 <= i < |lines| => Setting(lines[i]))
  }

  /** The setting is one for `key`. */
  predicate Sets(kv: Option<(string, string)>, key: string) {
    kv.Some? && kv.value.0 == key
  }

  /** The settings, applied in order: later ones overwrite earlier ones. */
  function Apply(ss: seq<Option<(string, string)>>): (cfg: map<string, string>)
    decreases |ss|
  {
    if |ss| == 0 then map[]
    else
      var cfg := Apply(ss[..|ss| - 1]);
      match ss[|ss| - 1]
      case None => cfg
      case Some((k, v)) => cfg[k := v]
  }

  /** `load_config`, on the file's text with line endings already turned
      into '\n'. */
  function LoadConfig(content: string): (cfg: map<string, string>)
    ensures forall k :: k in cfg ==> '=' !in k
  {
    var ss := Settings(SplitOn(content, '\n'));
    KeysHaveNoEquals(ss);
    Apply(ss)
  }

  lemma {:induction false} KeysHaveNoEquals(ss: seq<Option<(string, string)>>)
    requires forall i :: 0 <= i < |ss| && ss[i].Some? ==> '=' !in ss[i].value.0
    ensures forall k :: k in Apply(ss) ==> '=' !in k
    decreases |ss|
  {
    if |ss| > 0 {
      KeysHaveNoEquals(ss[..|ss| - 1]);
    }
  }

  /** The index of the last setting for `k`. */
  function LastSetter(ss: seq<Option<(string, string)>>, k: string): (r: Option<nat>)
    ensures r.None? <==> forall i :: 0 <= i < |ss| ==> !Sets(ss[i], k)
    ensures r.Some? ==> r.value < |ss| && Sets(ss[r.value], k)
    ensures r.Some? ==> forall j :: r.value < j < |ss| ==> !Sets(ss[j], k)
    decreases |ss|
  {
    if |ss| == 0 then None
    else if Sets(ss[|ss| - 1], k) then Some(|ss| - 1)
    else
      var r := LastSetter(ss[..|ss| - 1], k);
      assert forall i :: 0 <= i < |ss| - 1 ==> ss[..|ss| - 1][i] == ss[i];
      r
  }

  /** A key is configured exactly when some line sets it, and its value is
      the one the last such line gives. */
  lemma {:induction false} LoadedSettings(ss: seq<Option<(string, string)>>, k: string)
    ensures k in Apply(ss) <==> LastSetter(ss, k).Some?
    ensures k in Apply(ss) ==> Apply(ss)[k] == ss[LastSetter(ss, k).value].value.1
    decreases |ss|
  {
    if |ss| > 0 {
      var n := |ss| - 1;
      var init := ss[..n];
      LoadedSettings(init, k);
      if !Sets(ss[n], k) {
        assert k in Apply(ss) <==> k in Apply(init);
        assert LastSetter(ss, k) == LastSetter(init, k);
        if k in Apply(init) {
          assert Apply(ss)[k] == Apply(init)[k];
          assert init[LastSetter(init, k).value] == ss[LastSetter(init, k).value];
        }
      }
    }
  }

  /** A line without '=' changes nothing. */
  lemma IgnoresPlainLine(lines: seq<string>, line: string)
    requires '=' !in line
    ensures Apply(Settings(lines + [line])) == Apply(Settings(lines))
  {
    assert Settings(lines + [line])[..|lines|] == Settings(lines);
  }

  // ---------------------------------------------------------------------
  // Writing a configuration back
  // ---------------------------------------------------------------------

  /** A key that survives a round trip: no '=', no line break, no
      surrounding whitespace. */
  predicate GoodKey(k: string) {
    '=' !in k && '\n' !in k && IsStripped(k)
  }

  predicate GoodValue(v: string) {
    '\n' !in v && IsStripped(v)
  }

  function Line(kv: (string, string)): string {
    kv.0 + "=" + kv.1
  }

  /** One `key=value` line per pair. */
  function Render(pairs: seq<(string, string)>): (text: string)
  {
    Join(seq(|pairs|, i requires 0 <= i < |pairs| => Line(pairs[i])), "\n")
  }

  lemma LineSetting(k: string, v: string)
    requires GoodKey(k) && GoodValue(v)
    ensures Setting(k + "=" + v) == Some((k, v))
  {
    var line := k + "=" + v;
    assert line[|k|] == '=';
    assert line[0] != ' ' && !IsSpace(line[0]) by {
      if |k| > 0 { assert line[0] == k[0]; } else { assert line[0] == '='; }
    }
    assert !IsSpace(line[|line| - 1]) by {
      if |v| > 0 { assert line[|line| - 1] == v[|v| - 1]; } else { assert line[|line| - 1] == '='; }
    }
    StripOfStripped(line);
    CutAtSeparator(k, "=", v);
  }

  /** Reading back a rendered configuration with distinct, well-formed keys
      gives each key its value and nothing else. */
  lemma RenderRoundTrip(pairs: seq<(string, string)>)
    requires forall i :: 0 <= i < |pairs| ==> GoodKey(pairs[i].0) && GoodValue(pairs[i].1)
    requires forall i, j :: 0 <= i < j < |pairs| ==> pairs[i].0 != pairs[j].0
    ensures forall i :: 0 <= i < |pairs| ==>
              pairs[i].0 in LoadConfig(Render(pairs)) && LoadConfig(Render(pairs))[pairs[i].0] == pairs[i].1
    ensures forall k :: k in LoadConfig(Render(pairs)) ==> exists i :: 0 <= i < |pairs| && pairs[i].0 == k
  {
    RenderedSettings(pairs);
    DistinctSettings(Settings(SplitOn(Render(pairs), '\n')), pairs);
  }

  /** Each rendered line sets its pair. */
  lemma RenderedSettings(pairs: seq<(string, string)>)
    requires forall i :: 0 <= i < |pairs| ==> GoodKey(pairs[i].0) && GoodValue(pairs[i].1)
    ensures var ss := Settings(SplitOn(Render(pairs), '\n'));
            if |pairs| == 0 then ss == [None]
            else |ss| == |pairs| && forall i :: 0 <= i < |ss| ==> ss[i] == Some(pairs[i])
  {
    var lines := seq(|pairs|, i requires 0 <= i < |pairs| => Line(pairs[i]));
    if |pairs| == 0 {
      assert SplitOn("", '\n') == [""];
    } else {
      forall i | 0 <= i < |pairs|
        ensures Setting(lines[i]) == Some(pairs[i])
        ensures '\n' !in lines[i]
      {
        LineSetting(pairs[i].0, pairs[i].1);
      }
      SplitOnJoin(lines, '\n');
    }
  }

  /** Settings of distinct keys, applied, give each key its own value. */
  lemma DistinctSettings(ss: seq<Option<(string, string)>>, pairs: seq<(string, string)>)
    requires |pairs| == 0 ==> ss == [None]
    requires |pairs| > 0 ==> |ss| == |pairs| && forall i :: 0 <= i < |ss| ==> ss[i] == Some(pairs[i])
    requires forall i, j :: 0 <= i < j < |pairs| ==> pairs[i].0 != pairs[j].0
    ensures forall i :: 0 <= i < |pairs| ==> pairs[i].0 in Apply(ss) && Apply(ss)[pairs[i].0] == pairs[i].1
    ensures forall k :: k in Apply(ss) ==> exists i :: 0 <= i < |pairs| && pairs[i].0 == k
  {
    forall i | 0 <= i < |pairs|
      ensures pairs[i].0 in Apply(ss) && Apply(ss)[pairs[i].0] == pairs[i].1
    {
      var k := pairs[i].0;
      LoadedSettings(ss, k);
      assert Sets(ss[i], k);
      var last := LastSetter(ss, k).value;
      assert Sets(ss[last], k);
      assert last == i;
    }
    forall k | k in Apply(ss)
      ensures exists i :: 0 <= i < |pairs| && pairs[i].0 == k
    {
      LoadedSettings(ss, k);
      var i := LastSetter(ss, k).value;
      assert pairs[i].0 == k;
    }
  }

  // ---------------------------------------------------------------------
  // Connection settings
  // ---------------------------------------------------------------------

  const DefaultUri: string := "neo4j://localhost:7687"
  const DefaultUsername: string := "neo4j"
  const DefaultPassword: string := "password"

  datatype Connection = Connection(uri: string, username: string, password: string)

  /** The URI, user name and password the scripts connect with. */
  function ConnectionOf(cfg: map<string, string>): (c: Connection)
    ensures "URI" in cfg ==> c.uri == cfg["URI"]
    ensures "USERNAME" in cfg ==> c.username == cfg["USERNAME"]
    ensures "PASSWORD" in cfg ==> c.password == cfg["PASSWORD"]
    ensures "URI" !in cfg ==> c.uri == DefaultUri
    ensures "USERNAME" !in cfg ==> c.username == DefaultUsername
    ensures "PASSWORD" !in cfg ==> c.password == DefaultPassword
  {
    Connection(Get(cfg, "URI", DefaultUri), Get(cfg, "USERNAME", DefaultUsername),
               Get(cfg, "PASSWORD", DefaultPassword))
  }

  /** A file with no setting at all connects with the defaults. */
  lemma NoSettingsDefaults(content: string)
    requires '=' !in content
    ensures ConnectionOf(LoadConfig(content)) == Connection(DefaultUri, DefaultUsername, DefaultPassword)
  {
    var ss := Settings(SplitOn(content, '\n'));
    NoEqualsLines(content, '\n');
    assert forall i :: 0 <= i < |ss| ==> ss[i].None?;
    forall k
      ensures k !in Apply(ss)
    {
      LoadedSettings(ss, k);
    }
  }

  /** Splitting never adds a character. */
  lemma {:induction false} NoEqualsLines(content: string, c: char)
    requires '=' !in content
    ensures forall i :: 0 <= i < |SplitOn(content, c)| ==> '=' !in SplitOn(content, c)[i]
    decreases |content|
  {
    if |content| > 0 {
      NoEqualsLines(content[1..], c);
      assert content[0] != '=';
    }
  }

  /** A URI line sets the URI the scripts connect to, whatever came before
      it. */
  lemma LastUriWins(content: string, uri: string)
    requires GoodValue(uri)
    ensures ConnectionOf(LoadConfig(content + "\nURI=" + uri)).uri == uri
  {
    var line := "URI=" + uri;
    UriLine(uri);
    assert content + "\nURI=" + uri == content + ['\n'] + line;
    SplitOnAppend(content, line, '\n');
    LastSettingWins(SplitOn(content, '\n'), line);
  }

  lemma UriLine(uri: string)
    requires GoodValue(uri)
    ensures '\n' !in "URI=" + uri
    ensures Setting("URI=" + uri) == Some(("URI", uri))
  {
    assert GoodKey("URI") by {
      assert forall i :: 0 <= i < 3 ==> "URI"[i] != '=' && "URI"[i] != '\n';
    }
    LineSetting("URI", uri);
    assert "URI" + "=" + uri == "URI=" + uri;
  }

  lemma LastSettingWins(lines: seq<string>, line: string)
    ensures Setting(line).Some? ==>
            var kv := Setting(line).value;
            kv.0 in Apply(Settings(lines + [line])) && Apply(Settings(lines + [line]))[kv.0] == kv.1
  {
    if Setting(line).Some? {
      var all := Settings(lines + [line]);
      var kv := Setting(line).value;
      assert |all| == |lines| + 1;
      assert all[..|all| - 1] == Settings(lines);
      assert all[|all| - 1] == Some(kv);
      assert Apply(all) == Apply(Settings(lines))[kv.0 := kv.1];
    }
  }

  /** Splitting `a + [c] + b` where `b` has no `c` adds `b` as a last
      piece. */
  lemma {:induction false} SplitOnAppend(a: string, b: string, c: char)
    requires c !in b
    ensures SplitOn(a + [c] + b, c) == SplitOn(a, c) + [b]
    decreases |a|
  {
    if |a| == 0 {
      SplitOnCut(a, b, c);
      SplitOnWhole(b, c);
    } else {
      var s := a + [c] + b;
      assert s[0] == a[0] && s[1..] == a[1..] + [c] + b;
      SplitOnAppend(a[1..], b, c);
    }
  }

  // ---------------------------------------------------------------------
  // vector_search
  // ---------------------------------------------------------------------

  const JourneyMiniLmIndex: string := "journey_minilm_full_index"
  const JourneyMpnetIndex: string := "journey_mpnet_full_index"
  const JourneyBgeM3Index: string := "journey_bge_m3_index"

  /** The vector index `vector_search` queries for a model name: exact
      names select the MiniLM and MPNet indexes, anything else BGE-M3. */
  function SearchIndex(modelName: string): (index: string)
    ensures index in {JourneyMiniLmIndex, JourneyMpnetIndex, JourneyBgeM3Index}
    ensures index == JourneyMiniLmIndex <==> modelName == "minilm"
    ensures index == JourneyMpnetIndex <==> modelName == "mpnet"
    ensures index == JourneyBgeM3Index <==> modelName != "minilm" && modelName != "mpnet"
  {
    if modelName == "minilm" then JourneyMiniLmIndex
    else if modelName == "mpnet" then JourneyMpnetIndex
    else JourneyBgeM3Index
  }
}

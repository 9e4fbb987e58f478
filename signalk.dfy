/**
 * Ingest from the SignalK server: humidity normalisation, the REST path of a
 * SignalK path, the snapshot built from one REST poll of the ten sensor paths,
 * and the key dispatch of WebSocket delta updates.
 */
module SignalK {
  import opened Wrappers
  import opened Snapshot

  /** A relative humidity at most 1.5 is taken for a fraction and scaled to percent. */
  function NormalizeHumidity(h: Reading): (r: Reading)
    ensures r.None? <==> h.None?
    ensures h.Some? && h.value <= 1.5 ==> r.value == h.value * 100.0
    ensures h.Some? && h.value > 1.5 ==> r == h
  {
    if h.None? then None
    else if h.value <= 1.5 then Some(h.value * 100.0)
    else h
  }

  /** A fraction in [0, 1] becomes a percent in [0, 100]; a value already above 1.5 stays as it is. */
  lemma NormalizeHumidityRange(h: real)
    ensures 0.0 <= h <= 1.0 ==> 0.0 <= NormalizeHumidity(Some(h)).value <= 100.0
    ensures 1.5 < h ==> NormalizeHumidity(NormalizeHumidity(Some(h))) == Some(h)
    ensures 0.015 < h ==> NormalizeHumidity(Some(h)).value > 1.5
  {
  }

  /** Every `.` of a SignalK path replaced by `/`. */
  function ReplaceDots(s: string): (r: string)
    ensures |r| == |s|
    ensures forall i :: 0 <= i < |s| ==> r[i] == (if s[i] == '.' then '/' else s[i])
  {
    if s == [] then []
    else ReplaceDots(s[..|s| - 1]) + [if s[|s| - 1] == '.' then '/' else s[|s| - 1]]
  }

  const ApiPrefix: string := "/signalk/v1/api/vessels/self/"

  /** The REST path a SignalK path is fetched from. */
  function ValuePath(signalkPath: string): string
  {
    ApiPrefix + ReplaceDots(signalkPath)
  }

  /** The REST path starts with the API prefix and holds no dot after it. */
  lemma ValuePathShape(signalkPath: string)
    ensures |ValuePath(signalkPath)| == |ApiPrefix| + |signalkPath|
    ensures ValuePath(signalkPath)[..|ApiPrefix|] == ApiPrefix
    ensures '.' !in ValuePath(signalkPath)[|ApiPrefix|..]
    ensures forall i :: 0 <= i < |signalkPath| && signalkPath[i] != '.' ==>
      ValuePath(signalkPath)[|ApiPrefix| + i] == signalkPath[i]
  {
    var tail := ValuePath(signalkPath)[|ApiPrefix|..];
    assert tail == ReplaceDots(signalkPath);
  }

  /** What the server answers for one REST path: a failure, or a body whose `value` is a number or null. */
  datatype Response = Failure | Received(value: Reading)

  /** One field's fetch: a failed request yields null for that field alone. */
  function FetchValue(respond: string -> Response, signalkPath: string): (r: Reading)
    ensures respond(ValuePath(signalkPath)).Failure? ==> r.None?
    ensures respond(ValuePath(signalkPath)).Received? ==> r == respond(ValuePath(signalkPath)).value
  {
    match respond(ValuePath(signalkPath))
    case Failure => None
    case Received(v) => v
  }

  /** The ten sensor paths, keyed as the poll names them, in declaration order. */
  const PondPaths: seq<(string, string)> := [
    ("waterTemperature", "tanks.liveWell.pond.temperature"),
    ("waterTemperature1", "tanks.liveWell.pond1.temperature"),
    ("waterTemperature2", "tanks.liveWell.pond2.temperature"),
    ("waterPh", "tanks.liveWell.pond.ph"),
    ("waterConductivity", "tanks.liveWell.pond.conductivity"),
    ("waterLevel", "tanks.liveWell.pond.currentLevel"),
    ("lightLevel", "environment.inside.pond.illuminance"),
    ("airTemperature", "environment.inside.pond.temperature"),
    ("airHumidity", "environment.outside.relativeHumidity"),
    ("airPressure", "environment.inside.pond.pressure")
  ]

  /** The `results` object after the first `n` fetches. */
  function ResultsUpTo(respond: string -> Response, n: nat): map<string, Reading>
    requires n <= |PondPaths|
  {
    if n == 0 then map[]
    else ResultsUpTo(respond, n - 1)[PondPaths[n - 1].0 := FetchValue(respond, PondPaths[n - 1].1)]
  }

  /** Pascals to hectopascals when the raw value is truthy; a raw 0 becomes null. */
  function PressureHpa(raw: Reading): (r: Reading)
    ensures r.Some? <==> raw.Some? && raw.value != 0.0
    ensures r.Some? ==> r.value * 100.0 == raw.value
  {
    if raw.Some? && raw.value != 0.0 then Some(raw.value / 100.0) else None
  }

  /** The snapshot built from the poll's results. */
  function SnapshotOf(results: map<string, Reading>, timestamp: string): PondSnapshot
  {
    PondSnapshot(
      map[Temperature := Get(results, "waterTemperature"), Temperature1 := Get(results, "waterTemperature1"),
          Temperature2 := Get(results, "waterTemperature2"), Ph := Get(results, "waterPh"),
          Conductivity := Get(results, "waterConductivity"), Level := Get(results, "waterLevel")],
      map[Level := Get(results, "lightLevel")],
      map[Temperature := Get(results, "airTemperature"), Humidity := NormalizeHumidity(Get(results, "airHumidity")),
          Pressure := PressureHpa(Get(results, "airPressure"))],
      timestamp)
  }

  /**
   * One REST poll: each of the ten paths fetched in turn into `results`, then
   * the snapshot assembled; `timestamp` stands for the clock reading.
   */
  method GetPondData(respond: string -> Response, timestamp: string) returns (s: PondSnapshot)
    ensures s == SnapshotOf(ResultsUpTo(respond, |PondPaths|), timestamp)
  {
    var results: map<string, Reading> := map[];
    for i := 0 to |PondPaths|
      invariant results == ResultsUpTo(respond, i)
    {
      var (key, path) := PondPaths[i];
      results := results[key := FetchValue(respond, path)];
    }
    s := SnapshotOf(results, timestamp);
  }

  /** A polled snapshot holds exactly the six water, one light and three air fields. */
  lemma PolledKeys(respond: string -> Response, timestamp: string)
    ensures var s := SnapshotOf(ResultsUpTo(respond, |PondPaths|), timestamp);
      && s.water.Keys == {Temperature, Temperature1, Temperature2, Ph, Conductivity, Level}
      && s.light.Keys == {Level}
      && s.air.Keys == {Temperature, Humidity, Pressure}
      && s.timestamp == timestamp
  {
  }

  /** Every water field of a polled snapshot comes from its own path, and only from it. */
  lemma PolledWater(respond: string -> Response, timestamp: string)
    ensures var w := SnapshotOf(ResultsUpTo(respond, |PondPaths|), timestamp).water;
      && Get(w, Temperature) == FetchValue(respond, "tanks.liveWell.pond.temperature")
      && Get(w, Temperature1) == FetchValue(respond, "tanks.liveWell.pond1.temperature")
      && Get(w, Temperature2) == FetchValue(respond, "tanks.liveWell.pond2.temperature")
      && Get(w, Ph) == FetchValue(respond, "tanks.liveWell.pond.ph")
      && Get(w, Conductivity) == FetchValue(respond, "tanks.liveWell.pond.conductivity")
      && Get(w, Level) == FetchValue(respond, "tanks.liveWell.pond.currentLevel")
  {
    PolledResults(respond);
  }

  /**
   * The light and air fields come from their own paths, humidity normalised
   * and pressure converted to hectopascals.
   */
  lemma PolledLightAndAir(respond: string -> Response, timestamp: string)
    ensures var s := SnapshotOf(ResultsUpTo(respond, |PondPaths|), timestamp);
      && Get(s.light, Level) == FetchValue(respond, "environment.inside.pond.illuminance")
      && Get(s.air, Temperature) == FetchValue(respond, "environment.inside.pond.temperature")
      && Get(s.air, Humidity) == NormalizeHumidity(FetchValue(respond, "environment.outside.relativeHumidity"))
      && Get(s.air, Pressure) == PressureHpa(FetchValue(respond, "environment.inside.pond.pressure"))
  {
    PolledResults(respond);
  }

  /** After the loop, each key of `results` holds the fetch of its own path. */
  lemma PolledResults(respond: string -> Response)
    ensures var r := ResultsUpTo(respond, |PondPaths|);
      && Get(r, "waterTemperature") == FetchValue(respond, "tanks.liveWell.pond.temperature")
      && Get(r, "waterTemperature1") == FetchValue(respond, "tanks.liveWell.pond1.temperature")
      && Get(r, "waterTemperature2") == FetchValue(respond, "tanks.liveWell.pond2.temperature")
      && Get(r, "waterPh") == FetchValue(respond, "tanks.liveWell.pond.ph")
      && Get(r, "waterConductivity") == FetchValue(respond, "tanks.liveWell.pond.conductivity")
      && Get(r, "waterLevel") == FetchValue(respond, "tanks.liveWell.pond.currentLevel")
      && Get(r, "lightLevel") == FetchValue(respond, "environment.inside.pond.illuminance")
      && Get(r, "airTemperature") == FetchValue(respond, "environment.inside.pond.temperature")
      && Get(r, "airHumidity") == FetchValue(respond, "environment.outside.relativeHumidity")
      && Get(r, "airPressure") == FetchValue(respond, "environment.inside.pond.pressure")
  {
    PondPathKeysDistinct();
    ResultsLookup(respond, |PondPaths|, 0);
    ResultsLookup(respond, |PondPaths|, 1);
    ResultsLookup(respond, |PondPaths|, 2);
    ResultsLookup(respond, |PondPaths|, 3);
    ResultsLookup(respond, |PondPaths|, 4);
    ResultsLookup(respond, |PondPaths|, 5);
    ResultsLookup(respond, |PondPaths|, 6);
    ResultsLookup(respond, |PondPaths|, 7);
    ResultsLookup(respond, |PondPaths|, 8);
    ResultsLookup(respond, |PondPaths|, 9);
  }

  /** The ten keys are pairwise distinct, so no fetch overwrites another. */
  lemma PondPathKeysDistinct()
    ensures forall i, j :: 0 <= i < j < |PondPaths| ==> PondPaths[i].0 != PondPaths[j].0
  {
  }

  lemma {:induction false} ResultsLookup(respond: string -> Response, n: nat, j: nat)
    requires j < n <= |PondPaths|
    requires forall i, k :: 0 <= i < k < |PondPaths| ==> PondPaths[i].0 != PondPaths[k].0
    ensures Get(ResultsUpTo(respond, n), PondPaths[j].0) == FetchValue(respond, PondPaths[j].1)
  {
    if j < n - 1 {
      ResultsLookup(respond, n - 1, j);
    }
  }

  // ---------------------------------------------------------------- deltas

  /** One `{path, value}` entry of a delta. */
  datatype PathValue = PathValue(path: string, value: Reading)

  /** One element of `updates`; `values` may be missing. */
  datatype Update = Update(values: Option<seq<PathValue>>)

  /** The result key a delta path is stored under, for the ten sensor paths only. */
  function DeltaKey(path: string): Option<string>
  {
    if path == "tanks.liveWell.pond.temperature" then Some("waterTemperature")
    else if path == "tanks.liveWell.pond1.temperature" then Some("waterTemperature1")
    else if path == "tanks.liveWell.pond2.temperature" then Some("waterTemperature2")
    else if path == "tanks.liveWell.pond.ph" then Some("waterPh")
    else if path == "tanks.liveWell.pond.conductivity" then Some("waterConductivity")
    else if path == "tanks.liveWell.pond.currentLevel" then Some("waterLevel")
    else if path == "environment.inside.pond.illuminance" then Some("lightLevel")
    else if path == "environment.inside.pond.temperature" then Some("airTemperature")
    else if path == "environment.outside.relativeHumidity" then Some("airHumidity")
    else if path == "environment.inside.pond.pressure" then Some("airPressure")
    else None
  }

  /** The delta dispatch and the REST poll agree on which key each sensor path fills. */
  lemma DeltaKeysMatchPondPaths()
    ensures forall i :: 0 <= i < |PondPaths| ==> DeltaKey(PondPaths[i].1) == Some(PondPaths[i].0)
  {
  }

  /** One entry applied: a known path sets its key, humidity normalised, pressure left raw. */
  function Assign(result: map<string, Reading>, v: PathValue): map<string, Reading>
  {
    match DeltaKey(v.path)
    case None => result
    case Some(key) => result[key := if key == "airHumidity" then NormalizeHumidity(v.value) else v.value]
  }

  /** The entries of one update applied in order. */
  function AssignAll(result: map<string, Reading>, vs: seq<PathValue>): map<string, Reading>
  {
    if vs == [] then result else Assign(AssignAll(result, vs[..|vs| - 1]), vs[|vs| - 1])
  }

  /** The result of the updates in order; an update without `values` is skipped. */
  function Parsed(updates: seq<Update>): map<string, Reading>
  {
    if updates == [] then map[]
    else
      var before := Parsed(updates[..|updates| - 1]);
      match updates[|updates| - 1].values
      case None => before
      case Some(vs) => AssignAll(before, vs)
  }

  /** `parseDeltaUpdate`: the nested loops over updates and their values. */
  method ParseDeltaUpdate(updates: seq<Update>) returns (result: map<string, Reading>)
    ensures result == Parsed(updates)
  {
    result := map[];
    for i := 0 to |updates|
      invariant result == Parsed(updates[..i])
    {
      assert updates[..i + 1][..i] == updates[..i];
      if updates[i].values.None? {
        continue;
      }
      var vs := updates[i].values.value;
      ghost var start := result;
      for j := 0 to |vs|
        invariant result == AssignAll(start, vs[..j])
      {
        assert vs[..j + 1][..j] == vs[..j];
        result := Assign(result, vs[j]);
      }
      assert vs[..|vs|] == vs;
    }
    assert updates[..|updates|] == updates;
  }

  /** The keys a delta can produce. */
  const DeltaKeys: set<string> := {
    "waterTemperature", "waterTemperature1", "waterTemperature2", "waterPh", "waterConductivity",
    "waterLevel", "lightLevel", "airTemperature", "airHumidity", "airPressure"}

  lemma {:induction false} AssignAllKeys(result: map<string, Reading>, vs: seq<PathValue>)
    ensures AssignAll(result, vs).Keys <= result.Keys + DeltaKeys
  {
    if vs != [] {
      AssignAllKeys(result, vs[..|vs| - 1]);
      var p := vs[|vs| - 1].path;
    }
  }

  /** Only the ten sensor keys ever appear in a parsed delta. */
  lemma {:induction false} ParsedKeys(updates: seq<Update>)
    ensures Parsed(updates).Keys <= DeltaKeys
  {
    if updates != [] {
      ParsedKeys(updates[..|updates| - 1]);
      if updates[|updates| - 1].values.Some? {
        AssignAllKeys(Parsed(updates[..|updates| - 1]), updates[|updates| - 1].values.value);
      }
    }
  }

  /** An update without `values`, or whose paths are all unknown, changes nothing. */
  lemma IgnoredUpdates(updates: seq<Update>, vs: seq<PathValue>)
    requires forall v <- vs :: DeltaKey(v.path).None?
    ensures Parsed(updates + [Update(None)]) == Parsed(updates)
    ensures Parsed(updates + [Update(Some(vs))]) == Parsed(updates)
  {
    assert (updates + [Update(None)])[..|updates|] == updates;
    assert (updates + [Update(Some(vs))])[..|updates|] == updates;
    UnknownPathsIgnored(Parsed(updates), vs);
  }

  lemma {:induction false} UnknownPathsIgnored(result: map<string, Reading>, vs: seq<PathValue>)
    requires forall v <- vs :: DeltaKey(v.path).None?
    ensures AssignAll(result, vs) == result
  {
    if vs != [] {
      assert forall v <- vs[..|vs| - 1] :: v in vs;
      UnknownPathsIgnored(result, vs[..|vs| - 1]);
      assert vs[|vs| - 1] in vs;
    }
  }

  /** No entry of `vs` is dispatched to `key`. */
  predicate Untouched(vs: seq<PathValue>, key: string)
  {
    forall w <- vs :: DeltaKey(w.path) != Some(key)
  }

  /** No entry of any of the updates is dispatched to `key`. */
  predicate UpdatesUntouched(us: seq<Update>, key: string)
  {
    forall u <- us :: u.values.None? || Untouched(u.values.value, key)
  }

  /** Entries for other keys, applied after `a`, leave what `a` put in `key` alone. */
  lemma {:induction false} AssignAllFrame(result: map<string, Reading>, a: seq<PathValue>, b: seq<PathValue>, key: string)
    requires Untouched(b, key) && key in AssignAll(result, a)
    ensures key in AssignAll(result, a + b) && AssignAll(result, a + b)[key] == AssignAll(result, a)[key]
  {
    if b == [] {
      assert a + b == a;
    } else {
      var b' := b[..|b| - 1];
      assert (a + b)[..|a + b| - 1] == a + b';
      assert (a + b)[|a + b| - 1] == b[|b| - 1] && b[|b| - 1] in b;
      assert forall w <- b' :: w in b;
      AssignAllFrame(result, a, b', key);
    }
  }

  /** Later updates whose entries are all for other keys leave `key` alone. */
  lemma {:induction false} ParsedFrame(prefix: seq<Update>, later: seq<Update>, key: string)
    requires UpdatesUntouched(later, key) && key in Parsed(prefix)
    ensures key in Parsed(prefix + later) && Parsed(prefix + later)[key] == Parsed(prefix)[key]
  {
    if later == [] {
      assert prefix + later == prefix;
    } else {
      var later' := later[..|later| - 1];
      var u := later[|later| - 1];
      assert (prefix + later)[..|prefix + later| - 1] == prefix + later';
      assert (prefix + later)[|prefix + later| - 1] == u && u in later;
      assert forall w <- later' :: w in later;
      ParsedFrame(prefix, later', key);
      if u.values.Some? {
        var before := Parsed(prefix + later');
        AssignAllFrame(before, [], u.values.value, key);
        assert [] + u.values.value == u.values.value;
      }
    }
  }

  /**
   * The latest value for a path wins: when no later entry, in the same update
   * or in any later one, is for the same key, that key holds the value,
   * humidity normalised and pressure raw.
   */
  lemma LatestValueWins(updates: seq<Update>, vs: seq<PathValue>, v: PathValue, rest: seq<PathValue>, later: seq<Update>)
    requires DeltaKey(v.path).Some?
    requires Untouched(rest, DeltaKey(v.path).value) && UpdatesUntouched(later, DeltaKey(v.path).value)
    ensures var r := Parsed(updates + [Update(Some(vs + [v] + rest))] + later);
      && DeltaKey(v.path).value in r
      && r[DeltaKey(v.path).value] == if v.path == "environment.outside.relativeHumidity" then NormalizeHumidity(v.value) else v.value
  {
    var key := DeltaKey(v.path).value;
    var shown := if v.path == "environment.outside.relativeHumidity" then NormalizeHumidity(v.value) else v.value;
    var prefix := updates + [Update(Some(vs + [v] + rest))];
    var before := Parsed(updates);
    assert prefix[..|updates|] == updates;
    assert (vs + [v])[..|vs|] == vs;
    assert key in AssignAll(before, vs + [v]) && AssignAll(before, vs + [v])[key] == shown;
    AssignAllFrame(before, vs + [v], rest, key);
    assert Parsed(prefix) == AssignAll(before, vs + [v] + rest);
    ParsedFrame(prefix, later, key);
  }
}

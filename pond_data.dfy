/**
 * The dashboard's data hook: each poll either reports the server as
 * unavailable, fails, or brings a fresh snapshot that is merged into the
 * previous one so that a reading missing from one poll keeps its last value.
 */
module PondData {
  import opened Wrappers
  import opened Snapshot

  /** The merge of one group: the new non-null readings over the previous ones. */
  function MergedGroup(prev: Group, incoming: Group): Group
  {
    map k | k in prev.Keys + incoming.Keys && (k in prev || incoming[k].Some?) ::
      if k in incoming && incoming[k].Some? then incoming[k] else prev[k]
  }

  /**
   * The group merge as the hook performs it: start from a copy of the previous
   * group and write every non-null incoming reading over it, one key at a time.
   */
  method MergeGroup(prev: Group, incoming: Group) returns (merged: Group)
    ensures merged == MergedGroup(prev, incoming)
  {
    merged := prev;
    var pending := incoming.Keys;
    while pending != {}
      invariant pending <= incoming.Keys
      invariant forall k :: k in merged <==> k in prev || (k in incoming && k !in pending && incoming[k].Some?)
      invariant forall k | k in merged ::
        merged[k] == if k in incoming && k !in pending && incoming[k].Some? then incoming[k] else prev[k]
      decreases |pending|
    {
      var k :| k in pending;
      if incoming[k].Some? {
        merged := merged[k := incoming[k]];
      }
      pending := pending - {k};
    }
  }

  /**
   * The state update of a successful poll: with no previous snapshot the new
   * one is taken whole; otherwise each group is merged and the timestamp is the new one.
   */
  method MergeSnapshots(prev: Option<PondSnapshot>, incoming: PondSnapshot) returns (merged: PondSnapshot)
    ensures prev.None? ==> merged == incoming
    ensures prev.Some? ==> merged == Merge(prev.value, incoming)
  {
    if prev.None? {
      return incoming;
    }
    var water := MergeGroup(prev.value.water, incoming.water);
    var light := MergeGroup(prev.value.light, incoming.light);
    var air := MergeGroup(prev.value.air, incoming.air);
    merged := PondSnapshot(water, light, air, incoming.timestamp);
  }

  function Merge(prev: PondSnapshot, incoming: PondSnapshot): PondSnapshot
  {
    PondSnapshot(MergedGroup(prev.water, incoming.water), MergedGroup(prev.light, incoming.light),
      MergedGroup(prev.air, incoming.air), incoming.timestamp)
  }

  /**
   * Reading a merged group: a new known reading wins, otherwise the previous
   * value stays, and nothing appears that neither group had.
   */
  lemma MergedGroupGet(prev: Group, incoming: Group, k: string)
    ensures Get(MergedGroup(prev, incoming), k) == if Get(incoming, k).Some? then Get(incoming, k) else Get(prev, k)
    ensures k in MergedGroup(prev, incoming) <==> k in prev || Get(incoming, k).Some?
  {
  }

  /** A reading once known stays known, whatever the next poll brings. */
  lemma KnownReadingsKept(prev: PondSnapshot, incoming: PondSnapshot, k: string)
    ensures Get(prev.water, k).Some? ==> Get(Merge(prev, incoming).water, k).Some?
    ensures Get(prev.light, k).Some? ==> Get(Merge(prev, incoming).light, k).Some?
    ensures Get(prev.air, k).Some? ==> Get(Merge(prev, incoming).air, k).Some?
  {
    MergedGroupGet(prev.water, incoming.water, k);
    MergedGroupGet(prev.light, incoming.light, k);
    MergedGroupGet(prev.air, incoming.air, k);
  }

  /** A poll with no known reading changes nothing but the timestamp. */
  lemma AllNullPollKeepsReadings(prev: Group, incoming: Group)
    requires forall k | k in incoming :: incoming[k].None?
    ensures MergedGroup(prev, incoming) == prev
  {
  }

  /** Merging the same poll twice is the same as merging it once. */
  lemma MergeIdempotent(prev: PondSnapshot, incoming: PondSnapshot)
    ensures Merge(Merge(prev, incoming), incoming) == Merge(prev, incoming)
  {
    GroupMergeIdempotent(prev.water, incoming.water);
    GroupMergeIdempotent(prev.light, incoming.light);
    GroupMergeIdempotent(prev.air, incoming.air);
  }

  lemma GroupMergeIdempotent(prev: Group, incoming: Group)
    ensures MergedGroup(MergedGroup(prev, incoming), incoming) == MergedGroup(prev, incoming)
  {
    var once := MergedGroup(prev, incoming);
    var twice := MergedGroup(once, incoming);
    assert twice.Keys == once.Keys;
    forall k | k in once ensures twice[k] == once[k] {
    }
  }

  /** A poll with every reading known replaces the previous group's values on those keys. */
  lemma FullPollOverrides(prev: Group, incoming: Group)
    requires forall k | k in incoming :: incoming[k].Some?
    requires prev.Keys <= incoming.Keys
    ensures MergedGroup(prev, incoming) == incoming
  {
  }

  /** What one poll produced, as the hook observes it. */
  datatype FetchOutcome =
    | Unavailable                   // the availability probe answered false
    | Failed(message: string)       // an exception escaped the fetch
    | Fetched(snapshot: PondSnapshot)

  const ServerUnavailable: string := "SignalK server non disponible"

  /** The hook's state, one field per `useState`. */
  class PondDataHook {
    var data: Option<PondSnapshot>
    var loading: bool
    var error: Option<string>
    var connected: bool
    var lastUpdate: Option<string>

    /**
     * The last update is the shown snapshot's timestamp, and the hook reports
     * itself connected exactly when it has data and no error.
     */
    predicate Valid()
      reads this
    {
      && lastUpdate == (if data.None? then None else Some(data.value.timestamp))
      && (connected <==> error.None? && data.Some?)
    }

    /** The state of a freshly mounted hook: no data, loading, no error, not connected. */
    constructor ()
      ensures Valid()
      ensures data == None && loading && error == None && !connected && lastUpdate == None
    {
      data := None;
      loading := true;
      error := None;
      connected := false;
      lastUpdate := None;
    }

    /** The first half of `refresh`: the spinner comes back before the fetch starts. */
    method BeginRefresh()
      modifies this
      ensures loading
      ensures data == old(data) && error == old(error) && connected == old(connected) && lastUpdate == old(lastUpdate)
      ensures old(Valid()) ==> Valid()
    {
      loading := true;
    }

    /** One run of `fetchData` with the given outcome; loading always ends. */
    method FetchData(outcome: FetchOutcome)
      requires Valid()
      modifies this
      ensures Valid()
      ensures !loading
      ensures outcome.Unavailable? ==>
        !connected && error == Some(ServerUnavailable) && data == old(data) && lastUpdate == old(lastUpdate)
      ensures outcome.Failed? ==>
        !connected && error == Some(outcome.message) && data == old(data) && lastUpdate == old(lastUpdate)
      ensures outcome.Fetched? ==>
        && connected && error == None
        && lastUpdate == Some(outcome.snapshot.timestamp)
        && data == Some(if old(data).None? then outcome.snapshot else Merge(old(data).value, outcome.snapshot))
      ensures old(data).Some? ==> data.Some?
    {
      match outcome {
        case Unavailable =>
          connected := false;
          error := Some(ServerUnavailable);
        case Failed(message) =>
          // whether or not the probe had reported the server up, the catch block disconnects
          error := Some(message);
          connected := false;
        case Fetched(incoming) =>
          connected := true;
          var merged := MergeSnapshots(data, incoming);
          data := Some(merged);
          lastUpdate := Some(incoming.timestamp);
          error := None;
      }
      loading := false;
    }

    /** `refresh` followed through to the end of the fetch it starts. */
    method Refresh(outcome: FetchOutcome)
      requires Valid()
      modifies this
      ensures Valid()
      ensures !loading
      ensures outcome.Unavailable? ==>
        !connected && error == Some(ServerUnavailable) && data == old(data) && lastUpdate == old(lastUpdate)
      ensures outcome.Failed? ==>
        !connected && error == Some(outcome.message) && data == old(data) && lastUpdate == old(lastUpdate)
      ensures outcome.Fetched? ==>
        && connected && error == None
        && lastUpdate == Some(outcome.snapshot.timestamp)
        && data == Some(if old(data).None? then outcome.snapshot else Merge(old(data).value, outcome.snapshot))
      ensures old(data).Some? ==> data.Some?
    {
      BeginRefresh();
      FetchData(outcome);
    }
  }
}

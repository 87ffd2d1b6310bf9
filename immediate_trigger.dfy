/** The replication immediate trigger and the watch list it registers in:
    a policy watches pushes to its namespaces, and deletions as well when it
    replicates deletions. Only the contract its tests fix is modelled: the
    watch list answers, for a namespace and an operation, which policies
    watch it. */
module ImmediateTrigger {
  import opened Wrappers
  import opened Replication

  datatype Operation = Push | Delete

  /** A watch-list entry: the policy watching an operation on a namespace. */
  datatype WatchEntry = WatchEntry(namespace: string, operation: Operation, policyId: int)

  datatype ImmediateParam = ImmediateParam(policyId: int, onDeletion: bool, namespaces: seq<string>)

  /** The entries a trigger registers for each of the given namespaces. */
  function EntriesFor(param: ImmediateParam, namespaces: seq<string>): (r: set<WatchEntry>)
    ensures forall ns :: ns in namespaces ==> WatchEntry(ns, Push, param.policyId) in r
    ensures forall ns :: ns in namespaces && param.onDeletion ==> WatchEntry(ns, Delete, param.policyId) in r
    ensures forall e :: e in r ==> e.policyId == param.policyId && e.namespace in namespaces
                                   && (e.operation == Push || param.onDeletion)
  {
    (set ns | ns in namespaces :: WatchEntry(ns, Push, param.policyId))
    + (if param.onDeletion then set ns | ns in namespaces :: WatchEntry(ns, Delete, param.policyId) else {})
  }

  class WatchList {
    var entries: set<WatchEntry>

    constructor ()
      ensures entries == {}
    {
      entries := {};
    }

    /** The policies watching `operation` on `namespace`. */
    function Get(namespace: string, operation: Operation): (r: set<int>)
      reads this
      ensures forall p :: p in r <==> WatchEntry(namespace, operation, p) in entries
    {
      set e | e in entries && e.namespace == namespace && e.operation == operation :: e.policyId
    }

    method Add(e: WatchEntry)
      modifies this
      ensures entries == old(entries) + {e}
    {
      entries := entries + {e};
    }

    /** Drops every entry of a policy. */
    method Remove(policyId: int)
      modifies this
      ensures entries == set e | e in old(entries) && e.policyId != policyId
    {
      entries := set e | e in entries && e.policyId != policyId;
    }
  }

  function Kind(param: ImmediateParam): TriggerKind {
    KindImmediate
  }

  /** Setup registers the policy for pushes to each namespace, and for
      deletions too when it replicates them; it does not fail. */
  method Setup(param: ImmediateParam, watchList: WatchList) returns (err: Option<string>)
    modifies watchList
    ensures err.None?
    ensures watchList.entries == old(watchList.entries) + EntriesFor(param, param.namespaces)
  {
    var i := 0;
    while i < |param.namespaces|
      invariant 0 <= i <= |param.namespaces|
      invariant watchList.entries == old(watchList.entries) + EntriesFor(param, param.namespaces[..i])
    {
      ghost var done := param.namespaces[..i];
      assert param.namespaces[..i + 1] == done + [param.namespaces[i]];
      watchList.Add(WatchEntry(param.namespaces[i], Push, param.policyId));
      if param.onDeletion {
        watchList.Add(WatchEntry(param.namespaces[i], Delete, param.policyId));
      }
      i := i + 1;
    }
    assert param.namespaces[..i] == param.namespaces;
    return None;
  }

  /** Unset removes every registration of the policy; it does not fail. */
  method Unset(param: ImmediateParam, watchList: WatchList) returns (err: Option<string>)
    modifies watchList
    ensures err.None?
    ensures watchList.entries == set e | e in old(watchList.entries) && e.policyId != param.policyId
  {
    watchList.Remove(param.policyId);
    return None;
  }

  /** The trigger's own scenario: policy 1 on "library" with deletions, set
      up on an empty watch list, is the one push and the one delete watcher
      of "library"; after Unset nobody watches deletions there. */
  method SetupUnsetScenario()
    returns (kind: TriggerKind, setupErr: Option<string>, pushWatchers: set<int>,
             deleteWatchers: set<int>, unsetErr: Option<string>, deleteWatchersAfter: set<int>)
    ensures kind == KindImmediate && setupErr.None? && unsetErr.None?
    ensures |pushWatchers| == 1 && |deleteWatchers| == 1 && |deleteWatchersAfter| == 0
  {
    var param := ImmediateParam(1, true, ["library"]);
    kind := Kind(param);
    var watchList := new WatchList();
    setupErr := Setup(param, watchList);
    pushWatchers := watchList.Get("library", Push);
    assert pushWatchers == {1} by {
      assert WatchEntry("library", Push, 1) in watchList.entries;
    }
    deleteWatchers := watchList.Get("library", Delete);
    assert deleteWatchers == {1} by {
      assert WatchEntry("library", Delete, 1) in watchList.entries;
    }
    unsetErr := Unset(param, watchList);
    deleteWatchersAfter := watchList.Get("library", Delete);
    assert deleteWatchersAfter == {};
  }

  /** Setting a trigger up and then unsetting it leaves the other policies'
      registrations exactly as they were. */
  lemma SetupThenUnsetKeepsOthers(entries: set<WatchEntry>, param: ImmediateParam)
    ensures (set e | e in entries + EntriesFor(param, param.namespaces) && e.policyId != param.policyId)
            == set e | e in entries && e.policyId != param.policyId
  {
  }
}

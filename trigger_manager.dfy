/** The trigger manager's factory and its set-up and tear-down of a
    policy's trigger. Only what its tests fix is modelled: which policies
    yield a trigger, of which kind, and that an immediate trigger is set up
    and unset without error. */
module TriggerManager {
  import opened Wrappers
  import opened Replication
  import ST = ScheduleTrigger
  import IT = ImmediateTrigger

  datatype ScheduleSpec = ScheduleSpec(scheduleType: ST.ScheduleType, weekday: int, offtime: int)
  datatype TriggerSpec = TriggerSpec(kind: TriggerKind, scheduleParam: Option<ScheduleSpec>)

  /** The fields of a replication policy the factory reads. */
  datatype Policy = Policy(id: int, trigger: Option<TriggerSpec>, namespaces: seq<string>, replicateDeletion: bool)

  datatype Trigger = Scheduled(scheduleParam: ST.ScheduleParam) | Immediate(immediateParam: IT.ImmediateParam)

  function Kind(t: Trigger): TriggerKind {
    match t
    case Scheduled(p) => ST.Kind(p)
    case Immediate(p) => IT.Kind(p)
  }

  /** Each trigger reports its own kind, so the kind tells the two trigger
      implementations apart and is never manual. */
  lemma KindIdentifiesTrigger(t: Trigger)
    ensures Kind(t) == KindSchedule <==> t.Scheduled?
    ensures Kind(t) == KindImmediate <==> t.Immediate?
    ensures Kind(t) != KindManual && !Kind(t).KindOther?
  {
  }

  /** createTrigger: a nil policy or trigger is an error, a manual trigger
      is nil, a schedule or immediate trigger is built from the policy, any
      other kind (or a schedule without parameters) is an error. */
  function CreateTrigger(policy: Option<Policy>): (r: Result<Option<Trigger>, string>)
    ensures policy.None? || policy.value.trigger.None? ==> r.Err?
    ensures policy.Some? && policy.value.trigger.Some? ==>
              var spec := policy.value.trigger.value;
              && (spec.kind == KindManual ==> r == Ok(None))
              && (spec.kind == KindImmediate ==>
                    r == Ok(Some(Immediate(IT.ImmediateParam(policy.value.id, policy.value.replicateDeletion,
                                                             policy.value.namespaces)))))
              && (spec.kind == KindSchedule && spec.scheduleParam.Some? ==>
                    var sp := spec.scheduleParam.value;
                    r == Ok(Some(Scheduled(ST.ScheduleParam(policy.value.id, sp.scheduleType, sp.weekday, sp.offtime)))))
              && (spec.kind.KindOther? ==> r.Err?)
    ensures r.Ok? && r.value.Some? ==> Kind(r.value.value) == policy.value.trigger.value.kind
  {
    match policy
    case None => Err("empty policy")
    case Some(p) =>
      match p.trigger
      case None => Err("empty trigger")
      case Some(spec) =>
        match spec.kind
        case KindManual => Ok(None)
        case KindImmediate => Ok(Some(Immediate(IT.ImmediateParam(p.id, p.replicateDeletion, p.namespaces))))
        case KindSchedule =>
          (match spec.scheduleParam
           case None => Err("empty schedule parameters")
           case Some(sp) => Ok(Some(Scheduled(ST.ScheduleParam(p.id, sp.scheduleType, sp.weekday, sp.offtime)))))
        case KindOther(name) => Err("invalid trigger type: " + name)
  }

  /** The factory's own cases: nil policy, nil trigger, a weekly schedule,
      an immediate trigger and a manual one. */
  lemma CreateTriggerCases()
    ensures CreateTrigger(None).Err?
    ensures CreateTrigger(Some(Policy(0, None, [], false))).Err?
    ensures var r := CreateTrigger(Some(Policy(0, Some(TriggerSpec(KindSchedule, Some(ScheduleSpec(ST.Weekly, 1, 1)))), [], false)));
            r.Ok? && r.value.Some?
    ensures var r := CreateTrigger(Some(Policy(0, Some(TriggerSpec(KindImmediate, None)), [], false)));
            r.Ok? && r.value.Some?
    ensures CreateTrigger(Some(Policy(0, Some(TriggerSpec(KindManual, None)), [], false))) == Ok(None)
  {
  }

  /** SetupTrigger: builds the trigger and sets it up; a manual trigger
      needs nothing. */
  method SetupTrigger(policy: Option<Policy>, watchList: IT.WatchList, store: ST.RepJobStore,
                      client: ST.JobServiceClient, faults: ST.DbFaults,
                      parseOfftime: int -> (int, int, int), coreUrl: string)
    returns (err: Option<string>)
    requires store.Valid()
    modifies watchList, store
    ensures store.Valid()
    ensures CreateTrigger(policy).Err? ==> err == Some(CreateTrigger(policy).error)
    ensures CreateTrigger(policy) == Ok(None) ==> err.None?
    ensures CreateTrigger(policy).Err? || CreateTrigger(policy) == Ok(None) ==>
              watchList.entries == old(watchList.entries) && store.rows == old(store.rows)
    ensures CreateTrigger(policy).Ok? && CreateTrigger(policy).value.Some?
            && CreateTrigger(policy).value.value.Scheduled? ==>
              watchList.entries == old(watchList.entries)
    ensures CreateTrigger(policy).Ok? && CreateTrigger(policy).value.Some?
            && CreateTrigger(policy).value.value.Immediate? ==>
              var p := CreateTrigger(policy).value.value.immediateParam;
              && err.None? && store.rows == old(store.rows)
              && watchList.entries == old(watchList.entries) + IT.EntriesFor(p, p.namespaces)
  {
    var created := CreateTrigger(policy);
    if created.Err? {
      return Some(created.error);
    }
    match created.value {
      case None =>
        return None;
      case Some(Immediate(p)) =>
        err := IT.Setup(p, watchList);
      case Some(Scheduled(p)) =>
        err := ST.Setup(p, store, client, faults, parseOfftime, coreUrl);
    }
  }

  /** UnsetTrigger: builds the trigger and unsets it. */
  method UnsetTrigger(policy: Option<Policy>, watchList: IT.WatchList, store: ST.RepJobStore,
                      client: ST.JobServiceClient, faults: ST.DbFaults)
    returns (err: Option<string>)
    requires store.Valid()
    modifies watchList, store
    ensures store.Valid()
    ensures CreateTrigger(policy).Err? ==> err == Some(CreateTrigger(policy).error)
    ensures CreateTrigger(policy) == Ok(None) ==> err.None?
    ensures CreateTrigger(policy).Err? || CreateTrigger(policy) == Ok(None) ==>
              watchList.entries == old(watchList.entries) && store.rows == old(store.rows)
    ensures CreateTrigger(policy).Ok? && CreateTrigger(policy).value.Some?
            && CreateTrigger(policy).value.value.Scheduled? ==>
              watchList.entries == old(watchList.entries)
    ensures CreateTrigger(policy).Ok? && CreateTrigger(policy).value.Some?
            && CreateTrigger(policy).value.value.Immediate? ==>
              var p := CreateTrigger(policy).value.value.immediateParam;
              && err.None? && store.rows == old(store.rows)
              && watchList.entries == set e | e in old(watchList.entries) && e.policyId != p.policyId
  {
    var created := CreateTrigger(policy);
    if created.Err? {
      return Some(created.error);
    }
    match created.value {
      case None =>
        return None;
      case Some(Immediate(p)) =>
        err := IT.Unset(p, watchList);
      case Some(Scheduled(p)) =>
        err := ST.Unset(p, store, client, faults);
    }
  }

  /** The manager's own cases: an immediate-kind policy is set up and unset
      without error. */
  method ImmediatePolicyScenario(client: ST.JobServiceClient, faults: ST.DbFaults,
                                 parseOfftime: int -> (int, int, int), coreUrl: string)
    returns (setupErr: Option<string>, unsetErr: Option<string>)
    ensures setupErr.None? && unsetErr.None?
  {
    var policy := Some(Policy(0, Some(TriggerSpec(KindImmediate, None)), [], false));
    var watchList := new IT.WatchList();
    var store := new ST.RepJobStore();
    setupErr := SetupTrigger(policy, watchList, store, client, faults, parseOfftime, coreUrl);
    unsetErr := UnsetTrigger(policy, watchList, store, client, faults);
  }
}

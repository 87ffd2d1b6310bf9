/** The replication schedule trigger. Setup records a schedule job for the
    policy, submits a periodic job to the job service with a cron spec built
    from the daily or weekly schedule, and removes the record again if the
    submission fails. Unset stops and deletes every schedule job of the
    policy. The database and the job service client are modelled as a row
    store and an oracle whose operations may fail. */
module ScheduleTrigger {
  import opened Wrappers
  import opened Text
  import opened Replication

  /** The schedule type; `OtherType` stands only for names other than the
      daily and weekly constants. */
  datatype ScheduleType = Daily | Weekly | OtherType(name: string)

  /** The trigger's parameters; `offtime` is seconds after midnight. */
  datatype ScheduleParam = ScheduleParam(policyId: int, scheduleType: ScheduleType, weekday: int, offtime: int)

  datatype JobKind = Periodic
  datatype JobName = ImageReplicate
  datatype RepOp = RepOpSchedule | RepOpOther(name: string)

  datatype JobMetadata = JobMetadata(jobKind: JobKind, cron: string)

  /** The job posted to the job service: the replication job of the policy,
      reporting to the core service's hook for the record `id`. */
  datatype JobData = JobData(name: JobName, policyId: int, url: string, insecure: bool,
                             metadata: JobMetadata, statusHook: string)

  /** A row of the replication job table. */
  datatype RepJob = RepJob(id: int, repository: string, policyId: int, operation: RepOp, uuid: string)

  /** A failing job service call: an HTTP error status, or any other error. */
  datatype ClientError = HttpError(code: int, message: string) | OtherClientError(message: string)

  /** The job service client, by its outcome for each call. */
  datatype JobServiceClient = JobServiceClient(
    submitJob: JobData -> Result<string, string>,
    postAction: (string, string) -> Option<ClientError>)

  /** Which database calls fail, and with what error. */
  datatype DbFaults = DbFaults(
    addRepJob: Option<string>,
    deleteRepJob: int -> Option<string>,
    setRepJobUuid: Option<string>,
    getRepJobs: Option<string>)

  const JobActionStop: string := "stop"
  const StatusNotFound: int := 404

  function Kind(param: ScheduleParam): TriggerKind {
    KindSchedule
  }

  // ---------------------------------------------------------------------
  // The cron spec
  // ---------------------------------------------------------------------

  /** Go's `%` on ints: the remainder takes the sign of the dividend. */
  function GoRem(a: int, b: int): (r: int)
    requires b > 0
    ensures a >= 0 ==> 0 <= r < b
    ensures a < 0 ==> -b < r <= 0
    ensures a >= 0 ==> r == a % b
  {
    if a >= 0 then a % b else -((-a) % b)
  }

  /** The six fields of the cron spec, seconds first, for the hour, minute
      and second that ParseOfftime gives; None for an unsupported type. */
  function CronFields(param: ScheduleParam, parseOfftime: int -> (int, int, int)): Option<seq<string>> {
    var (h, m, s) := parseOfftime(param.offtime);
    match param.scheduleType
    case Daily => Some([Itoa(s), Itoa(m), Itoa(h), "*", "*", "*"])
    case Weekly => Some([Itoa(s), Itoa(m), Itoa(h), "*", "*", Itoa(GoRem(param.weekday, 7))])
    case OtherType(_) => None
  }

  /** The cron spec as written by Sprintf, or the error for an unsupported
      schedule type. */
  function Cron(param: ScheduleParam, parseOfftime: int -> (int, int, int)): (r: Result<string, string>)
    ensures r.Err? <==> param.scheduleType.OtherType?
  {
    match CronFields(param, parseOfftime)
    case Some(fields) => Ok(Join(fields, " "))
    case None => Err("unsupported schedule trigger type: " + param.scheduleType.name)
  }

  lemma ItoaHasNoSpace(n: int)
    ensures ' ' !in Itoa(n)
  {
    ItoaShape(n);
  }

  /** The cron spec splits at its spaces into exactly the six fields. */
  lemma {:induction false} CronSplitsIntoFields(param: ScheduleParam, parseOfftime: int -> (int, int, int))
    requires !param.scheduleType.OtherType?
    ensures Split(Cron(param, parseOfftime).value, ' ') == CronFields(param, parseOfftime).value
  {
    var (h, m, s) := parseOfftime(param.offtime);
    var fields := CronFields(param, parseOfftime).value;
    ItoaHasNoSpace(s);
    ItoaHasNoSpace(m);
    ItoaHasNoSpace(h);
    ItoaHasNoSpace(GoRem(param.weekday, 7));
    SplitJoin(fields, ' ');
  }

  /** Reading the cron spec back field by field gives the second, minute,
      hour and (weekly) day it was built from; the day lies within a week. */
  lemma CronRoundTrip(param: ScheduleParam, parseOfftime: int -> (int, int, int))
    requires !param.scheduleType.OtherType?
    requires var (h, m, s) := parseOfftime(param.offtime);
             MinInt <= h <= MaxInt && MinInt <= m <= MaxInt && MinInt <= s <= MaxInt
    ensures var (h, m, s) := parseOfftime(param.offtime);
            var fields := Split(Cron(param, parseOfftime).value, ' ');
            && |fields| == 6
            && Atoi(fields[0]) == Ok(s) && Atoi(fields[1]) == Ok(m) && Atoi(fields[2]) == Ok(h)
            && fields[3] == "*" && fields[4] == "*"
            && (param.scheduleType.Daily? ==> fields[5] == "*")
            && (param.scheduleType.Weekly? ==>
                  Atoi(fields[5]) == Ok(GoRem(param.weekday, 7)) && -7 < GoRem(param.weekday, 7) < 7)
  {
    var (h, m, s) := parseOfftime(param.offtime);
    CronSplitsIntoFields(param, parseOfftime);
    AtoiItoa(s);
    AtoiItoa(m);
    AtoiItoa(h);
    AtoiItoa(GoRem(param.weekday, 7));
  }

  /** The job submitted for a trigger: always of the periodic kind, with
      the cron spec and the status hook of record `id`. */
  function SubmittedJob(param: ScheduleParam, cron: string, coreUrl: string, id: int): (d: JobData)
    ensures d.metadata == JobMetadata(Periodic, cron) && d.policyId == param.policyId
    ensures d.statusHook == coreUrl + "/service/notifications/jobs/replication/" + Itoa(id)
  {
    JobData(ImageReplicate, param.policyId, coreUrl, true, JobMetadata(Periodic, cron),
            coreUrl + "/service/notifications/jobs/replication/" + Itoa(id))
  }

  // ---------------------------------------------------------------------
  // The replication job table
  // ---------------------------------------------------------------------

  /** `rows` without the row numbered `id`. */
  function WithoutRow(rows: seq<RepJob>, id: int): (r: seq<RepJob>)
    ensures forall x :: x in r <==> x in rows && x.id != id
  {
    if rows == [] then []
    else (if rows[0].id == id then [] else [rows[0]]) + WithoutRow(rows[1..], id)
  }

  /** `rows` with the uuid of row `id` set. */
  function WithUuid(rows: seq<RepJob>, id: int, uuid: string): (r: seq<RepJob>)
    ensures |r| == |rows|
    ensures forall i :: 0 <= i < |rows| ==>
              r[i] == if rows[i].id == id then rows[i].(uuid := uuid) else rows[i]
  {
    if rows == [] then [] else [if rows[0].id == id then rows[0].(uuid := uuid) else rows[0]] + WithUuid(rows[1..], id, uuid)
  }

  predicate IsScheduleJobOf(x: RepJob, policyId: int) {
    x.policyId == policyId && x.operation == RepOpSchedule
  }

  /** The schedule jobs of a policy, in table order. */
  function ScheduleJobs(rows: seq<RepJob>, policyId: int): (r: seq<RepJob>)
    ensures forall x :: x in r <==> x in rows && IsScheduleJobOf(x, policyId)
  {
    if rows == [] then []
    else (if IsScheduleJobOf(rows[0], policyId) then [rows[0]] else []) + ScheduleJobs(rows[1..], policyId)
  }

  function IdsOf(jobs: seq<RepJob>): set<int> {
    set x | x in jobs :: x.id
  }

  /** The table: its rows in id order, and the next id to hand out. */
  class RepJobStore {
    var rows: seq<RepJob>
    var nextId: int

    ghost predicate Valid()
      reads this
    {
      IdsIncreasing(rows) && forall x :: x in rows ==> x.id < nextId
    }

    constructor ()
      ensures rows == [] && Valid()
    {
      rows := [];
      nextId := 1;
    }

    /** dao.AddRepJob: a new row with the next id, unless the call fails. */
    method AddRepJob(repository: string, policyId: int, operation: RepOp, fault: Option<string>)
      returns (id: int, err: Option<string>)
      requires Valid()
      modifies this
      ensures Valid() && err == fault
      ensures fault.Some? ==> rows == old(rows) && nextId == old(nextId)
      ensures fault.None? ==> id == old(nextId) && nextId == old(nextId) + 1
                              && rows == old(rows) + [RepJob(id, repository, policyId, operation, "")]
    {
      if fault.Some? {
        return 0, fault;
      }
      id := nextId;
      rows := rows + [RepJob(id, repository, policyId, operation, "")];
      nextId := nextId + 1;
      return id, None;
    }

    /** dao.DeleteRepJob. */
    method DeleteRepJob(id: int, fault: Option<string>) returns (err: Option<string>)
      requires Valid()
      modifies this
      ensures Valid() && err == fault && nextId == old(nextId)
      ensures rows == if fault.Some? then old(rows) else WithoutRow(old(rows), id)
    {
      if fault.Some? {
        return fault;
      }
      WithoutRowKeepsOrder(rows, id);
      rows := WithoutRow(rows, id);
      return None;
    }

    /** dao.SetRepJobUUID. */
    method SetRepJobUuid(id: int, uuid: string, fault: Option<string>) returns (err: Option<string>)
      requires Valid()
      modifies this
      ensures Valid() && err == fault && nextId == old(nextId)
      ensures rows == if fault.Some? then old(rows) else WithUuid(old(rows), id, uuid)
    {
      if fault.Some? {
        return fault;
      }
      rows := WithUuid(rows, id, uuid);
      return None;
    }

    /** dao.GetRepJobs for the schedule jobs of a policy. */
    method GetScheduleJobs(policyId: int, fault: Option<string>) returns (r: Result<seq<RepJob>, string>)
      ensures fault.Some? ==> r == Err(fault.value)
      ensures fault.None? ==> r == Ok(ScheduleJobs(rows, policyId))
    {
      if fault.Some? {
        return Err(fault.value);
      }
      return Ok(ScheduleJobs(rows, policyId));
    }
  }

  predicate IdsIncreasing(rows: seq<RepJob>) {
    forall i, j :: 0 <= i < j < |rows| ==> rows[i].id < rows[j].id
  }

  lemma {:induction false} WithoutRowKeepsOrder(rows: seq<RepJob>, id: int)
    requires IdsIncreasing(rows)
    ensures IdsIncreasing(WithoutRow(rows, id))
  {
    if rows != [] {
      WithoutRowKeepsOrder(rows[1..], id);
      var tail := WithoutRow(rows[1..], id);
      forall x | x in tail ensures rows[0].id < x.id {
        var k :| 0 <= k < |rows[1..]| && rows[1..][k] == x;
        assert rows[k + 1] == x;
      }
      if rows[0].id != id {
        ConsIncreasing(rows[0], tail);
      } else {
        assert WithoutRow(rows, id) == tail;
      }
    }
  }

  /** A row numbered below every row of an increasing sequence can head it. */
  lemma ConsIncreasing(a: RepJob, t: seq<RepJob>)
    requires IdsIncreasing(t)
    requires forall x :: x in t ==> a.id < x.id
    ensures IdsIncreasing([a] + t)
  {
    var r := [a] + t;
    forall i, j | 0 <= i < j < |r| ensures r[i].id < r[j].id {
      assert r[j] == t[j - 1];
      if i > 0 {
        assert r[i] == t[i - 1];
      } else {
        assert t[j - 1] in t;
      }
    }
  }

  // ---------------------------------------------------------------------
  // Setup
  // ---------------------------------------------------------------------

  /** Setup: an unsupported schedule type fails before anything is written;
      otherwise a schedule row is added, the periodic job submitted, and the
      job's uuid stored on the row. A failed submission deletes the row
      again (a failing delete is only logged) and returns the submission
      error. */
  method Setup(param: ScheduleParam, store: RepJobStore, client: JobServiceClient, faults: DbFaults,
               parseOfftime: int -> (int, int, int), coreUrl: string)
    returns (err: Option<string>)
    requires store.Valid()
    modifies store
    ensures store.Valid()
    ensures Cron(param, parseOfftime).Err? ==>
              err == Some(Cron(param, parseOfftime).error) && store.rows == old(store.rows)
    ensures Cron(param, parseOfftime).Ok? && faults.addRepJob.Some? ==>
              err == faults.addRepJob && store.rows == old(store.rows)
    ensures Cron(param, parseOfftime).Ok? && faults.addRepJob.None? ==>
              var id := old(store.nextId);
              var row := RepJob(id, "N/A", param.policyId, RepOpSchedule, "");
              var added := old(store.rows) + [row];
              var submitted := client.submitJob(SubmittedJob(param, Cron(param, parseOfftime).value, coreUrl, id));
              && (submitted.Err? ==>
                    err == Some(submitted.error)
                    && store.rows == if faults.deleteRepJob(id).Some? then added else old(store.rows))
              && (submitted.Ok? ==>
                    err == faults.setRepJobUuid
                    && store.rows == if faults.setRepJobUuid.Some? then added
                                     else WithUuid(added, id, submitted.value))
  {
    var cron := Cron(param, parseOfftime);
    if cron.Err? {
      return Some(cron.error);
    }
    var id, addErr := store.AddRepJob("N/A", param.policyId, RepOpSchedule, faults.addRepJob);
    if addErr.Some? {
      return addErr;
    }
    var submitted := client.submitJob(SubmittedJob(param, cron.value, coreUrl, id));
    if submitted.Err? {
      RollbackRestoresTable(old(store.rows), RepJob(id, "N/A", param.policyId, RepOpSchedule, ""));
      var _ := store.DeleteRepJob(id, faults.deleteRepJob(id));
      return Some(submitted.error);
    }
    err := store.SetRepJobUuid(id, submitted.value, faults.setRepJobUuid);
  }

  /** When the submission fails and the clean-up succeeds, the table is as
      before Setup. */
  lemma {:induction false} RollbackRestoresTable(rows: seq<RepJob>, row: RepJob)
    requires forall x :: x in rows ==> x.id < row.id
    ensures WithoutRow(rows + [row], row.id) == rows
  {
    if rows != [] {
      assert (rows + [row])[1..] == rows[1..] + [row];
      RollbackRestoresTable(rows[1..], row);
      assert [rows[0]] + rows[1..] == rows;
    } else {
      assert WithoutRow([row][1..], row.id) == [];
    }
  }

  // ---------------------------------------------------------------------
  // Unset
  // ---------------------------------------------------------------------

  /** A stop error that Unset tolerates: the job service does not know the
      job. */
  predicate StopTolerated(e: Option<ClientError>) {
    e.None? || (e.value.HttpError? && e.value.code == StatusNotFound)
  }

  function ClientMessage(e: ClientError): string {
    e.message
  }

  /** The stop-then-delete loop over `jobs`, from `rows`: the table left
      behind and the error that ended it. */
  function UnsetRun(rows: seq<RepJob>, jobs: seq<RepJob>, client: JobServiceClient, faults: DbFaults)
    : (r: (seq<RepJob>, Option<string>))
    ensures forall x :: x in r.0 ==> x in rows
    ensures forall x :: x in rows && x.id !in IdsOf(jobs) ==> x in r.0
    ensures IdsIncreasing(rows) ==> IdsIncreasing(r.0)
    decreases jobs
  {
    if jobs == [] then (rows, None)
    else
      var stopped := client.postAction(jobs[0].uuid, JobActionStop);
      if !StopTolerated(stopped) then (rows, Some(ClientMessage(stopped.value)))
      else if faults.deleteRepJob(jobs[0].id).Some? then (rows, faults.deleteRepJob(jobs[0].id))
      else
        var left := WithoutRow(rows, jobs[0].id);
        var r := UnsetRun(left, jobs[1..], client, faults);
        assert forall x :: x in jobs[1..] ==> x in jobs;
        assert IdsIncreasing(rows) ==> IdsIncreasing(r.0) by {
          if IdsIncreasing(rows) { WithoutRowKeepsOrder(rows, jobs[0].id); }
        }
        r
  }

  /** Unset: every schedule job of the policy, however many there are, is
      stopped and deleted in turn; a job the job service reports as not
      found is still deleted, any other stop error or a failing delete ends
      the loop. */
  method Unset(param: ScheduleParam, store: RepJobStore, client: JobServiceClient, faults: DbFaults)
    returns (err: Option<string>)
    requires store.Valid()
    modifies store
    ensures store.Valid() && store.nextId == old(store.nextId)
    ensures faults.getRepJobs.Some? ==> err == faults.getRepJobs && store.rows == old(store.rows)
    ensures faults.getRepJobs.None? ==>
              (store.rows, err) == UnsetRun(old(store.rows), ScheduleJobs(old(store.rows), param.policyId), client, faults)
  {
    var query := store.GetScheduleJobs(param.policyId, faults.getRepJobs);
    if query.Err? {
      return Some(query.error);
    }
    var jobs := query.value;
    var i := 0;
    while i < |jobs|
      invariant 0 <= i <= |jobs| && store.Valid() && store.nextId == old(store.nextId)
      invariant UnsetRun(old(store.rows), jobs, client, faults) == UnsetRun(store.rows, jobs[i..], client, faults)
    {
      var j := jobs[i];
      assert jobs[i..][1..] == jobs[i + 1..];
      var stopped := client.postAction(j.uuid, JobActionStop);
      if stopped.Some? {
        if !(stopped.value.HttpError? && stopped.value.code == StatusNotFound) {
          return Some(ClientMessage(stopped.value));
        }
      }
      err := store.DeleteRepJob(j.id, faults.deleteRepJob(j.id));
      if err.Some? {
        return err;
      }
      i := i + 1;
    }
    return None;
  }

  /** When every stop is tolerated and every delete succeeds, Unset ends
      without error and removes exactly the jobs it was given. */
  lemma {:induction false} UnsetRemovesAll(rows: seq<RepJob>, jobs: seq<RepJob>, client: JobServiceClient, faults: DbFaults)
    requires forall x :: x in jobs ==>
               StopTolerated(client.postAction(x.uuid, JobActionStop)) && faults.deleteRepJob(x.id).None?
    ensures UnsetRun(rows, jobs, client, faults).1 == None
    ensures forall x :: x in UnsetRun(rows, jobs, client, faults).0 <==> x in rows && x.id !in IdsOf(jobs)
    decreases jobs
  {
    if jobs != [] {
      assert jobs[0] in jobs;
      forall x | x in jobs[1..] ensures x in jobs { }
      UnsetRemovesAll(WithoutRow(rows, jobs[0].id), jobs[1..], client, faults);
      assert IdsOf(jobs) == {jobs[0].id} + IdsOf(jobs[1..]) by {
        forall x | x in jobs ensures x == jobs[0] || x in jobs[1..] {
          var k :| 0 <= k < |jobs| && jobs[k] == x;
          if k > 0 { assert jobs[1..][k - 1] == x; }
        }
      }
    }
  }

  /** With the schedule jobs of a policy, that leaves exactly the rows that
      are not schedule jobs of the policy. */
  lemma UnsetClearsPolicySchedules(rows: seq<RepJob>, policyId: int, client: JobServiceClient, faults: DbFaults)
    requires IdsIncreasing(rows)
    requires forall x :: x in ScheduleJobs(rows, policyId) ==>
               StopTolerated(client.postAction(x.uuid, JobActionStop)) && faults.deleteRepJob(x.id).None?
    ensures var (left, err) := UnsetRun(rows, ScheduleJobs(rows, policyId), client, faults);
            && err == None
            && forall x :: x in left <==> x in rows && !IsScheduleJobOf(x, policyId)
  {
    var jobs := ScheduleJobs(rows, policyId);
    UnsetRemovesAll(rows, jobs, client, faults);
    forall x | x in rows && x.id in IdsOf(jobs) ensures IsScheduleJobOf(x, policyId) {
      var y :| y in jobs && y.id == x.id;
      var a :| 0 <= a < |rows| && rows[a] == x;
      var b :| 0 <= b < |rows| && rows[b] == y;
      if a < b { assert rows[a].id < rows[b].id; } else if b < a { assert rows[b].id < rows[a].id; }
    }
  }

  /** A stop error other than "not found" ends Unset before the job's row
      is deleted, leaving the table as it was. */
  lemma StopErrorKeepsRow(rows: seq<RepJob>, jobs: seq<RepJob>, client: JobServiceClient, faults: DbFaults)
    requires jobs != [] && !StopTolerated(client.postAction(jobs[0].uuid, JobActionStop))
    ensures UnsetRun(rows, jobs, client, faults) == (rows, Some(client.postAction(jobs[0].uuid, JobActionStop).value.message))
  {
  }
}

/**
 Job admission, attempts, release of the concurrency slot and the job hash, as the API, the worker
 and the runner share them through Redis. Every method is one step; steps of different jobs and
 services interleave freely.
 */
module Quota {
  datatype Principal = Principal(tenant: string, maxConcurrent: nat, maxDaily: nat)

  datatype Refusal = MaxConcurrentJobs | MaxDailyJobs

  datatype Reservation = Allowed(activeJobs: nat, dailyJobs: nat) | Refused(reason: Refusal, activeJobs: nat, dailyJobs: nat)

  datatype Status = Queued | RunningNow | Retrying | Dispatched | Succeeded | Failed

  /** The fields of the job hash that the steps overwrite. */
  datatype Record = Record(status: Status, attemptsMade: nat)

  type Records = map<string, Record>

  /** Overwrites the status and leaves the number of attempts. */
  function Marked(records: Records, id: string, status: Status): Records {
    records[id := Record(status, if id in records then records[id].attemptsMade else 0)]
  }

  datatype Stage =
    | Reserved                   // slot taken, not enqueued yet
    | Cancelled                  // the submission failed and the slot was rolled back
    | Waiting(made: nat)         // in the queue, perhaps delayed, with `made` failed attempts
    | Running(made: nat)         // an attempt is under way
    | Completing                 // the worker has written the result and has yet to release the slot
    | InTask(reported: bool)     // a runner task was started; `reported` once it has written its result
    | Exhausted(recorded: bool)  // the last attempt failed; `recorded` once the failure is in the hash
    | Finished                   // the slot was released
  {
    /** The job has an enqueued, running or unfinished life that owns a slot. */
    predicate Holds() { !Cancelled? && !Finished? }

    /** Everything but giving the slot back has been done. */
    predicate Releasable() { Completing? || (InTask? && reported) || (Exhausted? && recorded) }
  }

  /**
   One admitted job. `notes` are the failed attempts whose retry has yet to be written to the hash,
   `undispatched` says that a started task has yet to be, and `releases` counts released slots.
   */
  datatype Job = Job(tenant: string, date: string, attempts: nat, stage: Stage,
                     notes: set<nat>, undispatched: bool, releases: nat, rollbacks: nat)

  type Jobs = map<string, Job>

  function NewJob(p: Principal, date: string, attempts: nat): Job {
    Job(p.tenant, date, attempts, Reserved, {}, false, 0, 0)
  }

  function Count<K>(m: map<K, nat>, k: K): nat { if k in m then m[k] else 0 }

  /** One less, unless nothing is left. */
  function Less<K>(m: map<K, nat>, k: K): map<K, nat> { if Count(m, k) > 0 then m[k := m[k] - 1] else m }

  function Holders(jobs: Jobs, tenant: string): set<string> {
    set id | id in jobs && jobs[id].tenant == tenant && jobs[id].stage.Holds()
  }

  /** The jobs that count against a day: everything admitted that day and not rolled back. */
  function Counted(jobs: Jobs, tenant: string, date: string): set<string> {
    set id | id in jobs && jobs[id].tenant == tenant && jobs[id].date == date && !jobs[id].stage.Cancelled?
  }

  function One(b: bool): nat { if b then 1 else 0 }

  predicate HoldsFor(jobs: Jobs, id: string, tenant: string) {
    id in jobs && jobs[id].tenant == tenant && jobs[id].stage.Holds()
  }

  predicate CountsFor(jobs: Jobs, id: string, tenant: string, date: string) {
    id in jobs && jobs[id].tenant == tenant && jobs[id].date == date && !jobs[id].stage.Cancelled?
  }

  lemma ExceptOne(before: set<string>, after: set<string>, id: string)
    requires before - {id} == after - {id}
    ensures |after| + One(id in before) == |before| + One(id in after)
  {
    assert before == if id in before then (before - {id}) + {id} else before - {id};
    assert after == if id in after then (after - {id}) + {id} else after - {id};
  }

  /** Changing one job changes a tenant's holders by that job only. */
  lemma HoldersAfter(jobs: Jobs, id: string, j: Job, tenant: string)
    ensures |Holders(jobs[id := j], tenant)| + One(HoldsFor(jobs, id, tenant))
            == |Holders(jobs, tenant)| + One(j.tenant == tenant && j.stage.Holds())
  {
    var before, after := Holders(jobs, tenant), Holders(jobs[id := j], tenant);
    assert before - {id} == after - {id};
    ExceptOne(before, after, id);
  }

  lemma CountedAfter(jobs: Jobs, id: string, j: Job, tenant: string, date: string)
    ensures |Counted(jobs[id := j], tenant, date)| + One(CountsFor(jobs, id, tenant, date))
            == |Counted(jobs, tenant, date)| + One(j.tenant == tenant && j.date == date && !j.stage.Cancelled?)
  {
    var before, after := Counted(jobs, tenant, date), Counted(jobs[id := j], tenant, date);
    assert before - {id} == after - {id};
    ExceptOne(before, after, id);
  }

  // ---------------------------------------------------------------- the invariant

  ghost predicate SlotsCounted(active: map<string, nat>, jobs: Jobs) {
    forall t :: Count(active, t) == |Holders(jobs, t)|
  }

  ghost predicate DaysCounted(daily: map<(string, string), nat>, jobs: Jobs) {
    forall t, d :: Count(daily, (t, d)) == |Counted(jobs, t, d)|
  }

  /** `n` is within the largest limit of the tenant's principals. */
  ghost predicate WithinConcurrent(n: nat, tenant: string, principals: set<Principal>) {
    n == 0 || exists p :: p in principals && p.tenant == tenant && n <= p.maxConcurrent
  }

  ghost predicate WithinDaily(n: nat, tenant: string, principals: set<Principal>) {
    n == 0 || exists p :: p in principals && p.tenant == tenant && n <= p.maxDaily
  }

  ghost predicate LimitsKept(active: map<string, nat>, daily: map<(string, string), nat>, principals: set<Principal>) {
    && (forall t :: WithinConcurrent(Count(active, t), t, principals))
    && (forall t, d :: WithinDaily(Count(daily, (t, d)), t, principals))
  }

  /** Each job is released or rolled back at most once, and only as its last step. */
  predicate JobOk(j: Job) {
    && j.releases == One(j.stage.Finished?) && j.rollbacks == One(j.stage.Cancelled?)
    && j.attempts > 0 && (j.stage.Waiting? || j.stage.Running? ==> j.stage.made < j.attempts)
    && (j.undispatched ==> j.stage.InTask? || j.stage.Finished?)
    && (j.stage.Reserved? || j.stage.Cancelled? ==> j.notes == {})
  }

  /** A change to one job that keeps its place in the counts. */
  predicate SameCounts(a: Job, b: Job) {
    a.tenant == b.tenant && a.date == b.date && a.stage.Holds() == b.stage.Holds() && a.stage.Cancelled? == b.stage.Cancelled?
  }

  lemma SameCountsKeep(active: map<string, nat>, daily: map<(string, string), nat>, jobs: Jobs, id: string, j: Job)
    requires SlotsCounted(active, jobs) && DaysCounted(daily, jobs)
    requires id in jobs && SameCounts(jobs[id], j)
    ensures SlotsCounted(active, jobs[id := j]) && DaysCounted(daily, jobs[id := j])
  {
    forall t ensures Count(active, t) == |Holders(jobs[id := j], t)| { HoldersAfter(jobs, id, j, t); }
    forall t, d ensures Count(daily, (t, d)) == |Counted(jobs[id := j], t, d)| { CountedAfter(jobs, id, j, t, d); }
  }

  // ---------------------------------------------------------------- conservation

  function Admitted(jobs: Jobs, tenant: string): set<string> { set id | id in jobs && jobs[id].tenant == tenant }

  function RolledBack(jobs: Jobs, tenant: string): set<string> {
    set id | id in jobs && jobs[id].tenant == tenant && jobs[id].rollbacks > 0
  }

  function Released(jobs: Jobs, tenant: string): set<string> {
    set id | id in jobs && jobs[id].tenant == tenant && jobs[id].releases > 0
  }

  lemma SplitInThree(all: set<string>, a: set<string>, b: set<string>, c: set<string>)
    requires a <= all && b <= all && c <= all
    requires forall x :: x in all ==> One(x in a) + One(x in b) + One(x in c) == 1
    ensures |all| == |a| + |b| + |c|
  {
    assert all == a + b + c;
    assert a !! b && (a + b) !! c;
  }

  /** A tenant's counter is what was admitted, less what was rolled back and what was released. */
  lemma Conservation(active: map<string, nat>, jobs: Jobs, tenant: string)
    requires SlotsCounted(active, jobs) && forall id :: id in jobs ==> JobOk(jobs[id])
    ensures Count(active, tenant) == |Admitted(jobs, tenant)| - |RolledBack(jobs, tenant)| - |Released(jobs, tenant)|
    ensures forall id :: id in jobs ==> jobs[id].releases + jobs[id].rollbacks <= 1
  {
    var holding, back, gone := Holders(jobs, tenant), RolledBack(jobs, tenant), Released(jobs, tenant);
    forall id | id in Admitted(jobs, tenant)
      ensures One(id in holding) + One(id in back) + One(id in gone) == 1
    {
      assert JobOk(jobs[id]);
    }
    SplitInThree(Admitted(jobs, tenant), holding, back, gone);
  }

  // ---------------------------------------------------------------- steps as a function

  /** What the services share: the two counters, the job hashes and where every admitted job stands. */
  datatype State = State(active: map<string, nat>, daily: map<(string, string), nat>, records: Records, jobs: Jobs)

  datatype Step =
    | SubmitJob(p: Principal, date: string, id: string, attempts: nat)
    | EnqueueJob(id: string)
    | CancelJob(id: string)
    | StartJob(id: string)
    | FailJob(id: string)
    | RetryNote(id: string, made: nat)
    | LocalResult(id: string, ok: bool)
    | TaskStart(id: string)
    | DispatchNote(id: string)
    | TaskResult(id: string, ok: bool)
    | FailureNote(id: string)
    | Give(id: string)

  function Submitted(s: State, p: Principal, date: string, id: string, attempts: nat): State {
    var n, d := Count(s.active, p.tenant), Count(s.daily, (p.tenant, date));
    if id in s.jobs || attempts == 0 || n >= p.maxConcurrent || d >= p.maxDaily then s
    else s.(active := s.active[p.tenant := n + 1], daily := s.daily[(p.tenant, date) := d + 1],
            jobs := s.jobs[id := NewJob(p, date, attempts)])
  }

  /** What a step of a known job makes of the state; a step that is not due changes nothing. */
  function Stepped(s: State, step: Step, id: string, j: Job): State {
    match step
    case EnqueueJob(_) =>
      if j.stage.Reserved? then
        s.(jobs := s.jobs[id := j.(stage := Waiting(0))], records := s.records[id := Record(Queued, 0)])
      else s
    case CancelJob(_) =>
      if j.stage.Reserved? then
        State(Less(s.active, j.tenant), Less(s.daily, (j.tenant, j.date)), s.records - {id},
              s.jobs[id := j.(stage := Cancelled, rollbacks := j.rollbacks + 1)])
      else s
    case StartJob(_) =>
      if j.stage.Waiting? then
        s.(jobs := s.jobs[id := j.(stage := Running(j.stage.made))],
           records := s.records[id := Record(RunningNow, j.stage.made + 1)])
      else s
    case FailJob(_) =>
      if j.stage.Running? then
        var made := j.stage.made + 1;
        s.(jobs := s.jobs[id := if made < j.attempts then j.(stage := Waiting(made), notes := j.notes + {made})
                                else j.(stage := Exhausted(false))])
      else s
    case RetryNote(_, made) =>
      if made in j.notes then
        s.(jobs := s.jobs[id := j.(notes := j.notes - {made})],
           records := s.records[id := Record(Retrying, if made > 1 then made else 1)])
      else s
    case Give(_) =>
      if j.stage.Releasable() then
        s.(active := Less(s.active, j.tenant), jobs := s.jobs[id := j.(stage := Finished, releases := j.releases + 1)])
      else s
    case _ => Marking(s, step, id, j)
  }

  function Marking(s: State, step: Step, id: string, j: Job): State {
    match step
    case LocalResult(_, ok) =>
      if j.stage.Running? then Overwritten(s, id, j.(stage := Completing), ResultStatus(ok)) else s
    case TaskStart(_) =>
      if j.stage.Running? then s.(jobs := s.jobs[id := j.(stage := InTask(false), undispatched := true)]) else s
    case DispatchNote(_) =>
      if j.undispatched then Overwritten(s, id, j.(undispatched := false), Dispatched) else s
    case TaskResult(_, ok) =>
      if j.stage == InTask(false) then Overwritten(s, id, j.(stage := InTask(true)), ResultStatus(ok)) else s
    case FailureNote(_) =>
      if j.stage == Exhausted(false) then Overwritten(s, id, j.(stage := Exhausted(true)), Failed) else s
    case _ => s
  }

  function ResultStatus(ok: bool): Status { if ok then Succeeded else Failed }

  function Overwritten(s: State, id: string, j: Job, status: Status): State {
    s.(jobs := s.jobs[id := j], records := Marked(s.records, id, status))
  }

  function Next(s: State, step: Step): State {
    match step
    case SubmitJob(p, date, id, attempts) => Submitted(s, p, date, id, attempts)
    case _ => if step.id in s.jobs then Stepped(s, step, step.id, s.jobs[step.id]) else s
  }

  function After(s: State, steps: seq<Step>): State {
    if steps == [] then s else Next(After(s, steps[..|steps| - 1]), steps[|steps| - 1])
  }

  // ---------------------------------------------------------------- what every continuation keeps

  /** The job's outcome is written and nothing else about it is still to be written. */
  predicate Settled(j: Job) {
    (j.stage.Finished? || j.stage.Releasable()) && j.notes == {} && !j.undispatched
  }

  /** Whose job it is stays; a slot given back stays given back; a settled job's hash is not overwritten. */
  ghost predicate Onward(s: State, s': State, id: string) {
    id in s.jobs ==>
      && id in s'.jobs
      && s'.jobs[id].tenant == s.jobs[id].tenant && s'.jobs[id].date == s.jobs[id].date
      && (!s.jobs[id].stage.Holds() ==> s'.jobs[id].stage == s.jobs[id].stage)
      && (!s.jobs[id].stage.Holds() ==> s'.jobs[id].releases == s.jobs[id].releases)
      && (Settled(s.jobs[id]) ==> Settled(s'.jobs[id]) && SameRecord(s, s', id))
  }

  predicate SameRecord(s: State, s': State, id: string) {
    id in s.records ==> id in s'.records && s'.records[id] == s.records[id]
  }

  lemma MarkingGoesOn(s: State, step: Step, key: string, id: string)
    requires key in s.jobs
    ensures Onward(s, Marking(s, step, key, s.jobs[key]), id)
  {
  }

  lemma StepGoesOn(s: State, step: Step, id: string)
    ensures Onward(s, Next(s, step), id)
  {
    hide Marking, Less;
    if !step.SubmitJob? && step.id in s.jobs { MarkingGoesOn(s, step, step.id, id); }
  }

  lemma {:induction false} RunGoesOn(s: State, steps: seq<Step>, id: string)
    ensures Onward(s, After(s, steps), id)
  {
    hide Next, Settled;
    if steps != [] {
      var earlier := steps[..|steps| - 1];
      RunGoesOn(s, earlier, id);
      StepGoesOn(After(s, earlier), steps[|steps| - 1], id);
    }
  }

  predicate TerminalStatus(s: State, id: string) {
    id in s.records && (s.records[id].status.Succeeded? || s.records[id].status.Failed?)
  }

  /** The job's hash is the same after every continuation. */
  ghost predicate Survives(s: State, id: string) {
    forall steps: seq<Step> :: SameRecord(s, After(s, steps), id)
  }

  /**
   The terminal status of a job whose outcome is written survives every continuation exactly when
   the job is settled: a retry or dispatch still to be noted overwrites it.
   */
  lemma TerminalStatusSurvivesExactlyWhenSettled(s: State, id: string)
    requires id in s.jobs && (s.jobs[id].stage.Finished? || s.jobs[id].stage.Releasable()) && TerminalStatus(s, id)
    ensures Survives(s, id) <==> Settled(s.jobs[id])
  {
    forall steps: seq<Step> | Settled(s.jobs[id]) ensures SameRecord(s, After(s, steps), id) { RunGoesOn(s, steps, id); }
    if s.jobs[id].undispatched {
      OneStep(s, DispatchNote(id));
      assert !SameRecord(s, After(s, [DispatchNote(id)]), id);
    } else if s.jobs[id].notes != {} {
      var made :| made in s.jobs[id].notes;
      OneStep(s, RetryNote(id, made));
      assert !SameRecord(s, After(s, [RetryNote(id, made)]), id);
    }
  }

  lemma OneStep(s: State, step: Step)
    ensures After(s, [step]) == Next(s, step)
  {
    assert [step][..0] == [];
  }

  // ---------------------------------------------------------------- whole lives of a job

  /** One tenant's slots and one day's places, as the counters have them. */
  predicate Counters(s: State, tenant: string, date: string, slots: nat, places: nat) {
    && (if tenant in s.active then s.active[tenant] == slots else slots == 0)
    && (if (tenant, date) in s.daily then s.daily[(tenant, date)] == places else places == 0)
  }

  predicate HasRecord(s: State, id: string, status: Status, made: nat) {
    id in s.records && s.records[id].status == status && s.records[id].attemptsMade == made
  }

  predicate AtStage(s: State, id: string, stage: Stage) { id in s.jobs && s.jobs[id].stage == stage }

  /** The job's attempt after `made` failed ones runs, and the hash says so. */
  predicate Attempts(s: State, id: string, made: nat) {
    AtStage(s, id, Running(made)) && HasRecord(s, id, RunningNow, made + 1)
  }

  predicate Is(s: State, id: string, tenant: string, date: string, attempts: nat) {
    id in s.jobs && s.jobs[id].tenant == tenant && s.jobs[id].date == date && s.jobs[id].attempts == attempts
  }

  /** Two states that differ in one job's hash, stage and counters only. */
  ghost predicate OthersKept(s: State, s': State, id: string, tenant: string, date: string) {
    && (forall k :: k != id ==> (k in s'.jobs <==> k in s.jobs) && (k in s.jobs ==> s'.jobs[k] == s.jobs[k]))
    && (forall k :: k != id ==> (k in s'.records <==> k in s.records) && (k in s.records ==> s'.records[k] == s.records[k]))
    && (forall t :: t != tenant ==> (t in s'.active <==> t in s.active) && (t in s.active ==> s'.active[t] == s.active[t]))
    && (forall d :: d != (tenant, date) ==> (d in s'.daily <==> d in s.daily) && (d in s.daily ==> s'.daily[d] == s.daily[d]))
  }

  /** A job is submitted below both limits, enqueued and started: one slot, one place, its first attempt runs. */
  lemma SubmittedJobRuns(s: State, p: Principal, date: string, id: string, attempts: nat, n: nat, d: nat)
    requires id !in s.jobs && attempts > 0 && Counters(s, p.tenant, date, n, d) && n < p.maxConcurrent && d < p.maxDaily
    ensures var s1 := Next(s, SubmitJob(p, date, id, attempts));
            var s2 := Next(s1, EnqueueJob(id));
            var s3 := Next(s2, StartJob(id));
      && Counters(s1, p.tenant, date, n + 1, d + 1) && s1.records == s.records
      && Counters(s2, p.tenant, date, n + 1, d + 1) && HasRecord(s2, id, Queued, 0)
      && Counters(s3, p.tenant, date, n + 1, d + 1) && Attempts(s3, id, 0)
      && OthersKept(s, s3, id, p.tenant, date) && Is(s3, id, p.tenant, date, attempts)
  {
  }

  /** At a limit, or for an id that is taken, a submission changes nothing. */
  lemma RefusedSubmission(s: State, p: Principal, date: string, id: string, attempts: nat, n: nat, d: nat)
    requires Counters(s, p.tenant, date, n, d) && (n >= p.maxConcurrent || d >= p.maxDaily || id in s.jobs)
    ensures Next(s, SubmitJob(p, date, id, attempts)) == s
  {
  }

  /** A submission that is cancelled before it is enqueued leaves the counters as they were, and no hash. */
  lemma CancelledSubmission(s: State, p: Principal, date: string, id: string, attempts: nat, n: nat, d: nat)
    requires id !in s.jobs && attempts > 0 && Counters(s, p.tenant, date, n, d) && n < p.maxConcurrent && d < p.maxDaily
    ensures var s2 := Next(Next(s, SubmitJob(p, date, id, attempts)), CancelJob(id));
      && Counters(s2, p.tenant, date, n, d) && OthersKept(s, s2, id, p.tenant, date)
      && id !in s2.records && AtStage(s2, id, Cancelled)
  {
  }

  /** A running attempt that ends locally: its result is in the hash, then its slot is given back, once. */
  lemma LocalEnd(s: State, id: string, made: nat, ok: bool, tenant: string, date: string, attempts: nat, n: nat, d: nat)
    requires Attempts(s, id, made) && Is(s, id, tenant, date, attempts) && n > 0 && Counters(s, tenant, date, n, d)
    ensures var s1 := Next(s, LocalResult(id, ok));
            var s2 := Next(s1, Give(id));
      && HasRecord(s1, id, if ok then Succeeded else Failed, made + 1) && Counters(s1, tenant, date, n, d)
      && HasRecord(s2, id, if ok then Succeeded else Failed, made + 1) && Counters(s2, tenant, date, n - 1, d)
      && OthersKept(s, s2, id, tenant, date) && AtStage(s2, id, Finished) && Next(s2, Give(id)) == s2
  {
  }

  /** A running attempt handed to a task that reports after the dispatch is noted. */
  lemma TaskEnd(s: State, id: string, made: nat, ok: bool, tenant: string, date: string, attempts: nat, n: nat, d: nat)
    requires Attempts(s, id, made) && Is(s, id, tenant, date, attempts) && n > 0 && Counters(s, tenant, date, n, d)
    ensures var s2 := Next(Next(s, TaskStart(id)), DispatchNote(id));
            var s3 := Next(s2, TaskResult(id, ok));
            var s4 := Next(s3, Give(id));
      && HasRecord(s2, id, Dispatched, made + 1) && Counters(s2, tenant, date, n, d) && Next(s2, Give(id)) == s2
      && HasRecord(s3, id, if ok then Succeeded else Failed, made + 1) && Counters(s3, tenant, date, n, d)
      && HasRecord(s4, id, if ok then Succeeded else Failed, made + 1) && Counters(s4, tenant, date, n - 1, d)
      && OthersKept(s, s4, id, tenant, date) && AtStage(s4, id, Finished) && Next(s4, Give(id)) == s4
  {
  }

  /** The last attempt fails: the failure is in the hash before the slot is given back. */
  lemma LastAttemptFails(s: State, id: string, tenant: string, date: string, attempts: nat, n: nat, d: nat)
    requires attempts > 0 && Attempts(s, id, attempts - 1) && Is(s, id, tenant, date, attempts)
    requires n > 0 && Counters(s, tenant, date, n, d)
    ensures var s1 := Next(s, FailJob(id));
            var s2 := Next(s1, FailureNote(id));
            var s3 := Next(s2, Give(id));
      && s1.records == s.records && Next(s1, Give(id)) == s1
      && HasRecord(s2, id, Failed, attempts) && Counters(s2, tenant, date, n, d)
      && HasRecord(s3, id, Failed, attempts) && Counters(s3, tenant, date, n - 1, d)
      && OthersKept(s, s3, id, tenant, date) && AtStage(s3, id, Finished) && Next(s3, Give(id)) == s3
  {
  }

  /** An attempt fails with attempts left: the hash says retrying, the slot is kept and the next attempt can start. */
  lemma RetriedAttempt(s: State, id: string, made: nat, tenant: string, date: string, attempts: nat, n: nat, d: nat)
    requires Attempts(s, id, made) && Is(s, id, tenant, date, attempts) && made + 1 < attempts
    requires Counters(s, tenant, date, n, d)
    ensures var s1 := Next(s, FailJob(id));
            var s2 := Next(s1, RetryNote(id, made + 1));
            var s3 := Next(s2, StartJob(id));
      && s1.records == s.records && Next(s1, Give(id)) == s1 && HasRecord(s2, id, Retrying, made + 1)
      && Attempts(s3, id, made + 1) && Is(s3, id, tenant, date, attempts)
      && Counters(s3, tenant, date, n, d) && OthersKept(s, s3, id, tenant, date)
  {
  }

  /** Failed attempts, each noted before the next one starts. */
  function Retries(id: string, rounds: nat): seq<Step> {
    if rounds == 0 then [] else Retries(id, rounds - 1) + [FailJob(id), RetryNote(id, rounds), StartJob(id)]
  }

  /** Enqueued and started once, then failed `rounds` times. */
  function Attempted(p: Principal, date: string, id: string, attempts: nat, rounds: nat): seq<Step> {
    [SubmitJob(p, date, id, attempts), EnqueueJob(id), StartJob(id)] + Retries(id, rounds)
  }

  lemma {:induction false} AfterConcat(s: State, a: seq<Step>, b: seq<Step>)
    ensures After(s, a + b) == After(After(s, a), b)
  {
    if b == [] {
      assert a + b == a;
    } else {
      AfterConcat(s, a, b[..|b| - 1]);
      assert (a + b)[..|a + b| - 1] == a + b[..|b| - 1];
    }
  }

  lemma AfterTwo(s: State, a: Step, b: Step)
    ensures After(s, [a, b]) == Next(Next(s, a), b)
  {
    hide Next;
    AfterConcat(s, [a], [b]);
    OneStep(s, a);
    OneStep(Next(s, a), b);
    assert [a] + [b] == [a, b];
  }

  lemma AfterThree(s: State, a: Step, b: Step, c: Step)
    ensures After(s, [a, b, c]) == Next(Next(Next(s, a), b), c)
  {
    hide Next;
    AfterConcat(s, [a, b], [c]);
    AfterTwo(s, a, b);
    OneStep(Next(Next(s, a), b), c);
    assert [a, b] + [c] == [a, b, c];
  }

  /** However often a job is retried, its slot and place are taken once and the hash counts the attempts. */
  lemma {:induction false} AttemptedRuns(s: State, p: Principal, date: string, id: string, attempts: nat, rounds: nat,
                                         n: nat, d: nat)
    requires id !in s.jobs && Counters(s, p.tenant, date, n, d) && n < p.maxConcurrent && d < p.maxDaily && rounds < attempts
    ensures var s' := After(s, Attempted(p, date, id, attempts, rounds));
      && Attempts(s', id, rounds) && Is(s', id, p.tenant, date, attempts)
      && Counters(s', p.tenant, date, n + 1, d + 1) && OthersKept(s, s', id, p.tenant, date)
    decreases rounds
  {
    hide Next, Attempts, Is, Counters, After;
    if rounds == 0 {
      SubmittedJobRuns(s, p, date, id, attempts, n, d);
      AfterThree(s, SubmitJob(p, date, id, attempts), EnqueueJob(id), StartJob(id));
      assert Attempted(p, date, id, attempts, 0) == [SubmitJob(p, date, id, attempts), EnqueueJob(id), StartJob(id)];
    } else {
      var earlier, round := Attempted(p, date, id, attempts, rounds - 1), [FailJob(id), RetryNote(id, rounds), StartJob(id)];
      AttemptedRuns(s, p, date, id, attempts, rounds - 1, n, d);
      RetriedAttempt(After(s, earlier), id, rounds - 1, p.tenant, date, attempts, n + 1, d + 1);
      AfterThree(After(s, earlier), FailJob(id), RetryNote(id, rounds), StartJob(id));
      AfterConcat(s, earlier, round);
      assert Attempted(p, date, id, attempts, rounds) == earlier + round;
    }
  }

  /**
   A whole life on the worker: admitted, retried any number of times within its attempts and
   completed. The result is in the hash with the number of the attempt that gave it, the slot is
   free again, the day has one more job, and nothing else has changed.
   */
  lemma LocalLife(s: State, p: Principal, date: string, id: string, attempts: nat, rounds: nat, ok: bool, n: nat, d: nat)
    requires id !in s.jobs && Counters(s, p.tenant, date, n, d) && n < p.maxConcurrent && d < p.maxDaily && rounds < attempts
    ensures var s' := After(s, Attempted(p, date, id, attempts, rounds) + [LocalResult(id, ok), Give(id)]);
      && HasRecord(s', id, if ok then Succeeded else Failed, rounds + 1) && AtStage(s', id, Finished)
      && Counters(s', p.tenant, date, n, d + 1) && OthersKept(s, s', id, p.tenant, date)
  {
    hide Next, Attempts, Is, Counters, After, Attempted, HasRecord, AtStage;
    var earlier := Attempted(p, date, id, attempts, rounds);
    AttemptedRuns(s, p, date, id, attempts, rounds, n, d);
    LocalEnd(After(s, earlier), id, rounds, ok, p.tenant, date, attempts, n + 1, d + 1);
    AfterTwo(After(s, earlier), LocalResult(id, ok), Give(id));
    AfterConcat(s, earlier, [LocalResult(id, ok), Give(id)]);
  }

  /** A whole life that ends in a runner: after its result the runner gives the slot back. */
  lemma TaskLife(s: State, p: Principal, date: string, id: string, attempts: nat, rounds: nat, ok: bool, n: nat, d: nat)
    requires id !in s.jobs && Counters(s, p.tenant, date, n, d) && n < p.maxConcurrent && d < p.maxDaily && rounds < attempts
    ensures var s' := After(s, Attempted(p, date, id, attempts, rounds)
                               + ([TaskStart(id), DispatchNote(id)] + [TaskResult(id, ok), Give(id)]));
      && HasRecord(s', id, if ok then Succeeded else Failed, rounds + 1) && AtStage(s', id, Finished)
      && Counters(s', p.tenant, date, n, d + 1) && OthersKept(s, s', id, p.tenant, date)
  {
    hide Next, Attempts, Is, Counters, After, Attempted, HasRecord, AtStage;
    var earlier := Attempted(p, date, id, attempts, rounds);
    AttemptedRuns(s, p, date, id, attempts, rounds, n, d);
    var s1 := After(s, earlier);
    TaskEnd(s1, id, rounds, ok, p.tenant, date, attempts, n + 1, d + 1);
    AfterTwo(s1, TaskStart(id), DispatchNote(id));
    AfterTwo(Next(Next(s1, TaskStart(id)), DispatchNote(id)), TaskResult(id, ok), Give(id));
    AfterConcat(s1, [TaskStart(id), DispatchNote(id)], [TaskResult(id, ok), Give(id)]);
    AfterConcat(s, earlier, [TaskStart(id), DispatchNote(id)] + [TaskResult(id, ok), Give(id)]);
  }

  /** A whole life whose every attempt fails: the hash ends as failed with all attempts made. */
  lemma FailingLife(s: State, p: Principal, date: string, id: string, attempts: nat, n: nat, d: nat)
    requires id !in s.jobs && Counters(s, p.tenant, date, n, d) && n < p.maxConcurrent && d < p.maxDaily && attempts > 0
    ensures var s' := After(s, Attempted(p, date, id, attempts, attempts - 1) + [FailJob(id), FailureNote(id), Give(id)]);
      && HasRecord(s', id, Failed, attempts) && AtStage(s', id, Finished)
      && Counters(s', p.tenant, date, n, d + 1) && OthersKept(s, s', id, p.tenant, date)
  {
    hide Next, Attempts, Is, Counters, After, Attempted, HasRecord, AtStage;
    var earlier := Attempted(p, date, id, attempts, attempts - 1);
    AttemptedRuns(s, p, date, id, attempts, attempts - 1, n, d);
    LastAttemptFails(After(s, earlier), id, p.tenant, date, attempts, n + 1, d + 1);
    AfterThree(After(s, earlier), FailJob(id), FailureNote(id), Give(id));
    AfterConcat(s, earlier, [FailJob(id), FailureNote(id), Give(id)]);
  }

  // ---------------------------------------------------------------- the shared store

  class Backend {
    var active: map<string, nat>
    var daily: map<(string, string), nat>
    var records: Records
    var jobs: Jobs
    ghost var principals: set<Principal>

    ghost predicate Valid()
      reads this
    {
      && SlotsCounted(active, jobs) && DaysCounted(daily, jobs) && LimitsKept(active, daily, principals)
      && forall id :: id in jobs ==> JobOk(jobs[id])
    }

    function Now(): State
      reads this
    {
      State(active, daily, records, jobs)
    }

    constructor ()
      ensures Valid() && jobs == map[] && active == map[]
    {
      active, daily, records, jobs, principals := map[], map[], map[], map[], {};
      new;
      forall t ensures Holders(jobs, t) == {} { }
      forall t, d ensures Counted(jobs, t, d) == {} { }
    }

    // ------------------------------------------------------------ the scripts

    /** Takes a slot and a place in the day, or says which limit is reached. */
    method Reserve(p: Principal, date: string) returns (r: Reservation)
      modifies this`active, this`daily
      ensures var n, d := Count(old(active), p.tenant), Count(old(daily), (p.tenant, date));
        && (r.Allowed? <==> n < p.maxConcurrent && d < p.maxDaily)
        && r == (if n >= p.maxConcurrent then Refused(MaxConcurrentJobs, n, d)
                 else if d >= p.maxDaily then Refused(MaxDailyJobs, n, d)
                 else Allowed(n + 1, d + 1))
        && active == (if r.Allowed? then old(active)[p.tenant := n + 1] else old(active))
        && daily == (if r.Allowed? then old(daily)[(p.tenant, date) := d + 1] else old(daily))
    {
      var n := Count(active, p.tenant);
      if n >= p.maxConcurrent { return Refused(MaxConcurrentJobs, n, Count(daily, (p.tenant, date))); }
      var d := Count(daily, (p.tenant, date));
      if d >= p.maxDaily { return Refused(MaxDailyJobs, n, d); }
      active := active[p.tenant := n + 1];
      daily := daily[(p.tenant, date) := d + 1];
      r := Allowed(n + 1, d + 1);
    }

    /** Gives back a slot and a place in the day, neither below zero. */
    method Rollback(tenant: string, date: string)
      modifies this`active, this`daily
      ensures active == Less(old(active), tenant) && daily == Less(old(daily), (tenant, date))
    {
      if Count(active, tenant) > 0 { active := active[tenant := active[tenant] - 1]; }
      if Count(daily, (tenant, date)) > 0 { daily := daily[(tenant, date) := daily[(tenant, date)] - 1]; }
    }

    /** Gives back a slot, not below zero; the worker and the runner use the same script. */
    method Release(tenant: string)
      modifies this`active
      ensures active == Less(old(active), tenant)
    {
      if Count(active, tenant) > 0 { active := active[tenant := active[tenant] - 1]; }
    }

    // ------------------------------------------------------------ submission

    /** A submission takes its slot; `id` is new. */
    method Submit(p: Principal, date: string, id: string, attempts: nat) returns (r: Reservation)
      requires Valid() && id !in jobs && attempts > 0
      modifies this
      ensures Valid() && records == old(records)
      ensures r.Refused? ==> jobs == old(jobs) && active == old(active) && daily == old(daily)
      ensures r.Allowed? <==> Count(old(active), p.tenant) < p.maxConcurrent && Count(old(daily), (p.tenant, date)) < p.maxDaily
      ensures r.Allowed? ==>
                && jobs == old(jobs)[id := NewJob(p, date, attempts)]
                && active == old(active)[p.tenant := Count(old(active), p.tenant) + 1]
                && daily == old(daily)[(p.tenant, date) := Count(old(daily), (p.tenant, date)) + 1]
      ensures r.Allowed? ==> Count(active, p.tenant) == Count(old(active), p.tenant) + 1 <= p.maxConcurrent
    {
      r := Reserve(p, date);
      if r.Allowed? {
        var j := NewJob(p, date, attempts);
        AdmissionKeeps(old(active), old(daily), jobs, id, j);
        LimitsStay(old(active), old(daily), active, daily, principals, p);
        jobs := jobs[id := j];
        principals := principals + {p};
      }
    }

    /** The hash, the history entry and the queue entry are written. */
    method Enqueue(id: string)
      requires Valid()
      modifies this
      ensures Valid() && active == old(active) && daily == old(daily)
      ensures id in old(jobs) && old(jobs)[id].stage.Reserved? ==>
                && jobs == old(jobs)[id := old(jobs)[id].(stage := Waiting(0))]
                && records == old(records)[id := Record(Queued, 0)]
      ensures !(id in old(jobs) && old(jobs)[id].stage.Reserved?) ==> jobs == old(jobs) && records == old(records)
    {
      if id in jobs && jobs[id].stage.Reserved? {
        records := records[id := Record(Queued, 0)];
        SetStage(id, jobs[id].(stage := Waiting(0)));
      }
    }

    /** Writing or enqueueing failed: the reservation is rolled back and the hash deleted. */
    method CancelSubmission(id: string)
      requires Valid()
      modifies this
      ensures Valid()
      ensures id in old(jobs) && old(jobs)[id].stage.Reserved? ==>
                var j := old(jobs)[id];
                && jobs == old(jobs)[id := j.(stage := Cancelled, rollbacks := j.rollbacks + 1)] && records == old(records) - {id}
                && active == Less(old(active), j.tenant) && daily == Less(old(daily), (j.tenant, j.date))
                && Count(active, j.tenant) == Count(old(active), j.tenant) - 1
                && Count(daily, (j.tenant, j.date)) == Count(old(daily), (j.tenant, j.date)) - 1
      ensures !(id in old(jobs) && old(jobs)[id].stage.Reserved?) ==>
                jobs == old(jobs) && active == old(active) && daily == old(daily) && records == old(records)
    {
      if id in jobs && jobs[id].stage.Reserved? {
        var j := jobs[id].(stage := Cancelled, rollbacks := jobs[id].rollbacks + 1);
        NoFloor(active, daily, jobs, id);
        Rollback(j.tenant, j.date);
        CancellingKeeps(old(active), old(daily), jobs, id, j);
        LimitsStayBelow(old(active), old(daily), active, daily, principals);
        jobs := jobs[id := j];
        records := records - {id};
      }
    }

    /** A step of one job that keeps its slot. */
    method SetStage(id: string, j: Job)
      requires Valid() && id in jobs && SameCounts(jobs[id], j) && JobOk(j)
      modifies this`jobs
      ensures Valid() && jobs == old(jobs)[id := j]
    {
      SameCountsKeep(active, daily, jobs, id, j);
      jobs := jobs[id := j];
    }

    // ------------------------------------------------------------ attempts

    /** The queue hands the job to a worker, which writes that it runs. */
    method StartAttempt(id: string)
      requires Valid()
      modifies this
      ensures Valid() && active == old(active) && daily == old(daily)
      ensures id in old(jobs) && old(jobs)[id].stage.Waiting? ==>
                var made := old(jobs)[id].stage.made;
                && jobs == old(jobs)[id := old(jobs)[id].(stage := Running(made))]
                && records == old(records)[id := Record(RunningNow, made + 1)]
      ensures !(id in old(jobs) && old(jobs)[id].stage.Waiting?) ==> jobs == old(jobs) && records == old(records)
    {
      if id in jobs && jobs[id].stage.Waiting? {
        var made := jobs[id].stage.made;
        records := records[id := Record(RunningNow, made + 1)];
        SetStage(id, jobs[id].(stage := Running(made)));
      }
    }

    /** The attempt threw: the queue schedules another one, or the attempts are exhausted. No slot moves. */
    method FailAttempt(id: string)
      requires Valid()
      modifies this
      ensures Valid() && active == old(active) && daily == old(daily) && records == old(records)
      ensures id in old(jobs) && old(jobs)[id].stage.Running? ==>
                var j := old(jobs)[id]; var made := j.stage.made + 1;
                jobs == old(jobs)[id := if made < j.attempts then j.(stage := Waiting(made), notes := j.notes + {made})
                                        else j.(stage := Exhausted(false))]
      ensures !(id in old(jobs) && old(jobs)[id].stage.Running?) ==> jobs == old(jobs)
    {
      if id in jobs && jobs[id].stage.Running? {
        var j := jobs[id];
        var made := j.stage.made + 1;
        SetStage(id, if made < j.attempts then j.(stage := Waiting(made), notes := j.notes + {made})
                     else j.(stage := Exhausted(false)));
      }
    }

    /** The failure handler writes that a retry is coming; it may be late. */
    method NoteRetry(id: string, made: nat)
      requires Valid()
      modifies this
      ensures Valid() && active == old(active) && daily == old(daily)
      ensures id in old(jobs) && made in old(jobs)[id].notes ==>
                && jobs == old(jobs)[id := old(jobs)[id].(notes := old(jobs)[id].notes - {made})]
                && records == old(records)[id := Record(Retrying, if made > 1 then made else 1)]
      ensures !(id in old(jobs) && made in old(jobs)[id].notes) ==> jobs == old(jobs) && records == old(records)
    {
      if id in jobs && made in jobs[id].notes {
        records := records[id := Record(Retrying, if made > 1 then made else 1)];
        SetStage(id, jobs[id].(notes := jobs[id].notes - {made}));
      }
    }

    // ------------------------------------------------------------ endings

    /** The local runner returned and the worker writes its result. */
    method CompleteLocally(id: string, ok: bool)
      requires Valid()
      modifies this
      ensures Valid() && active == old(active) && daily == old(daily)
      ensures id in old(jobs) && old(jobs)[id].stage.Running? ==>
                && jobs == old(jobs)[id := old(jobs)[id].(stage := Completing)]
                && records == Marked(old(records), id, if ok then Succeeded else Failed)
      ensures !(id in old(jobs) && old(jobs)[id].stage.Running?) ==> jobs == old(jobs) && records == old(records)
    {
      if id in jobs && jobs[id].stage.Running? {
        records := Marked(records, id, if ok then Succeeded else Failed);
        SetStage(id, jobs[id].(stage := Completing));
      }
    }

    /** The worker started a runner task; from here on the two go on side by side. */
    method StartTask(id: string)
      requires Valid()
      modifies this
      ensures Valid() && active == old(active) && daily == old(daily) && records == old(records)
      ensures jobs == if id in old(jobs) && old(jobs)[id].stage.Running?
                      then old(jobs)[id := old(jobs)[id].(stage := InTask(false), undispatched := true)] else old(jobs)
    {
      if id in jobs && jobs[id].stage.Running? {
        SetStage(id, jobs[id].(stage := InTask(false), undispatched := true));
      }
    }

    /** The worker writes that the job was dispatched, whatever the runner has written meanwhile. */
    method NoteDispatch(id: string)
      requires Valid()
      modifies this
      ensures Valid() && active == old(active) && daily == old(daily)
      ensures id in old(jobs) && old(jobs)[id].undispatched ==>
                && jobs == old(jobs)[id := old(jobs)[id].(undispatched := false)]
                && records == Marked(old(records), id, Dispatched)
      ensures !(id in old(jobs) && old(jobs)[id].undispatched) ==> jobs == old(jobs) && records == old(records)
    {
      if id in jobs && jobs[id].undispatched {
        records := Marked(records, id, Dispatched);
        SetStage(id, jobs[id].(undispatched := false));
      }
    }

    /** The runner writes its result. */
    method ReportResult(id: string, ok: bool)
      requires Valid()
      modifies this
      ensures Valid() && active == old(active) && daily == old(daily)
      ensures id in old(jobs) && old(jobs)[id].stage == InTask(false) ==>
                && jobs == old(jobs)[id := old(jobs)[id].(stage := InTask(true))]
                && records == Marked(old(records), id, if ok then Succeeded else Failed)
      ensures !(id in old(jobs) && old(jobs)[id].stage == InTask(false)) ==> jobs == old(jobs) && records == old(records)
    {
      if id in jobs && jobs[id].stage == InTask(false) {
        records := Marked(records, id, if ok then Succeeded else Failed);
        SetStage(id, jobs[id].(stage := InTask(true)));
      }
    }

    /** The failure handler writes that the job failed for good. */
    method RecordFailure(id: string)
      requires Valid()
      modifies this
      ensures Valid() && active == old(active) && daily == old(daily)
      ensures id in old(jobs) && old(jobs)[id].stage == Exhausted(false) ==>
                && jobs == old(jobs)[id := old(jobs)[id].(stage := Exhausted(true))]
                && records == Marked(old(records), id, Failed)
      ensures !(id in old(jobs) && old(jobs)[id].stage == Exhausted(false)) ==> jobs == old(jobs) && records == old(records)
    {
      if id in jobs && jobs[id].stage == Exhausted(false) {
        records := Marked(records, id, Failed);
        SetStage(id, jobs[id].(stage := Exhausted(true)));
      }
    }

    /**
     The slot is given back: by the worker after a local result or a final failure, or by the
     runner after its result. The counter goes down by exactly one: the floor never binds.
     */
    method ReleaseSlot(id: string)
      requires Valid()
      modifies this
      ensures Valid() && daily == old(daily) && records == old(records)
      ensures id in old(jobs) && old(jobs)[id].stage.Releasable() ==>
                var j := old(jobs)[id];
                && jobs == old(jobs)[id := j.(stage := Finished, releases := j.releases + 1)]
                && active == Less(old(active), j.tenant)
                && Count(active, j.tenant) == Count(old(active), j.tenant) - 1
      ensures !(id in old(jobs) && old(jobs)[id].stage.Releasable()) ==> jobs == old(jobs) && active == old(active)
    {
      if id in jobs && jobs[id].stage.Releasable() {
        var j := jobs[id].(stage := Finished, releases := jobs[id].releases + 1);
        NoFloor(active, daily, jobs, id);
        Release(j.tenant);
        ReleasingKeeps(old(active), daily, jobs, id, j);
        LimitsStayBelow(old(active), daily, active, daily, principals);
        jobs := jobs[id := j];
      }
    }
  }

  // ---------------------------------------------------------------- why the counts stay right

  /** A job that holds a slot shows in the counters, so taking one off is never cut short. */
  lemma NoFloor(active: map<string, nat>, daily: map<(string, string), nat>, jobs: Jobs, id: string)
    requires SlotsCounted(active, jobs) && DaysCounted(daily, jobs)
    requires id in jobs && jobs[id].stage.Holds()
    ensures Count(active, jobs[id].tenant) > 0 && Count(daily, (jobs[id].tenant, jobs[id].date)) > 0
  {
    var j := jobs[id];
    assert id in Holders(jobs, j.tenant) && id in Counted(jobs, j.tenant, j.date);
  }

  lemma AdmissionKeeps(active: map<string, nat>, daily: map<(string, string), nat>, jobs: Jobs, id: string, j: Job)
    requires SlotsCounted(active, jobs) && DaysCounted(daily, jobs)
    requires id !in jobs && j.stage.Reserved?
    ensures SlotsCounted(active[j.tenant := Count(active, j.tenant) + 1], jobs[id := j])
    ensures DaysCounted(daily[(j.tenant, j.date) := Count(daily, (j.tenant, j.date)) + 1], jobs[id := j])
  {
    var slots := active[j.tenant := Count(active, j.tenant) + 1];
    forall t ensures Count(slots, t) == |Holders(jobs[id := j], t)| { HoldersAfter(jobs, id, j, t); }
    var days := daily[(j.tenant, j.date) := Count(daily, (j.tenant, j.date)) + 1];
    forall t, d ensures Count(days, (t, d)) == |Counted(jobs[id := j], t, d)| { CountedAfter(jobs, id, j, t, d); }
  }

  lemma CancellingKeeps(active: map<string, nat>, daily: map<(string, string), nat>, jobs: Jobs, id: string, j: Job)
    requires SlotsCounted(active, jobs) && DaysCounted(daily, jobs)
    requires id in jobs && jobs[id].stage.Reserved? && j == jobs[id].(stage := Cancelled, rollbacks := jobs[id].rollbacks + 1)
    requires Count(active, j.tenant) > 0 && Count(daily, (j.tenant, j.date)) > 0
    ensures SlotsCounted(active[j.tenant := Count(active, j.tenant) - 1], jobs[id := j])
    ensures DaysCounted(daily[(j.tenant, j.date) := Count(daily, (j.tenant, j.date)) - 1], jobs[id := j])
  {
    var slots := active[j.tenant := Count(active, j.tenant) - 1];
    forall t ensures Count(slots, t) == |Holders(jobs[id := j], t)| { HoldersAfter(jobs, id, j, t); }
    var days := daily[(j.tenant, j.date) := Count(daily, (j.tenant, j.date)) - 1];
    forall t, d ensures Count(days, (t, d)) == |Counted(jobs[id := j], t, d)| { CountedAfter(jobs, id, j, t, d); }
  }

  lemma ReleasingKeeps(active: map<string, nat>, daily: map<(string, string), nat>, jobs: Jobs, id: string, j: Job)
    requires SlotsCounted(active, jobs) && DaysCounted(daily, jobs)
    requires id in jobs && jobs[id].stage.Holds() && j == jobs[id].(stage := Finished, releases := jobs[id].releases + 1)
    requires Count(active, j.tenant) > 0
    ensures SlotsCounted(active[j.tenant := Count(active, j.tenant) - 1], jobs[id := j])
    ensures DaysCounted(daily, jobs[id := j])
  {
    var slots := active[j.tenant := Count(active, j.tenant) - 1];
    forall t ensures Count(slots, t) == |Holders(jobs[id := j], t)| { HoldersAfter(jobs, id, j, t); }
    forall t, d ensures Count(daily, (t, d)) == |Counted(jobs[id := j], t, d)| { CountedAfter(jobs, id, j, t, d); }
  }

  /** Counters that do not grow, except within the new principal's own limits, stay within the limits. */
  lemma LimitsStay(a0: map<string, nat>, d0: map<(string, string), nat>, a1: map<string, nat>, d1: map<(string, string), nat>,
                   principals: set<Principal>, p: Principal)
    requires LimitsKept(a0, d0, principals)
    requires forall t :: Count(a1, t) <= Count(a0, t) || (t == p.tenant && Count(a1, t) <= p.maxConcurrent)
    requires forall t, d :: Count(d1, (t, d)) <= Count(d0, (t, d)) || (t == p.tenant && Count(d1, (t, d)) <= p.maxDaily)
    ensures LimitsKept(a1, d1, principals + {p})
  {
    forall t ensures WithinConcurrent(Count(a1, t), t, principals + {p}) {
      assert WithinConcurrent(Count(a0, t), t, principals);
    }
    forall t, d ensures WithinDaily(Count(d1, (t, d)), t, principals + {p}) {
      assert WithinDaily(Count(d0, (t, d)), t, principals);
    }
  }

  lemma LimitsStayBelow(a0: map<string, nat>, d0: map<(string, string), nat>, a1: map<string, nat>,
                        d1: map<(string, string), nat>, principals: set<Principal>)
    requires LimitsKept(a0, d0, principals)
    requires forall t :: Count(a1, t) <= Count(a0, t)
    requires forall t, d :: Count(d1, (t, d)) <= Count(d0, (t, d))
    ensures LimitsKept(a1, d1, principals)
  {
    forall t ensures WithinConcurrent(Count(a1, t), t, principals) {
      assert WithinConcurrent(Count(a0, t), t, principals);
    }
    forall t, d ensures WithinDaily(Count(d1, (t, d)), t, principals) {
      assert WithinDaily(Count(d0, (t, d)), t, principals);
    }
  }

  // ---------------------------------------------------------------- whole runs

  method Take(b: Backend, step: Step)
    requires b.Valid()
    modifies b
    ensures b.Valid() && b.Now() == Next(old(b.Now()), step)
  {
    hide SlotsCounted, DaysCounted, LimitsKept, JobOk;
    match step
    case SubmitJob(p, date, id, attempts) => if id !in b.jobs && attempts > 0 { var _ := b.Submit(p, date, id, attempts); }
    case EnqueueJob(id) => b.Enqueue(id);
    case CancelJob(id) => b.CancelSubmission(id);
    case _ => TakeAttempt(b, step);
  }

  method TakeAttempt(b: Backend, step: Step)
    requires b.Valid() && !step.SubmitJob? && !step.EnqueueJob? && !step.CancelJob?
    modifies b
    ensures b.Valid() && b.Now() == Next(old(b.Now()), step)
  {
    hide SlotsCounted, DaysCounted, LimitsKept, JobOk;
    if step.StartJob? {
      b.StartAttempt(step.id);
    } else if step.FailJob? {
      b.FailAttempt(step.id);
    } else if step.RetryNote? {
      b.NoteRetry(step.id, step.made);
    } else if step.LocalResult? {
      b.CompleteLocally(step.id, step.ok);
    } else {
      TakeEnding(b, step);
    }
  }

  method TakeEnding(b: Backend, step: Step)
    requires b.Valid()
    requires step.TaskStart? || step.DispatchNote? || step.TaskResult? || step.FailureNote? || step.Give?
    modifies b
    ensures b.Valid() && b.Now() == Next(old(b.Now()), step)
  {
    hide SlotsCounted, DaysCounted, LimitsKept, JobOk;
    match step
    case TaskStart(id) => b.StartTask(id);
    case DispatchNote(id) => b.NoteDispatch(id);
    case TaskResult(id, ok) => b.ReportResult(id, ok);
    case FailureNote(id) => b.RecordFailure(id);
    case Give(id) => b.ReleaseSlot(id);
  }

  /** Any interleaving of submissions, failed submissions, attempts, retries and endings. */
  method Run(b: Backend, steps: seq<Step>)
    requires b.Valid()
    modifies b
    ensures b.Valid() && b.Now() == After(old(b.Now()), steps)
    ensures forall id :: Onward(old(b.Now()), b.Now(), id)
  {
    for i := 0 to |steps|
      invariant b.Valid() && b.Now() == After(old(b.Now()), steps[..i])
    {
      Take(b, steps[i]);
      assert steps[..i + 1][..i] == steps[..i];
    }
    assert steps[..|steps|] == steps;
    forall id ensures Onward(old(b.Now()), b.Now(), id) { RunGoesOn(old(b.Now()), steps, id); }
  }

  /** When the runner finishes before the worker notes the dispatch, the finished job ends up as dispatched. */
  method DispatchOverwritesResult(b: Backend, id: string, ok: bool)
    requires b.Valid() && id in b.jobs && b.jobs[id].stage.Running?
    modifies b
    ensures b.Valid() && id in b.jobs && b.jobs[id].stage.Finished? && id in b.records && b.records[id].status == Dispatched
  {
    b.StartTask(id);
    b.ReportResult(id, ok);
    b.ReleaseSlot(id);
    b.NoteDispatch(id);
  }

  /** When the note of an earlier failure comes late, a job that finished locally ends up as retrying. */
  method RetryNoteOverwritesResult(b: Backend, id: string, ok: bool)
    requires b.Valid() && id in b.jobs && b.jobs[id].stage.Running? && b.jobs[id].stage.made + 1 < b.jobs[id].attempts
    modifies b
    ensures b.Valid() && id in b.jobs && b.jobs[id].stage.Finished? && id in b.records && b.records[id].status == Retrying
  {
    var made := b.jobs[id].stage.made + 1;
    b.FailAttempt(id);
    b.StartAttempt(id);
    b.CompleteLocally(id, ok);
    b.ReleaseSlot(id);
    b.NoteRetry(id, made);
  }
}

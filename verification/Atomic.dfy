/**
 What one whole invocation does to the world when every call succeeds and nothing else moves.
 The call-by-call controller is proved to do exactly this in that case.
 */
module Atomic {
  import opened Wrappers
  import opened StateStore
  import opened SnapshotCatalog
  import opened Cloud
  import RedisUrl
  import SnapshotNames

  /** The result of a call: a value, an exception, a lost conditional write, or the end of the invocation. */
  datatype Reply<+T> = Ok(value: T) | Raised(code: string) | Conflict | Crashed {
    predicate IsFailure() { !Ok? }

    function PropagateFailure<U>(): Reply<U>
      requires IsFailure()
    {
      match this
      case Raised(code) => Raised(code)
      case Conflict => Conflict
      case Crashed => Crashed
    }

    function Extract(): T
      requires Ok?
    {
      value
    }
  }

  datatype Reason =
    | WakeRace | WorkerActive | QueueMetricMissing | QueueActive | StandaloneTasksActive
    | WakeRaceAfterScale | TasksAfterScale | ApiBeforeDelete | ApiBeforeSnapshot
    | CacheNotAvailable | CacheNotAvailableBeforeDelete | ServiceDrift
    | StateConflict | DependencyError

  datatype Outcome =
    | KeepsAwake(reason: Reason)
    | Waits                // "quiescing"
    | StartsQuiescence
    | TakesSnapshot        // "snapshotting"
    | HasSnapshot          // "snapshot_ready"
    | DeletesCache
    | FallsAsleep
    | SleepsAlready
    | Reconciles(recent: bool, reply: Woken)

  datatype Woken = Woken(code: nat, phase: Phase, api: Counts) {
    predicate Awake() { api.running > 0 && phase.Active? }
  }

  /** The answer to POST /wake: 200 or 202 as the reconciliation says, 409 or 500. */
  datatype WakeReply = Accepted(woken: Woken) | WakeConflict | WakeFailed

  predicate ReportsActivity(reason: Reason) {
    || reason.WorkerActive? || reason.QueueActive? || reason.StandaloneTasksActive? || reason.TasksAfterScale?
    || reason.ApiBeforeDelete? || reason.ApiBeforeSnapshot? || reason.WakeRaceAfterScale?
  }

  /** A completed check has reported activity: the evidence is spent. */
  function Reported(w: World, reason: Reason): World {
    if ReportsActivity(reason) then Note(w.(unseen := NO_EVIDENCE), ActivitySeen(w.now)) else w
  }

  function Save(w: World, next: Item): World {
    Put(w, Stamp(BaseOf(w.item), next, w.now), [])
  }

  function MarkError(w: World, base: Base, code: string): World {
    if Matches(base, w.item)
    then Put(w, Stamp(base, base.item.(phase := Error, quiescentSinceNs := None, errorType := Some(code)), w.now), [])
    else w
  }

  // ---------------------------------------------------------------- observation

  predicate HasZeroProof(it: Item) {
    (it.phase.Quiescing? || it.phase.Snapshotting? || it.phase.SnapshotReady? || it.phase.Deleting?)
    && it.quiescentSinceNs.Some?
  }

  function UnexpectedTasks(w: World, allowApi: bool): nat {
    w.otherTasks + w.apiDraining + if allowApi then 0 else w.apiTasks
  }

  predicate WakeIsStale(w: World, observed: nat) {
    w.lease == observed && w.now - w.lease >= w.cfg.idleNs
  }

  /** What a guard reports: a reason to stay awake, or whether a zero datapoint was seen. */
  datatype Sighting = Stirring(reason: Reason) | Clear(sawZero: bool)

  function ServicesReason(w: World, observed: nat): Option<Reason> {
    if !WakeIsStale(w, observed) then Some(WakeRace)
    else if !w.worker.Stopped() then Some(WorkerActive)
    else None
  }

  function QueueSighting(w: World, allowMissing: bool): Sighting {
    if w.queueMax.None? then (if allowMissing then Clear(false) else Stirring(QueueMetricMissing))
    else if w.queueMax.value > 0 then Stirring(QueueActive)
    else Clear(true)
  }

  function GuardSighting(w: World, observed: nat, allowApi: bool, allowMissing: bool): Sighting {
    var reason, queue := ServicesReason(w, observed), QueueSighting(w, allowMissing);
    if reason.Some? then Stirring(reason.value)
    else if queue.Stirring? then queue
    else if UnexpectedTasks(w, allowApi) > 0 then Stirring(StandaloneTasksActive)
    else queue
  }

  function ReasonOf(s: Sighting): Option<Reason> { if s.Stirring? then Some(s.reason) else None }

  function GuardReason(w: World, observed: nat, allowApi: bool, allowMissing: bool): Option<Reason> {
    ReasonOf(GuardSighting(w, observed, allowApi, allowMissing))
  }

  function Cleared(w: World, allowApi: bool): World {
    Note(w, GuardClear(w.now, w.queueMax.Some?, allowApi))
  }

  // ---------------------------------------------------------------- going to sleep

  /** The item after activity: no quiescence clock, and a snapshot under way is no longer protected. */
  function InvalidItem(it: Item): Item {
    var cleared := it.(quiescentSinceNs := None);
    if SnapshotPhase(it.phase) then cleared.(phase := Quiescing, snapshotName := None, errorType := None) else cleared
  }

  function Invalidate(w: World): World {
    var it := Current(w);
    if it.quiescentSinceNs.None? && !SnapshotPhase(it.phase) then w else Save(w, InvalidItem(it))
  }

  function KeepAwake(w: World, reason: Reason): (World, Reply<Outcome>) {
    (Reported(Invalidate(w), reason), Ok(KeepsAwake(reason)))
  }

  function StopApi(w: World, observed: nat): (World, Reply<Outcome>) {
    var w1 := Reported(Invalidate(w), WakeRaceAfterScale);
    var w2 := if w.api.desired != 0 then SetApi(w1, 0) else w1;
    if WakeIsStale(w2, observed) then (w2, Ok(Waits)) else (SetApi(w2, 1), Ok(KeepsAwake(WakeRaceAfterScale)))
  }

  function SleepItem(it: Item, name: Option<string>): Item {
    it.(desired := Asleep, phase := Sleeping, snapshotName := name, quiescentSinceNs := None, errorType := None)
  }

  function AdoptSleep(w: World): (World, Reply<Outcome>) {
    var it := Current(w);
    var name := if it.snapshotName.Some? then it.snapshotName else Latest(w.snapshots, SnapshotNames.Mine(w.cfg.prefix));
    if Image(w.snapshots, name).None? then (w, Raised("RuntimeError"))
    else if it.phase.Sleeping? && it.snapshotName == name then (w, Ok(SleepsAlready))
    else (Save(w, SleepItem(it, name)), Ok(FallsAsleep))
  }

  function AwaitSnapshot(w: World): (World, Reply<Outcome>) {
    var it := Current(w);
    if it.snapshotName.None? || it.snapshotName.value !in w.snapshots then (w, Raised("RuntimeError"))
    else
      match w.snapshots[it.snapshotName.value]
      case Available(_, _) =>
        if w.group.Group? && w.group.status.Ready?
        then (Save(w, it.(phase := SnapshotReady, errorType := None)), Ok(HasSnapshot))
        else (w, Ok(TakesSnapshot))
      case Failed => (w, Raised("RuntimeError"))
      case Creating(_) => (w, Ok(TakesSnapshot))
  }

  function DeleteProtected(w: World, observed: nat): (World, Reply<Outcome>) {
    var it := Current(w);
    if Image(w.snapshots, it.snapshotName).None? then (w, Raised("RuntimeError"))
    else
      var s := w.(settled := true);
      var reason := GuardReason(s, observed, false, HasZeroProof(it));
      if reason.Some? then KeepAwake(s, reason.value) else DeleteCleared(Cleared(s, false))
  }

  function DeleteCleared(w: World): (World, Reply<Outcome>) {
    if !w.api.Stopped() then KeepAwake(w, ApiBeforeDelete)
    else if !(w.group.Group? && w.group.status.Ready?) then (w, Ok(KeepsAwake(CacheNotAvailableBeforeDelete)))
    else (DeleteGroup(Save(w, Current(w).(phase := Deleting, errorType := None))), Ok(DeletesCache))
  }

  function StartSnapshot(w: World, observed: nat, name: string): (World, Reply<Outcome>) {
    var it := Current(w);
    var reason := GuardReason(w, observed, false, HasZeroProof(it));
    if reason.Some? then KeepAwake(w, reason.value) else SnapshotCleared(Cleared(w, false), name)
  }

  function SnapshotCleared(w: World, name: string): (World, Reply<Outcome>) {
    if !w.api.Stopped() then KeepAwake(w, ApiBeforeSnapshot)
    else (RequestSnapshot(Save(w, SnapshotItem(Current(w), name)), name), Ok(TakesSnapshot))
  }

  function SnapshotItem(it: Item, name: string): Item {
    it.(desired := Asleep, phase := Snapshotting, snapshotName := Some(name), errorType := None)
  }

  function AwaitQuiescence(w: World, observed: nat, name: string): (World, Reply<Outcome>) {
    var it := Current(w);
    if it.quiescentSinceNs.None? then
      (Save(w, it.(quiescentSinceNs := Some(w.now))), Ok(StartsQuiescence))
    else if w.now - it.quiescentSinceNs.value < w.cfg.quiescenceNs then (w, Ok(Waits))
    else StartSnapshot(w, observed, name)
  }

  /** A deletion that was never accepted starts over with a fresh snapshot. */
  function BeginQuiescing(w: World): World {
    var it := Current(w);
    if it.phase.Deleting? then Save(w, it.(phase := Quiescing, snapshotName := None, errorType := None))
    else if !it.phase.Quiescing? then
      Save(w, it.(phase := Quiescing, snapshotName := None, quiescentSinceNs := None, errorType := None))
    else w
  }

  function Quiesce(w: World, observed: nat, name: string): (World, Reply<Outcome>)
    requires w.group.Group?
  {
    var it := Current(w);
    if w.group.status.Going? then
      (if it.phase.Deleting? then w else Save(w, it.(phase := Deleting, errorType := None)), Ok(DeletesCache))
    else if !w.group.status.Ready? then (w, Ok(KeepsAwake(CacheNotAvailable)))
    else AwaitQuiescence(BeginQuiescing(w), observed, name)
  }

  function WithGroup(w: World, observed: nat, name: string): (World, Reply<Outcome>)
    requires w.group.Group?
  {
    match Current(w).phase
    case Snapshotting => AwaitSnapshot(w)
    case SnapshotReady => DeleteProtected(w, observed)
    case _ => Quiesce(w, observed, name)
  }

  function ProgressCache(w: World, observed: nat, name: string): (World, Reply<Outcome>) {
    if !w.cfg.hibernation then (Save(w, SleepItem(Current(w), Current(w).snapshotName)), Ok(FallsAsleep))
    else if w.group.Absent? then AdoptSleep(w)
    else WithGroup(w, observed, name)
  }

  function ProgressApi(w: World, observed: nat, name: string): (World, Reply<Outcome>) {
    if !w.api.Stopped() then StopApi(w, observed)
    else if UnexpectedTasks(w, false) > 0 then KeepAwake(w, TasksAfterScale)
    else ProgressCache(w, observed, name)
  }

  function ProgressSleep(w: World, observed: nat, name: string): (World, Reply<Outcome>) {
    var reason := GuardReason(w, observed, true, HasZeroProof(Current(w)));
    if reason.Some? then KeepAwake(w, reason.value)
    else ProgressApi(Cleared(w, true), observed, name)
  }

  // ---------------------------------------------------------------- waking

  function Publish(w: World): Option<World>
    requires w.group.Group?
  {
    if !RedisUrl.Usable(w.url) then None
    else Some(w.(url := Some(RedisUrl.Readdressed(w.url.value, w.group.endpoint, w.cfg.port))))
  }

  function EnsureApi(w: World): World { if w.api.desired != 1 then RaiseApi(w) else w }

  function AwakeItem(it: Item): Item {
    it.(desired := Awake, phase := Active, quiescentSinceNs := None, errorType := None)
  }

  function ReplyOf(w: World): Woken { Woken(if w.api.running > 0 then 200 else 202, Current(w).phase, w.api) }

  function DropAll(w: World, names: seq<string>): World
    decreases |names|
  {
    if names == [] then w else DropAll(DropSnapshot(w, names[0]), names[1..])
  }

  function Prune(w: World): World {
    DropAll(w, Victims(w.snapshots, SnapshotNames.Mine(w.cfg.prefix), w.cfg.retention, Current(w).snapshotName))
  }

  lemma {:induction false} DropAllOnly(w: World, names: seq<string>)
    ensures DropAll(w, names) == w.(snapshots := DropAll(w, names).snapshots)
    decreases |names|
  {
    if names != [] { DropAllOnly(DropSnapshot(w, names[0]), names[1..]); }
  }

  function StartApi(w: World): (World, Reply<Woken>)
    requires w.group.Group?
  {
    var published := Publish(w);
    if published.None? then (w, Raised("RuntimeError"))
    else
      var it := Current(published.value);
      LaunchApi(if it.phase.ApiStarting? then published.value
                else Save(published.value, it.(phase := ApiStarting, quiescentSinceNs := None, errorType := None)))
  }

  function LaunchApi(w: World): (World, Reply<Woken>) {
    var w1 := EnsureApi(w);
    var w2 := if w1.api.running > 0 then Prune(Save(w1, AwakeItem(Current(w1)))) else w1;
    (w2, Ok(ReplyOf(w2)))
  }

  function KeepActive(w: World): (World, Reply<Woken>)
    requires w.group.Group?
  {
    var published := if RedisUrl.PointsAt(w.url, w.group.endpoint, w.cfg.port) then Some(w) else Publish(w);
    if published.None? then (w, Raised("RuntimeError"))
    else
      var w1 := EnsureApi(published.value);
      (w1, Ok(ReplyOf(w1)))
  }

  /** The protected snapshot if it still exists, else the newest available one. */
  function SnapshotToRestore(w: World): Option<string> {
    var name := Current(w).snapshotName;
    if name.Some? && name.value in w.snapshots then name else Latest(w.snapshots, SnapshotNames.Mine(w.cfg.prefix))
  }

  function Restore(w: World): (World, Reply<Woken>) {
    var it := Current(w);
    var name := SnapshotToRestore(w);
    if name.None? then (w, Raised("RuntimeError"))
    else if Image(w.snapshots, name).None? then
      var w1 := if it.phase.Restoring? then w
                else Save(w, it.(desired := Awake, phase := Restoring, snapshotName := name));
      (w1, Ok(Woken(202, Restoring, Counts(0, 0, 0))))
    else
      var w1 := if it.phase.Restoring? && it.snapshotName == name then w
                else Save(w, it.(desired := Awake, phase := Restoring, snapshotName := name, errorType := None));
      CreateGroup(w1, name.value)
  }

  /** Creating the group reads the stored URL first, for its password. */
  function CreateGroup(w: World, name: string): (World, Reply<Woken>) {
    if w.url.None? then (MarkError(w, BaseOf(w.item), "RuntimeError"), Raised("RuntimeError"))
    else (RestoreGroup(w, name), Ok(Woken(202, Restoring, Counts(0, 0, 0))))
  }

  function ReconcileDisabled(w: World): (World, Reply<Woken>) {
    var w1 := EnsureApi(w);
    var w2 := Save(w1, AwakeItem(Current(w1)));
    (w2, Ok(ReplyOf(w2)))
  }

  function Reconcile(w: World): (World, Reply<Woken>) {
    if !w.cfg.hibernation then ReconcileDisabled(w)
    else if w.group.Absent? then Restore(w)
    else if w.group.status.Ready? then
      var s := Note(w, GroupSeen(w.group));
      if Current(s).phase.Active? then KeepActive(s) else StartApi(s)
    else
      var phase := if w.group.status.Going? then Deleting else Restoring;
      var it := Current(w);
      var w1 := if it.phase == phase then w else Save(w, it.(desired := Awake, phase := phase, errorType := None));
      (w1, Ok(Woken(202, phase, Counts(0, 0, 0))))
  }

  // ---------------------------------------------------------------- handlers

  /** What an accepted wake writes before anything else; the first one ever starts the API. */
  function WakeItem(base: Base, now: nat): Item {
    base.item.(desired := Awake, phase := if base.stored then base.item.phase else ApiStarting,
               wakeRequestedNs := Some(now), quiescentSinceNs := None, errorType := None)
  }

  function Wake(w: World): (World, Reply<WakeReply>) {
    var (w1, r) := AcceptWake(Note(w, Invoked));
    (Ended(w1), r)
  }

  function AcceptWake(w: World): (World, Reply<WakeReply>) {
    var leased, base := w.(lease := w.now), BaseOf(w.item);
    FinishWake(Put(leased, Stamp(base, WakeItem(base, w.now), w.now), [WakeAccepted(w.now)]))
  }

  function FinishWake(w: World): (World, Reply<WakeReply>) {
    var (w1, r) := Reconcile(w);
    match r
    case Ok(woken) => (w1, Ok(Accepted(woken)))
    case Raised(code) => (MarkError(w1, BaseOf(w.item), code), Ok(WakeFailed))
    case Conflict => (w1, Ok(WakeConflict))
    case Crashed => (w1, Crashed)
  }

  /** The invocation is over: writers may start again. */
  function Ended(w: World): World { w.(settled := false) }

  function IdleCheck(w: World, name: string): (World, Reply<Outcome>) {
    var begun := Note(w, Invoked);
    var (w1, r) := if w.now - w.lease < w.cfg.idleNs then RecentWake(begun) else CheckStale(begun, name);
    (Ended(w1), r)
  }

  /** How the handler ends: an exception is recorded against the item it last held. */
  function Conclude(base: Base, w: World, r: Reply<Outcome>): (World, Reply<Outcome>) {
    match r
    case Ok(_) => (w, r)
    case Raised(code) => (MarkError(w, base, code), Ok(KeepsAwake(DependencyError)))
    case Conflict => (w, Ok(KeepsAwake(StateConflict)))
    case Crashed => (w, Crashed)
  }

  function Reconciling(w: World, recent: bool): (World, Reply<Outcome>) {
    var (w1, r) := Reconcile(w);
    Conclude(BaseOf(w.item), w1, if r.Ok? then Ok(Reconciles(recent, r.value)) else r.PropagateFailure())
  }

  function RecentWake(w: World): (World, Reply<Outcome>) {
    var it := Current(w);
    Reconciling(if it.desired.Awake? then w else Save(w, it.(desired := Awake, wakeRequestedNs := Some(w.lease))), true)
  }

  function CheckStale(w: World, name: string): (World, Reply<Outcome>) {
    var it := Current(w);
    if it.desired.Asleep? && it.phase.Sleeping? && w.group.Absent? then Conclude(BaseOf(w.item), w, CheckAsleep(w))
    else CheckAwake(w, name)
  }

  function CheckAsleep(w: World): Reply<Outcome> {
    if Image(w.snapshots, Current(w).snapshotName).None? then Raised("RuntimeError")
    else if w.api.Stopped() && w.worker.Stopped() then Ok(SleepsAlready)
    else Ok(KeepsAwake(ServiceDrift))
  }

  predicate WakesUp(it: Item) {
    it.desired.Awake? && (it.phase.Deleting? || it.phase.Restoring? || it.phase.ApiStarting?)
  }

  function CheckAwake(w: World, name: string): (World, Reply<Outcome>) {
    var it := Current(w);
    if WakesUp(it) then Reconciling(w, false)
    else
      Progressing(
        if it.desired.Asleep? && !it.phase.Active? then w
        else Save(w, it.(desired := Asleep, phase := Quiescing, quiescentSinceNs := None, errorType := None)), name)
  }

  function Progressing(w: World, name: string): (World, Reply<Outcome>) {
    var (w1, r) := ProgressSleep(w, w.lease, name);
    Conclude(BaseOf(w.item), w1, r)
  }
}

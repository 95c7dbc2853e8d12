/**
 What an undisturbed check and an undisturbed wake answer and leave behind, case by case, in terms
 of what the services, the cache, its snapshots and the stored item are.
 */
module Outcomes {
  import opened Wrappers
  import opened StateStore
  import opened SnapshotCatalog
  import opened Cloud
  import opened Atomic
  import opened Progress
  import RedisUrl
  import SnapshotNames
  import SnapshotPruning

  // ---------------------------------------------------------------- a check that goes on to sleep

  /** The lease is stale, and there is neither a sleeping cache to watch nor an interrupted wake to continue. */
  predicate ToBeChecked(w: World) {
    var it := Current(w);
    && w.now - w.lease >= w.cfg.idleNs
    && !(it.desired.Asleep? && it.phase.Sleeping? && w.group.Absent?)
    && !(it.desired.Awake? && (it.phase.Deleting? || it.phase.Restoring? || it.phase.ApiStarting?))
  }

  predicate WorkerQuiet(w: World) { w.worker.desired == 0 && w.worker.running == 0 && w.worker.pending == 0 }

  /** A datapoint of at most zero, or none with the clock recorded. */
  predicate QueueQuiet(w: World) { if w.queueMax.Some? then w.queueMax.value <= 0 else ClockRecorded(w) }

  predicate OthersQuiet(w: World) { WorkerQuiet(w) && QueueQuiet(w) && w.otherTasks == 0 && w.apiDraining == 0 }

  predicate ApiDown(w: World) { w.api.desired == 0 && w.api.running == 0 && w.api.pending == 0 }

  /** The phase and the clock the check works from: asking for sleep starts over. */
  function WorkingPhase(w: World): Phase {
    if Current(w).desired.Asleep? && !Current(w).phase.Active? then Current(w).phase else Quiescing
  }

  function WorkingClock(w: World): Option<nat> {
    if Current(w).desired.Asleep? && !Current(w).phase.Active? then Current(w).quiescentSinceNs else None
  }

  /** The check asks for sleep first. */
  predicate StartsOver(w: World) { Current(w).desired.Awake? || Current(w).phase.Active? }

  /** Clock and snapshot are given up; nothing outside the item has changed. */
  predicate GivenUp(w: World, w': World) {
    && Current(w').quiescentSinceNs.None? && Current(w').desired.Asleep?
    && (if WorkingPhase(w).Snapshotting? || WorkingPhase(w).SnapshotReady?
        then Current(w').phase.Quiescing? && Current(w').snapshotName.None? && Current(w').errorType.None?
        else Current(w').phase == WorkingPhase(w) && Current(w').snapshotName == Current(w).snapshotName)
    && (StartsOver(w) ==> Current(w').errorType.None?) && CacheUntouched(w, w')
  }

  /** The check logs that it reported activity. */
  predicate LogsActivity(w: World, w': World) { w'.log != [] && w'.log[|w'.log| - 1] == ActivitySeen(w.now) }

  predicate CacheUntouched(w: World, w': World) {
    w'.group == w.group && w'.snapshots == w.snapshots && w'.contents == w.contents && w'.lease == w.lease
  }

  /** The world the check works from once it has asked for sleep. */
  predicate Working(w: World) {
    w.now - w.lease >= w.cfg.idleNs && Current(w).desired.Asleep? && !Current(w).phase.Active?
  }

  function Entered(w: World): World { Entering(Note(w, Invoked)) }

  lemma CheckEnters(w: World, name: string)
    requires ToBeChecked(w)
    ensures var e := Entered(w);
      && Working(e) && Current(e).phase == WorkingPhase(w) && Current(e).quiescentSinceNs == WorkingClock(w)
      && Current(e).snapshotName == Current(w).snapshotName
      && e == w.(item := e.item, log := w.log + [Invoked]) && ClockRecorded(e) == ClockRecorded(w)
      && (if StartsOver(w)
          then Current(e).revision == Current(w).revision + 1 && Current(e).updatedAtNs == w.now && Current(e).errorType.None?
          else e.item == w.item)
      && (w.item.None? ==> Current(e) == Item(1, Asleep, Quiescing, None, None, None, None, w.now))
      && Current(e).wakeRequestedNs == Current(w).wakeRequestedNs
      && IdleCheck(w, name) == (Ended(Progressing(e, name).0), Progressing(e, name).1)
  {
    hide Progressing;
    assert w.log + [Invoked] + [] == w.log + [Invoked];
  }

  /** The log of a check whose first guard was clear: a datapoint is noted exactly when there was one. */
  function Opening(w: World): seq<Event> { w.log + [Invoked] + [GuardClear(w.now, w.queueMax.Some?, true)] }

  /** The same with the second guard, which allows no API task. */
  function Closing(w: World): seq<Event> { Opening(w) + [GuardClear(w.now, w.queueMax.Some?, false)] }

  lemma EmptyNotes()
    ensures forall log: seq<Event> :: log + [] == log
  {
  }

  lemma GuardIs(w: World, allowApi: bool)
    requires Working(w)
    ensures GuardSighting(w, w.lease, allowApi, HasZeroProof(Current(w)))
            == if !WorkerQuiet(w) then Stirring(WorkerActive)
               else if w.queueMax.None? && !ClockRecorded(w) then Stirring(QueueMetricMissing)
               else if w.queueMax.Some? && w.queueMax.value > 0 then Stirring(QueueActive)
               else if w.otherTasks + w.apiDraining > 0 || (!allowApi && w.apiTasks > 0) then Stirring(StandaloneTasksActive)
               else Clear(w.queueMax.Some?)
  {
  }

  /** Everything is quiet, the API included. */
  predicate AllQuiet(w: World) { OthersQuiet(w) && ApiDown(w) && w.apiTasks == 0 }

  predicate Reports(r: Reply<Outcome>, reason: Reason) { r == Ok(KeepsAwake(reason)) }

  lemma QuietCacheStep(w: World, name: string)
    requires Working(w) && AllQuiet(w)
    ensures var r := ProgressSleep(w, w.lease, name).1;
      || r.Raised?
      || (r.Ok? && (r.value.KeepsAwake? ==>
            r.value.reason.CacheNotAvailable? || r.value.reason.CacheNotAvailableBeforeDelete?))
  {
    GuardIs(w, true);
    var c := Cleared(w, true);
    if c.cfg.hibernation && c.group.Group? {
      match Current(c).phase
      case Snapshotting =>
      case SnapshotReady => GuardIs(c.(settled := true), false);
      case _ =>
        var b := BeginQuiescing(c);
        if b.cfg.hibernation && Current(b).quiescentSinceNs.Some? { GuardIs(b, false); }
    }
  }

  /** Which activity a check reports: the first of worker, queue and standalone ECS tasks. */
  lemma CheckReportsActivity(w: World, name: string)
    requires ToBeChecked(w)
    ensures var r := IdleCheck(w, name).1;
      && (Reports(r, WorkerActive) <==> !WorkerQuiet(w))
      && (Reports(r, QueueMetricMissing) <==> WorkerQuiet(w) && w.queueMax.None? && !ClockRecorded(w))
      && (Reports(r, QueueActive) <==> WorkerQuiet(w) && w.queueMax.Some? && w.queueMax.value > 0)
      && (Reports(r, StandaloneTasksActive) <==> WorkerQuiet(w) && QueueQuiet(w) && w.otherTasks + w.apiDraining > 0)
  {
    hide ProgressCache;
    CheckEnters(w, name);
    GuardIs(Entered(w), true);
    if AllQuiet(Entered(w)) { QuietCacheStep(Entered(w), name); }
  }

  /** A check that reports activity gives up its clock and a snapshot under way, and touches nothing else. */
  lemma CheckGivesUp(w: World, name: string)
    requires ToBeChecked(w) && !OthersQuiet(w)
    ensures GivenUp(w, IdleCheck(w, name).0) && IdleCheck(w, name).0.api == w.api
  {
    hide ProgressApi, GuardSighting, IdleCheck, ToBeChecked, ClockRecorded, Reported;
    CheckEnters(w, name);
    GuardIs(Entered(w), true);
    ReportingKeeps(Invalidate(Entered(w)));
  }

  lemma ReportingKeeps(w: World)
    ensures forall reason :: var w' := Reported(w, reason); w' == w.(unseen := w'.unseen, log := w'.log)
  {
  }

  /** It logs the activity it reports, unless the datapoint was only missing. */
  lemma CheckLogsActivity(w: World, name: string)
    requires ToBeChecked(w) && !OthersQuiet(w)
    ensures LogsActivity(w, IdleCheck(w, name).0) <==> !WorkerQuiet(w) || w.queueMax.Some? || ClockRecorded(w)
  {
    hide ProgressApi, GuardSighting, IdleCheck, ToBeChecked, ClockRecorded;
    EmptyNotes();
    CheckEnters(w, name);
    GuardIs(Entered(w), true);
  }

  /** With everything else quiet the API is scaled down and the clock starts over. */
  lemma CheckStopsApi(w: World, name: string)
    requires ToBeChecked(w) && OthersQuiet(w) && !ApiDown(w)
    ensures var (w', r) := IdleCheck(w, name);
      r == Ok(Waits) && GivenUp(w, w') && w'.api == w.api.(desired := 0)
      && w'.log == Opening(w) + [ActivitySeen(w.now)]
  {
    hide GuardSighting, IdleCheck, ProgressCache, KeepAwake, ToBeChecked, ClockRecorded;
    EmptyNotes();
    CheckEnters(w, name);
    GuardIs(Entered(w), true);
  }

  lemma CheckAwaitsApiTasks(w: World, name: string)
    requires ToBeChecked(w) && OthersQuiet(w) && ApiDown(w) && w.apiTasks > 0
    ensures var (w', r) := IdleCheck(w, name);
      Reports(r, TasksAfterScale) && GivenUp(w, w') && w'.api == w.api
      && w'.log == Opening(w) + [ActivitySeen(w.now)]
  {
    EmptyNotes();
    CheckEnters(w, name);
    GuardIs(Entered(w), true);
  }

  /** Without hibernation an idle API sleeps and the cache stays. */
  lemma CheckWithoutHibernation(w: World, name: string)
    requires ToBeChecked(w) && AllQuiet(w) && !w.cfg.hibernation
    ensures var (w', r) := IdleCheck(w, name);
      && r == Ok(FallsAsleep) && CacheUntouched(w, w') && w'.log == Opening(w)
      && Current(w').desired.Asleep? && Current(w').phase.Sleeping? && Current(w').quiescentSinceNs.None?
      && Current(w').snapshotName == Current(w).snapshotName && Current(w').errorType.None?
  {
    EmptyNotes();
    CheckEnters(w, name);
    GuardIs(Entered(w), true);
  }

  /** The snapshot an absent cache is taken to be in: the protected one, or the newest if none is named. */
  function AdoptedSnapshot(w: World): Option<string> {
    if Current(w).snapshotName.Some? then Current(w).snapshotName
    else Latest(w.snapshots, SnapshotNames.Mine(w.cfg.prefix))
  }

  predicate IsAvailable(w: World, name: Option<string>) {
    name.Some? && name.value in w.snapshots && w.snapshots[name.value].Available?
  }

  predicate FailedCheck(w: World, w': World, r: Reply<Outcome>) {
    Reports(r, DependencyError) && Current(w').phase.Error? && Current(w').quiescentSinceNs.None?
    && Current(w').errorType == Some("RuntimeError")
    && Current(w').snapshotName == Current(w).snapshotName && CacheUntouched(w, w')
  }

  lemma CheckOfAbsentCache(w: World, name: string)
    requires ToBeChecked(w) && AllQuiet(w) && w.cfg.hibernation && w.group.Absent?
    ensures var (w', r) := IdleCheck(w, name); var it := Current(w');
      if IsAvailable(w, AdoptedSnapshot(w))
      then r == Ok(FallsAsleep) && it.desired.Asleep? && it.phase.Sleeping? && it.snapshotName == AdoptedSnapshot(w)
           && it.quiescentSinceNs.None? && it.errorType.None? && CacheUntouched(w, w')
      else FailedCheck(w, w', r)
  {
    CheckEnters(w, name);
    GuardIs(Entered(w), true);
  }

  predicate PresentAndQuiet(w: World) { ToBeChecked(w) && AllQuiet(w) && w.cfg.hibernation && w.group.Group? }

  /** While a snapshot is being taken: on to SNAPSHOT_READY exactly when it and the group are available. */
  lemma CheckWhileSnapshotting(w: World, name: string)
    requires PresentAndQuiet(w) && WorkingPhase(w).Snapshotting?
    ensures var (w', r) := IdleCheck(w, name);
            var it, taken := Current(w), Current(w).snapshotName;
      if taken.None? || taken.value !in w.snapshots || w.snapshots[taken.value].Failed? then FailedCheck(w, w', r)
      else if w.snapshots[taken.value].Available? && w.group.status.Ready?
      then r == Ok(HasSnapshot) && w'.log == Opening(w) && Current(w').phase.SnapshotReady? && Current(w').snapshotName == taken
           && Current(w').quiescentSinceNs == it.quiescentSinceNs && Current(w').errorType.None? && CacheUntouched(w, w')
      else r == Ok(TakesSnapshot) && w'.item == w.item && CacheUntouched(w, w')
  {
    EmptyNotes();
    CheckEnters(w, name);
    GuardIs(Entered(w), true);
  }

  /** With the snapshot ready: the available cache is deleted behind DELETING, an unavailable one is left. */
  lemma CheckWithSnapshotReady(w: World, name: string)
    requires PresentAndQuiet(w) && WorkingPhase(w).SnapshotReady?
    ensures var (w', r) := IdleCheck(w, name);
      if !IsAvailable(w, Current(w).snapshotName) then FailedCheck(w, w', r)
      else if w.group.status.Ready?
      then r == Ok(DeletesCache) && Current(w').phase.Deleting? && Current(w').snapshotName == Current(w).snapshotName
           && Current(w').errorType.None?
           && w'.group == w.group.(status := Going) && w'.snapshots == w.snapshots && w'.contents == w.contents
           && w'.log == Closing(w) + [GroupDeleted(Image(w.snapshots, Current(w).snapshotName), w.contents)]
      else Reports(r, CacheNotAvailableBeforeDelete) && w'.item == w.item && CacheUntouched(w, w')
  {
    EmptyNotes();
    CheckEnters(w, name);
    GuardIs(Entered(w), true);
    GuardIs(Cleared(Entered(w), true).(settled := true), false);
  }

  /** In every other phase a group that is not available is only recorded or waited for. */
  lemma CheckOfUnavailableCache(w: World, name: string)
    requires PresentAndQuiet(w) && !WorkingPhase(w).Snapshotting? && !WorkingPhase(w).SnapshotReady? && !w.group.status.Ready?
    ensures var (w', r) := IdleCheck(w, name);
      && CacheUntouched(w, w')
      && (w.group.status.Going? ==>
            r == Ok(DeletesCache) && Current(w').phase.Deleting? && Current(w').snapshotName == Current(w).snapshotName
            && (WorkingPhase(w).Deleting? || Current(w').errorType.None?))
      && (w.group.status.Starting? || w.group.status.Busy? ==>
            Reports(r, CacheNotAvailable) && Current(w').phase == WorkingPhase(w)
            && Current(w').snapshotName == Current(w).snapshotName)
  {
    CheckEnters(w, name);
    GuardIs(Entered(w), true);
  }

  /** The clock an available cache is being quiesced by; only QUIESCING and DELETING carry one on. */
  function RunningClock(w: World): Option<nat> {
    if WorkingPhase(w).Quiescing? || WorkingPhase(w).Deleting? then WorkingClock(w) else None
  }

  lemma QuiesceIs(w: World, name: string)
    requires Working(w) && AllQuiet(w) && w.group.Group? && w.group.status.Ready?
    requires !Current(w).phase.Snapshotting? && !Current(w).phase.SnapshotReady?
    ensures var (w', r) := Quiesce(w, w.lease, name);
            var clock := if Current(w).phase.Quiescing? || Current(w).phase.Deleting? then Current(w).quiescentSinceNs else None;
      && w' == w.(item := w'.item, log := w'.log, snapshots := w'.snapshots) && Current(w').quiescentSinceNs.Some?
      && (r.Ok? && !r.value.TakesSnapshot? ==>
            Current(w').snapshotName == if Current(w).phase.Quiescing? then Current(w).snapshotName else None)
      && if clock.None?
         then r == Ok(StartsQuiescence) && Current(w').phase.Quiescing? && Current(w').quiescentSinceNs == Some(w.now)
              && w'.snapshots == w.snapshots
         else if w.now - clock.value < w.cfg.quiescenceNs
         then r == Ok(Waits) && Current(w').phase.Quiescing? && Current(w').quiescentSinceNs == clock
              && w'.snapshots == w.snapshots
         else r == Ok(TakesSnapshot) && Current(w').phase.Snapshotting? && Current(w').snapshotName == Some(name)
              && Current(w').quiescentSinceNs == clock && Current(w').errorType.None?
              && w'.snapshots == (if name in w.snapshots then w.snapshots else w.snapshots[name := Creating(None)])
              && w'.log == w.log + [GuardClear(w.now, w.queueMax.Some?, false)]
                           + if name in w.snapshots then [] else [SnapshotRequested(w.now, name)]
  {
    EmptyNotes();
    hide GuardSighting;
    GuardIs(BeginQuiescing(w), false);
  }

  /** An available cache: start the clock, wait for it, then request the snapshot. */
  lemma CheckQuiesces(w: World, name: string)
    requires PresentAndQuiet(w) && !WorkingPhase(w).Snapshotting? && !WorkingPhase(w).SnapshotReady? && w.group.status.Ready?
    ensures var (w', r) := IdleCheck(w, name);
      r.Ok? && !r.value.TakesSnapshot? ==>
        Current(w').snapshotName == if WorkingPhase(w).Quiescing? then Current(w).snapshotName else None
    ensures var (w', r) := IdleCheck(w, name); var clock := RunningClock(w);
      if clock.None?
      then r == Ok(StartsQuiescence) && Current(w').phase.Quiescing? && Current(w').quiescentSinceNs == Some(w.now)
           && CacheUntouched(w, w')
      else if w.now - clock.value < w.cfg.quiescenceNs
      then r == Ok(Waits) && Current(w').phase.Quiescing? && Current(w').quiescentSinceNs == clock && CacheUntouched(w, w')
      else r == Ok(TakesSnapshot) && Current(w').phase.Snapshotting? && Current(w').snapshotName == Some(name)
           && Current(w').quiescentSinceNs == clock && Current(w').errorType.None?
           && w'.group == w.group && w'.contents == w.contents
           && w'.snapshots == (if name in w.snapshots then w.snapshots else w.snapshots[name := Creating(None)])
           && w'.log == Closing(w) + if name in w.snapshots then [] else [SnapshotRequested(w.now, name)]
  {
    hide Quiesce, GuardSighting, IdleCheck, ToBeChecked;
    CheckEnters(w, name);
    GuardIs(Entered(w), true);
    QuiesceIs(Cleared(Entered(w), true), name);
  }

  /** A sleeping cache whose protected snapshot is gone is recorded as an error. */
  lemma CheckOfUnprotectedSleep(w: World, name: string)
    requires w.now - w.lease >= w.cfg.idleNs && Current(w).desired.Asleep? && Current(w).phase.Sleeping? && w.group.Absent?
    requires !IsAvailable(w, Current(w).snapshotName)
    ensures var (w', r) := IdleCheck(w, name);
      FailedCheck(w, w', r)
  {
  }

  /** The clock is gone and no snapshot is under way any more; the cache, its snapshots and the lease are as they were. */
  predicate KeptAwake(w: World, w': World) {
    && Current(w').quiescentSinceNs.None? && !Current(w').phase.Snapshotting? && !Current(w').phase.SnapshotReady?
    && (Current(w).phase.Snapshotting? || Current(w).phase.SnapshotReady? ==>
          Current(w').phase.Quiescing? && Current(w').snapshotName.None?)
    && CacheUntouched(w, w')
  }

  lemma KeepingAwake(w: World, reason: Reason)
    ensures var (w', r) := KeepAwake(w, reason);
      Reports(r, reason) && KeptAwake(w, w') && w'.api == w.api
    ensures var w' := Reported(Invalidate(w), reason);
      KeptAwake(w, w') && w'.api == w.api && w'.now == w.now && w'.cfg == w.cfg
  {
  }

  /** A lease renewed since it was read: the first guard reports it, and an API scaled down is scaled up again. */
  lemma RenewedLeaseKeepsAwake(w: World, observed: nat, name: string)
    requires observed != w.lease || w.now - w.lease < w.cfg.idleNs
    ensures var (w', r) := ProgressSleep(w, observed, name);
      Reports(r, WakeRace) && KeptAwake(w, w') && w'.api == w.api
    ensures var (w', r) := StopApi(w, observed);
      Reports(r, WakeRaceAfterScale) && KeptAwake(w, w') && w'.api == w.api.(desired := 1)
  {
    hide KeepAwake, Reported, Invalidate, ProgressApi;
    KeepingAwake(w, WakeRace);
    KeepingAwake(w, WakeRaceAfterScale);
  }

  /** An API that shows again behind the second guard keeps the cache and takes no snapshot of it. */
  lemma ReturningApiKeepsAwake(w: World, name: string)
    requires !ApiDown(w)
    ensures var (w', r) := DeleteCleared(w);
      Reports(r, ApiBeforeDelete) && KeptAwake(w, w') && w'.api == w.api
    ensures var (w', r) := SnapshotCleared(w, name);
      Reports(r, ApiBeforeSnapshot) && KeptAwake(w, w') && w'.api == w.api
  {
    hide KeepAwake, KeptAwake;
    KeepingAwake(w, ApiBeforeDelete);
    KeepingAwake(w, ApiBeforeSnapshot);
  }

  /** Whatever the second guard finds keeps the cache: before a snapshot, and before a deletion. */
  lemma SecondGuardKeepsAwake(w: World, observed: nat, name: string, reason: Reason)
    requires GuardReason(w, observed, false, HasZeroProof(Current(w))) == Some(reason)
    ensures var (w', r) := StartSnapshot(w, observed, name);
      Reports(r, reason) && KeptAwake(w, w') && w'.api == w.api
    ensures IsAvailable(w, Current(w).snapshotName) ==>
              var (w', r) := DeleteProtected(w, observed);
              Reports(r, reason) && KeptAwake(w, w') && w'.api == w.api
  {
    hide KeepAwake, KeptAwake, GuardReason, HasZeroProof;
    var s := w.(settled := true);
    KeepingAwake(w, reason);
    KeepingAwake(s, reason);
    KeptAwakeSettled(w, KeepAwake(s, reason).0);
    SettledGuard(w, observed);
  }

  lemma KeptAwakeSettled(w: World, w': World)
    ensures KeptAwake(w.(settled := true), w') == KeptAwake(w, w')
  {
  }

  lemma SettledGuard(w: World, observed: nat)
    ensures var s := w.(settled := true);
      GuardReason(s, observed, false, HasZeroProof(Current(s))) == GuardReason(w, observed, false, HasZeroProof(Current(w)))
  {
  }

  // ---------------------------------------------------------------- waking

  /** What reconciling answers about itself: the stored phase, and 200 exactly with a running API task. */
  predicate Truthful(w: World, woken: Woken) {
    && woken.phase == Current(w).phase
    && (woken.code == 200 <==> woken.api.running > 0) && (woken.code == 200 || woken.code == 202)
  }

  /** A present cache that is not available: DELETING for a deleting one, RESTORING for a starting or busy one. */
  predicate Awaits(w: World, w': World, woken: Woken)
    requires w.group.Group?
  {
    && w'.group == w.group && w'.api == w.api && woken.api == Counts(0, 0, 0) && woken.code == 202
    && (w.group.status.Going? <==> Current(w').phase.Deleting?) && (w.group.status.Going? <==> woken.phase.Deleting?)
    && (w.group.status.Starting? || w.group.status.Busy? <==> Current(w').phase.Restoring?)
    && (w.group.status.Starting? || w.group.status.Busy? <==> woken.phase.Restoring?)
    && Current(w').snapshotName == Current(w).snapshotName
    && (Current(w').phase == Current(w).phase || Current(w').errorType.None?)
  }

  lemma ReconcileAwaits(w: World)
    requires w.cfg.hibernation && w.group.Group? && !w.group.status.Ready?
    ensures var (w', r) := Reconcile(w);
      r.Ok? && Awaits(w, w', r.value) && Truthful(w', r.value)
  {
  }

  /** An available cache with a usable URL: the API is asked for, behind a URL that names the endpoint. */
  predicate Serves(w: World, w': World, woken: Woken)
    requires w.group.Group? && RedisUrl.Usable(w.url)
  {
    && w'.group == w.group && w'.api == w.api.(desired := 1) && woken.api == w'.api
    && (w.api.running > 0 || Current(w).phase.Active? <==> Current(w').phase.Active?)
    && (w.api.running == 0 && !Current(w).phase.Active? <==> Current(w').phase.ApiStarting?)
    && w'.url == (if Current(w).phase.Active? && RedisUrl.PointsAt(w.url, w.group.endpoint, w.cfg.port) then w.url
                  else Some(RedisUrl.Readdressed(w.url.value, w.group.endpoint, w.cfg.port)))
    && Current(w').snapshotName == Current(w).snapshotName
    && (Current(w).phase.Active? || (Current(w).phase.ApiStarting? && w.api.running == 0) || Current(w').errorType.None?)
    && PrunedIf(!Current(w).phase.Active? && w.api.running > 0, w, w')
  }

  /** Once the API runs, snapshots beyond the retention are dropped, and no other ever is. */
  predicate PrunedIf(runs: bool, w: World, w': World) {
    w'.snapshots == if runs
                    then SnapshotPruning.Pruned(w.snapshots, SnapshotNames.Mine(w.cfg.prefix), w.cfg.retention,
                                                Current(w).snapshotName)
                    else w.snapshots
  }

  lemma {:induction false} DropAllDrops(w: World, names: seq<string>)
    ensures DropAll(w, names).snapshots == w.snapshots - set n | n in names
    decreases |names|
  {
    if names != [] {
      DropAllDrops(DropSnapshot(w, names[0]), names[1..]);
      assert (set n | n in names) == {names[0]} + set n | n in names[1..];
    }
  }

  lemma LaunchServes(w: World)
    requires w.item.Some? && Current(w).phase.ApiStarting?
    ensures var (w', r) := LaunchApi(w);
      && r.Ok? && Truthful(w', r.value) && r.value.api == w'.api
      && w'.group == w.group && w'.api == w.api.(desired := 1) && w'.url == w.url
      && Current(w').snapshotName == Current(w).snapshotName
      && (if w.api.running > 0 then Current(w').phase.Active? && Current(w').errorType.None? else w'.item == w.item)
      && PrunedIf(w.api.running > 0, w, w')
  {
    hide Victims;
    var w1 := EnsureApi(w);
    var woken := Save(w1, AwakeItem(Current(w1)));
    DropAllDrops(woken, Victims(woken.snapshots, SnapshotNames.Mine(woken.cfg.prefix), woken.cfg.retention,
                                Current(woken).snapshotName));
    DropAllOnly(woken, Victims(woken.snapshots, SnapshotNames.Mine(woken.cfg.prefix), woken.cfg.retention,
                               Current(woken).snapshotName));
  }

  lemma ReconcileServes(w: World)
    requires w.cfg.hibernation && w.group.Group? && w.group.status.Ready? && RedisUrl.Usable(w.url)
    ensures var (w', r) := Reconcile(w);
      r.Ok? && Serves(w, w', r.value) && Truthful(w', r.value)
  {
    hide LaunchApi;
    if !Current(w).phase.Active? {
      var p := Publish(Note(w, GroupSeen(w.group))).value;
      LaunchServes(if Current(p).phase.ApiStarting? then p
                   else Save(p, Current(p).(phase := ApiStarting, quiescentSinceNs := None, errorType := None)));
    }
  }

  /** The snapshot to restore: the protected one while it exists, else the newest available one. */
  function Restorable(w: World): Option<string> {
    var name := Current(w).snapshotName;
    if name.Some? && name.value in w.snapshots then name else Latest(w.snapshots, SnapshotNames.Mine(w.cfg.prefix))
  }

  /** An absent cache is created from the snapshot once that is available, and not before. */
  predicate Restores(w: World, w': World, woken: Woken) {
    && Restorable(w).Some? && Current(w').phase.Restoring? && Current(w').desired.Awake?
    && Current(w').snapshotName == Restorable(w)
    && w'.api == w.api && woken == Woken(202, Restoring, Counts(0, 0, 0))
    && (if IsAvailable(w, Restorable(w))
        then w'.group == Group(Starting, w.nextEndpoint) && w'.contents == w.snapshots[Restorable(w).value].image
             && ((Current(w).phase.Restoring? && Current(w).snapshotName == Restorable(w)) || Current(w').errorType.None?)
        else w'.group.Absent? && w'.contents == w.contents)
  }

  lemma ReconcileRestores(w: World)
    requires w.cfg.hibernation && w.group.Absent?
    requires Restorable(w).Some? && (w.url.Some? || !IsAvailable(w, Restorable(w))) && Current(w).desired.Awake?
    ensures var (w', r) := Reconcile(w);
      r.Ok? && Restores(w, w', r.value) && Truthful(w', r.value)
  {
  }

  lemma ReconcileWithoutHibernation(w: World)
    requires !w.cfg.hibernation
    ensures var (w', r) := Reconcile(w);
      && r.Ok? && Truthful(w', r.value) && r.value.api == w'.api && w'.api == w.api.(desired := 1)
      && Current(w').phase.Active? && w'.group == w.group
  {
  }

  /** Reconciling fails exactly when nothing can be restored, or the URL it needs cannot be used. */
  lemma ReconcileFailsExactlyWhen(w: World)
    ensures Reconcile(w).1.Ok? || Reconcile(w).1 == Raised("RuntimeError")
    ensures Reconcile(w).1.Raised? <==>
              && w.cfg.hibernation
              && ((w.group.Group? && w.group.status.Ready? && !RedisUrl.Usable(w.url))
                  || (w.group.Absent? && Restorable(w).None?)
                  || (w.group.Absent? && IsAvailable(w, Restorable(w)) && w.url.None?))
  {
    hide LaunchApi;
    if w.cfg.hibernation && w.group.Group? && w.group.status.Ready? && RedisUrl.Usable(w.url) { ReconcileServes(w); }
  }

  // ---------------------------------------------------------------- the three ways to reconcile

  /** A wake, a check with a fresh lease, or a check that continues an interrupted wake. */
  datatype Entry = ByWake | ByFreshLease | ByInterruptedWake

  predicate Enters(w: World, entry: Entry) {
    match entry
    case ByWake => true
    case ByFreshLease => w.now - w.lease < w.cfg.idleNs
    case ByInterruptedWake =>
      && w.now - w.lease >= w.cfg.idleNs && Current(w).desired.Awake?
      && (Current(w).phase.Deleting? || Current(w).phase.Restoring? || Current(w).phase.ApiStarting?)
  }

  /** What is stored before reconciling: a wake resets the clock and renews lease and request time. */
  function Reconciled(w: World, entry: Entry): World {
    var begun := Note(w, Invoked);
    match entry
    case ByWake =>
      var base := BaseOf(w.item);
      Put(begun.(lease := w.now), Stamp(base, WakeItem(base, w.now), w.now), [WakeAccepted(w.now)])
    case ByFreshLease =>
      if Current(w).desired.Awake? then begun
      else Save(begun, Current(w).(desired := Awake, wakeRequestedNs := Some(w.lease)))
    case ByInterruptedWake => begun
  }

  /** The world after the invocation, and what reconciling answered if it succeeded. */
  function Result(w: World, entry: Entry, name: string): (World, Option<Woken>) {
    match entry
    case ByWake =>
      var (w', r) := Wake(w);
      (w', if r.Ok? && r.value.Accepted? then Some(r.value.woken) else None)
    case _ =>
      var (w', r) := IdleCheck(w, name);
      (w', if r.Ok? && r.value.Reconciles? then Some(r.value.reply) else None)
  }

  /** What a reconciliation starts from, in each of the three ways. */
  lemma ReconciledIs(w: World, entry: Entry)
    requires Enters(w, entry)
    ensures var v := Reconciled(w, entry); var it := Current(v);
      && v == w.(item := v.item, lease := v.lease, log := v.log)
      && it.desired.Awake? && it.snapshotName == Current(w).snapshotName
      && it.phase == (if entry.ByWake? && w.item.None? then ApiStarting else Current(w).phase)
      && (if entry.ByWake?
          then v.lease == w.now && it.wakeRequestedNs == Some(w.now) && it.quiescentSinceNs.None? && it.errorType.None?
          else v.lease == w.lease && it.quiescentSinceNs == Current(w).quiescentSinceNs && it.errorType == Current(w).errorType)
      && (if entry.ByWake? || (entry.ByFreshLease? && Current(w).desired.Asleep?)
          then it.revision == Current(w).revision + 1 && it.updatedAtNs == w.now else v.item == w.item)
      && (entry.ByFreshLease? && Current(w).desired.Asleep? ==> it.wakeRequestedNs == Some(w.lease))
      && (entry.ByFreshLease? && w.item.None? ==> it == Item(0, Awake, Active, None, None, None, None, 0))
      && (entry.ByWake? && w.item.None? ==> it == Item(1, Awake, ApiStarting, None, None, Some(w.now), None, w.now))
  {
  }

  /** Each of the three reconciles that and ends; a failure is answered by none. */
  lemma ResultIs(w: World, entry: Entry, name: string)
    requires Enters(w, entry)
    ensures var reconciled := Reconcile(Reconciled(w, entry));
      && (Result(w, entry, name).1 == if reconciled.1.Ok? then Some(reconciled.1.value) else None)
      && (reconciled.1.Ok? ==> Result(w, entry, name).0 == Ended(reconciled.0))
      && (reconciled.1.Ok? && !entry.ByWake? ==> IdleCheck(w, name).1.value.recent == entry.ByFreshLease?)
  {
    hide Reconcile;
    ReconcileFails(Reconciled(w, entry));
  }

  lemma ReconcileFails(w: World)
    ensures Reconcile(w).1.Ok? || Reconcile(w).1 == Raised("RuntimeError")
    ensures Reconcile(w).1.Raised? ==>
              || Reconcile(w).0.item == w.item
              || (Reconcile(w).0.item.Some? && Current(Reconcile(w).0).revision > Current(w).revision
                  && Current(Reconcile(w).0).phase.Error? && Current(Reconcile(w).0).quiescentSinceNs.None?
                  && Current(Reconcile(w).0).errorType == Some("RuntimeError"))
  {
    hide LaunchApi;
    ReconcileFailsExactlyWhen(w);
  }

  /** While the group is present and not available, every way stores and answers the phase of its status. */
  lemma WakingAwaitsTheCache(w: World, entry: Entry, name: string)
    requires Enters(w, entry) && w.cfg.hibernation && w.group.Group? && !w.group.status.Ready?
    ensures var (w', woken) := Result(w, entry, name);
      woken.Some? && Awaits(w, w', woken.value) && Truthful(w', woken.value)
  {
    hide Reconcile, Reconciled;
    ReconciledIs(w, entry);
    ResultIs(w, entry, name);
    ReconcileAwaits(Reconciled(w, entry));
  }

  /** With the cache available and the URL usable, every way asks for the API and says whether it runs. */
  lemma WakingServes(w: World, entry: Entry, name: string)
    requires Enters(w, entry) && w.cfg.hibernation && w.group.Group? && w.group.status.Ready? && RedisUrl.Usable(w.url)
    ensures var (w', woken) := Result(w, entry, name);
      woken.Some? && Serves(Reconciled(w, entry), w', woken.value) && Truthful(w', woken.value)
  {
    hide Reconcile, Reconciled;
    ReconciledIs(w, entry);
    ResultIs(w, entry, name);
    ReconcileServes(Reconciled(w, entry));
  }

  /** With the cache absent, every way restores it from the snapshot it is to be restored from. */
  lemma WakingRestores(w: World, entry: Entry, name: string)
    requires Enters(w, entry) && w.cfg.hibernation && w.group.Absent? && Restorable(w).Some?
    requires w.url.Some? || !IsAvailable(w, Restorable(w))
    ensures var (w', woken) := Result(w, entry, name);
      woken.Some? && Restores(w, w', woken.value) && Truthful(w', woken.value)
  {
    hide Reconcile, Reconciled;
    ReconciledIs(w, entry);
    ResultIs(w, entry, name);
    ReconcileRestores(Reconciled(w, entry));
  }

  /** Whatever reconciling answers, it answers the stored phase, and 200 exactly with a running API task. */
  lemma WakingAnswersTruthfully(w: World, entry: Entry, name: string)
    requires Enters(w, entry) && Result(w, entry, name).1.Some?
    ensures Truthful(Result(w, entry, name).0, Result(w, entry, name).1.value)
  {
    hide Reconcile, Reconciled;
    ReconciledIs(w, entry);
    ResultIs(w, entry, name);
    var v := Reconciled(w, entry);
    ReconcileFailsExactlyWhen(v);
    if !v.cfg.hibernation { ReconcileWithoutHibernation(v); }
    else if v.group.Absent? { ReconcileRestores(v); }
    else if v.group.status.Ready? { ReconcileServes(v); }
    else { ReconcileAwaits(v); }
  }

  /** A wake or check that cannot reconcile records the error. */
  lemma WakingRecordsFailure(w: World, entry: Entry, name: string)
    requires Enters(w, entry) && Result(w, entry, name).1.None?
    ensures Current(Result(w, entry, name).0).phase.Error? && Current(Result(w, entry, name).0).quiescentSinceNs.None?
    ensures Current(Result(w, entry, name).0).errorType == Some("RuntimeError")
    ensures if entry.ByWake? then Wake(w).1 == Ok(WakeFailed) else Reports(IdleCheck(w, name).1, DependencyError)
  {
    hide Reconcile;
    ReconcileFails(Reconciled(w, entry));
  }
}

/**
 Progress of uninterrupted invocations when the environment finishes what it has begun between
 them: waking reaches an active, running API and sleeping reaches an absent cache, each within a
 fixed number of invocations.
 */
module Progress {
  import opened Wrappers
  import opened StateStore
  import opened SnapshotCatalog
  import opened Cloud
  import opened Atomic
  import RedisUrl
  import SnapshotNames

  // ---------------------------------------------------------------- between invocations

  function Finished(g: Group): Group {
    if Leaving(g) then Absent else g.(status := Ready)
  }

  /** The environment has completed every pending action; nothing else the controller owns has changed. */
  ghost predicate Settles(w: World, m: World) {
    && m.cfg == w.cfg && m.item == w.item && m.url == w.url && m.settled == w.settled && m.now >= w.now
    && m.group == Finished(w.group)
    && m.api == Counts(w.api.desired, w.api.desired, 0) && m.apiTasks == w.api.desired && m.apiDraining == 0
    && RedisUrl.ValidHost(m.nextEndpoint)
    && m.snapshots.Keys == w.snapshots.Keys
    && (forall n :: n in w.snapshots ==>
          if w.snapshots[n].Creating? then m.snapshots[n].Available? else m.snapshots[n] == w.snapshots[n])
  }

  /** What the invariant of all runs gives here: a gone cache has its protected snapshot. */
  predicate Protected(w: World) {
    && RedisUrl.Usable(w.url) && RedisUrl.ValidPort(w.cfg.port)
    && RedisUrl.ValidHost(w.nextEndpoint)
    && (w.group.Group? ==> RedisUrl.ValidHost(w.group.endpoint))
    && (Leaving(w.group) ==>
          Image(w.snapshots, Current(w).snapshotName).Some? && !SnapshotPhase(Current(w).phase) && w.cfg.hibernation)
  }

  lemma SettlingProtects(w: World, m: World)
    requires Protected(w) && Settles(w, m)
    ensures Protected(m)
  {
  }

  // ---------------------------------------------------------------- waking

  /** Before the first item is written the first wake has one more step to take: it writes API_STARTING. */
  function WakeRank(w: World): nat {
    (if Leaving(w.group) then 1 else 0)
    + (if Leaving(w.group) || !Current(w).phase.Active? then 1 else 0)
    + (if w.api.desired == 1 then 0 else if w.item.None? then 2 else 1)
  }

  lemma WakeRankAtMostThree(w: World)
    requires Protected(w)
    ensures WakeRank(w) <= 3
  {
  }

  /** The API is running on an available cache and the controller says so. */
  predicate AwakeNow(w: World) {
    Current(w).phase.Active? && w.group.Group? && w.group.status.Ready? && w.api.running > 0
  }

  lemma SettlingKeepsWakeRank(w: World, m: World)
    requires Settles(w, m)
    ensures WakeRank(m) == WakeRank(w)
    ensures WakeRank(m) == 0 ==> AwakeNow(m)
  {
  }

  // What the parts of a reconciliation leave behind.

  lemma LaunchShape(w: World)
    ensures var w' := LaunchApi(w).0;
      && w' == w.(item := w'.item, api := w.api.(desired := 1), snapshots := w'.snapshots, log := w'.log,
                  unseen := w'.unseen)
      && (Current(w).desired.Awake? ==> Current(w').desired.Awake?)
      && (w.api.running > 0 ==> Current(w').phase.Active?)
      && (w.api.running == 0 ==> w'.item == w.item)
  {
    var w1 := EnsureApi(w);
    var woken := Save(w1, AwakeItem(Current(w1)));
    DropAllOnly(woken, Victims(woken.snapshots, SnapshotNames.Mine(woken.cfg.prefix), woken.cfg.retention,
                               Current(woken).snapshotName));
  }

  lemma StartShape(w: World)
    requires Protected(w) && w.group.Group?
    ensures StartApi(w).1.Ok?
    ensures var w' := StartApi(w).0;
      && w'.cfg == w.cfg && w'.group == w.group && w'.nextEndpoint == w.nextEndpoint
      && w'.api == w.api.(desired := 1) && RedisUrl.Usable(w'.url)
      && (Current(w).desired.Awake? ==> Current(w').desired.Awake?)
      && (if w.api.running > 0 then Current(w').phase.Active? else Current(w').phase.ApiStarting?)
  {
    var published := Publish(w).value;
    var it := Current(published);
    LaunchShape(if it.phase.ApiStarting? then published
                else Save(published, it.(phase := ApiStarting, quiescentSinceNs := None, errorType := None)));
  }

  lemma KeepActiveShape(w: World)
    requires Protected(w) && w.group.Group?
    ensures KeepActive(w).1.Ok?
    ensures var w' := KeepActive(w).0;
      && w'.cfg == w.cfg && w'.group == w.group && w'.nextEndpoint == w.nextEndpoint
      && w'.api == w.api.(desired := 1) && w'.item == w.item && RedisUrl.Usable(w'.url)
  {
  }

  lemma RestoreShape(w: World)
    requires Protected(w) && w.group.Absent?
    ensures Restore(w).1.Ok?
    ensures var w' := Restore(w).0;
      && w'.cfg == w.cfg && w'.group == Group(Starting, w.nextEndpoint) && w'.nextEndpoint == w.nextEndpoint
      && w'.api == w.api && w'.url == w.url && Current(w').phase.Restoring?
      && (Current(w).desired.Awake? ==> Current(w').desired.Awake?)
  {
  }

  /** A reconciliation that has read the group available. */
  function Seeing(w: World): World { Note(w, GroupSeen(w.group)) }

  /**
   A reconciliation raises the rank exactly when the phase is ACTIVE and the present cache is not
   available, unless no item was stored yet and the API is still to be asked for.
   */
  lemma ReconcilingRaisesRankOnlyInMaintenance(w: World)
    requires Protected(w)
    ensures WakeRank(Reconcile(w).0) > WakeRank(w)
            <==> w.cfg.hibernation && Current(w).phase.Active? && w.group.Group?
                 && (w.group.status.Starting? || w.group.status.Busy?)
                 && (w.item.Some? || w.api.desired == 1)
  {
    if w.cfg.hibernation {
      if w.group.Absent? {
        RestoreShape(w);
      } else if w.group.status.Ready? {
        if Current(w).phase.Active? { KeepActiveShape(Seeing(w)); } else { StartShape(Seeing(w)); }
      }
    }
  }

  /** Once the environment has caught up, a reconciliation strictly lowers the rank. */
  lemma ReconcilingLowersRank(m: World)
    requires Protected(m) && Finished(m.group) == m.group && m.api.running == m.api.desired
    ensures Protected(Reconcile(m).0) && Reconcile(m).1.Ok? && Reconcile(m).0.cfg == m.cfg
    ensures WakeRank(m) > 0 ==> WakeRank(Reconcile(m).0) < WakeRank(m)
    ensures WakeRank(m) == 0 ==> WakeRank(Reconcile(m).0) == 0
  {
    if m.cfg.hibernation {
      if m.group.Absent? {
        RestoreShape(m);
      } else if Current(m).phase.Active? {
        KeepActiveShape(Seeing(m));
      } else {
        StartShape(Seeing(m));
      }
    }
  }

  /** The environment catches up, then a wake is accepted or a check finds the lease fresh. */
  ghost predicate WakeRound(w: World, w': World) { exists m, name :: WakesVia(w, m, name, w') }

  ghost predicate WakesVia(w: World, m: World, name: string, w': World) {
    Settles(w, m) && (w' == Wake(m).0 || (m.now - m.lease < m.cfg.idleNs && w' == IdleCheck(m, name).0))
  }

  /** A world one rung lower, or already at the bottom. */
  predicate WakesLower(m: World, w: World) {
    Protected(w) && if WakeRank(m) > 0 then WakeRank(w) < WakeRank(m) else WakeRank(w) == 0
  }

  lemma WakeLowersRank(m: World)
    requires Protected(m) && Finished(m.group) == m.group && m.api.running == m.api.desired
    ensures WakesLower(m, Wake(m).0)
  {
    var base := BaseOf(m.item);
    ReconcilingLowersRank(Put(Note(m, Invoked).(lease := m.now), Stamp(base, WakeItem(base, m.now), m.now),
                              [WakeAccepted(m.now)]));
  }

  lemma RecentWakeLowersRank(m: World)
    requires Protected(m) && Finished(m.group) == m.group && m.api.running == m.api.desired
    ensures WakesLower(m, Ended(RecentWake(Note(m, Invoked)).0))
  {
    var it, begun := Current(m), Note(m, Invoked);
    ReconcilingLowersRank(if it.desired.Awake? then begun
                          else Save(begun, it.(desired := Awake, wakeRequestedNs := Some(m.lease))));
  }

  lemma WakeRoundLowersRank(w: World, w': World)
    requires Protected(w) && WakeRound(w, w')
    ensures WakesLower(w, w')
  {
    var m, name :| WakesVia(w, m, name, w');
    SettlingProtects(w, m);
    SettlingKeepsWakeRank(w, m);
    if w' == Wake(m).0 { WakeLowersRank(m); } else { RecentWakeLowersRank(m); }
  }

  lemma {:induction false} RoundsLowerWakeRank(run: seq<World>, i: nat)
    requires i < |run| && Protected(run[0])
    requires forall j :: 0 <= j < |run| - 1 ==> WakeRound(run[j], run[j + 1])
    ensures Protected(run[i]) && WakeRank(run[i]) + i <= if i <= WakeRank(run[0]) then WakeRank(run[0]) else i
  {
    hide Protected, WakeRank, WakeRound;
    if i > 0 {
      var j := i - 1;
      RoundsLowerWakeRank(run, j);
      assert WakeRound(run[j], run[j + 1]);
      WakeRoundLowersRank(run[j], run[j + 1]);
    }
  }

  /** From anywhere, three rounds bring the API up on the available cache, and it stays up. */
  lemma WakesWithinThreeRounds(run: seq<World>, i: nat, m: World)
    requires 3 <= i < |run| && Protected(run[0])
    requires forall j :: 0 <= j < |run| - 1 ==> WakeRound(run[j], run[j + 1])
    requires Settles(run[i], m)
    ensures AwakeNow(m) && Protected(m)
  {
    hide Protected, WakeRank, WakeRound, Settles, AwakeNow;
    WakeRankAtMostThree(run[0]);
    RoundsLowerWakeRank(run, i);
    SettlingProtects(run[i], m);
    SettlingKeepsWakeRank(run[i], m);
  }

  // ---------------------------------------------------------------- sleeping

  /** The check goes on to progress the sleep, on this item. */
  function Entering(m: World): World {
    var it := Current(m);
    if it.desired.Asleep? && !it.phase.Active? then m
    else Save(m, it.(desired := Asleep, phase := Quiescing, quiescentSinceNs := None, errorType := None))
  }

  /** The item carries a quiescence time in a phase in which a missing queue metric is tolerated. */
  predicate ClockRecorded(w: World) {
    var it := Current(w);
    && it.desired.Asleep? && it.quiescentSinceNs.Some?
    && (it.phase.Quiescing? || it.phase.Snapshotting? || it.phase.SnapshotReady? || it.phase.Deleting?)
  }

  /** Nothing but the controller is at work, the lease is stale and the quiescence time has passed. */
  predicate Undisturbed(m: World) {
    && m.now - m.lease >= m.cfg.idleNs
    && m.worker.Stopped() && m.otherTasks == 0
    && (if m.queueMax.Some? then m.queueMax.value <= 0 else ClockRecorded(m))
    && (m.group.Absent? && Current(m).desired.Asleep? && Current(m).phase.Sleeping? ==> m.api.desired == 0)
    && (Current(m).quiescentSinceNs.Some? ==> m.now - Current(m).quiescentSinceNs.value >= m.cfg.quiescenceNs)
  }

  predicate AsleepNow(w: World) {
    w.group.Absent? && Current(w).desired.Asleep? && Current(w).phase.Sleeping? && w.api.desired == 0
  }

  function SleepRank(w: World): nat {
    var it := Current(w);
    if WakesUp(it) then 6 + WakeRank(w)
    else if w.api.desired != 0 then 6
    else if Leaving(w.group) then (if AsleepNow(w) then 0 else 1)
    else if it.desired.Awake? then 5
    else
      match it.phase
      case SnapshotReady => if Image(w.snapshots, it.snapshotName).Some? then 2 else 6
      case Snapshotting =>
        if it.snapshotName.Some? && it.snapshotName.value in w.snapshots && !w.snapshots[it.snapshotName.value].Failed?
        then 3 else 6
      case Quiescing => if it.quiescentSinceNs.Some? then 4 else 5
      case Deleting => if it.quiescentSinceNs.Some? then 4 else 5
      case _ => 5
  }

  lemma SettlingKeepsSleepRank(w: World, m: World)
    requires Settles(w, m)
    ensures SleepRank(m) <= SleepRank(w)
  {
  }

  predicate Settled(m: World) {
    && Finished(m.group) == m.group
    && m.api == Counts(m.api.desired, m.api.desired, 0) && m.apiTasks == m.api.desired && m.apiDraining == 0
    && forall n :: n in m.snapshots ==> !m.snapshots[n].Creating?
  }

  lemma EnteringKeepsSleepRank(m: World)
    requires Protected(m) && Settled(m) && Undisturbed(m) && !WakesUp(Current(m)) && !AsleepNow(m)
    ensures var e := Entering(m);
      Protected(e) && Settled(e) && Undisturbed(e) && !WakesUp(Current(e)) && !AsleepNow(e)
      && Current(e).desired.Asleep? && !Current(e).phase.Active? && SleepRank(e) <= SleepRank(m)
  {
  }

  lemma GuardsAreClear(m: World, allowApi: bool)
    requires Settled(m) && Undisturbed(m) && (allowApi || m.api.desired == 0)
    ensures GuardReason(m, m.lease, allowApi, HasZeroProof(Current(m))).None?
  {
  }

  /** An undisturbed check that has found the API down and asked for sleep. */
  predicate Dozing(m: World) {
    && m.cfg.hibernation && Protected(m) && Settled(m) && Undisturbed(m)
    && Current(m).desired.Asleep? && !Current(m).phase.Active? && m.api.desired == 0
  }

  /** The check succeeded one rung lower, or raised without having changed anything. */
  predicate Lowers(m: World, w: World, r: Reply<Outcome>) {
    && Protected(w) && w.cfg == m.cfg
    && ((r.Ok? && SleepRank(w) < SleepRank(m))
        || (r.Raised? && w.item == m.item && SleepRank(m) == 6 && w.api.desired == 0 && !Leaving(w.group)))
  }

  lemma AwaitSnapshotLowers(m: World)
    requires Dozing(m) && m.group.Group? && Current(m).phase.Snapshotting?
    ensures Lowers(m, AwaitSnapshot(m).0, AwaitSnapshot(m).1)
  {
  }

  lemma DeleteLowers(m: World)
    requires Dozing(m) && m.group.Group? && Current(m).phase.SnapshotReady?
    ensures Lowers(m, DeleteProtected(m, m.lease).0, DeleteProtected(m, m.lease).1)
  {
    GuardsAreClear(m.(settled := true), false);
  }

  lemma AwaitQuiescenceLowers(m: World, name: string)
    requires Dozing(m) && m.group.Group? && Current(m).phase.Quiescing? && name !in m.snapshots
    ensures Lowers(m, AwaitQuiescence(m, m.lease, name).0, AwaitQuiescence(m, m.lease, name).1)
  {
    if Current(m).quiescentSinceNs.Some? { GuardsAreClear(m, false); }
  }

  lemma QuiesceLowers(m: World, name: string)
    requires Dozing(m) && m.group.Group? && !SnapshotPhase(Current(m).phase) && name !in m.snapshots
    requires !WakesUp(Current(m))
    ensures Lowers(m, Quiesce(m, m.lease, name).0, Quiesce(m, m.lease, name).1)
  {
    AwaitQuiescenceLowers(BeginQuiescing(m), name);
  }

  lemma AdoptLowers(m: World)
    requires Dozing(m) && m.group.Absent? && !AsleepNow(m)
    ensures Lowers(m, AdoptSleep(m).0, AdoptSleep(m).1)
  {
  }

  lemma StopApiLowers(m: World)
    requires Protected(m) && Undisturbed(m) && !WakesUp(Current(m))
    requires Current(m).desired.Asleep? && m.api.desired != 0
    ensures Lowers(m, StopApi(m, m.lease).0, StopApi(m, m.lease).1)
  {
  }

  lemma ProgressLowers(m: World, name: string)
    requires m.cfg.hibernation && Protected(m) && Settled(m) && Undisturbed(m) && !WakesUp(Current(m))
    requires Current(m).desired.Asleep? && !Current(m).phase.Active? && !AsleepNow(m) && name !in m.snapshots
    ensures Lowers(m, ProgressSleep(m, m.lease, name).0, ProgressSleep(m, m.lease, name).1)
  {
    GuardsAreClear(m, true);
    var c := Cleared(m, true);
    if m.api.desired != 0 { StopApiLowers(c); }
    else if c.group.Absent? { AdoptLowers(c); }
    else {
      match Current(c).phase
      case Snapshotting => AwaitSnapshotLowers(c);
      case SnapshotReady => DeleteLowers(c);
      case _ => QuiesceLowers(c, name);
    }
  }

  // ---------------------------------------------------------------- a whole undisturbed check

  /**
   A check with a stale lease of a sleeping, absent and protected cache changes nothing, whatever
   the services do: it answers that all sleeps exactly when both services are stopped, and reports
   drift otherwise. Services scaled up meanwhile are never scaled down.
   */
  lemma SleepIsOnlyWatched(w: World, name: string)
    requires w.group.Absent? && Current(w).desired.Asleep? && Current(w).phase.Sleeping? && !w.settled
    requires Image(w.snapshots, Current(w).snapshotName).Some? && w.now - w.lease >= w.cfg.idleNs
    ensures IdleCheck(w, name).0 == Note(w, Invoked)
    ensures IdleCheck(w, name).1 == Ok(SleepsAlready) <==> w.api.Stopped() && w.worker.Stopped()
    ensures IdleCheck(w, name).1 == Ok(KeepsAwake(ServiceDrift)) <==> !(w.api.Stopped() && w.worker.Stopped())
  {
  }

  lemma AsleepStays(m: World, name: string)
    requires Protected(m) && Settled(m) && Undisturbed(m) && AsleepNow(m) && !m.settled
    ensures IdleCheck(m, name) == (Note(m, Invoked), Ok(SleepsAlready))
  {
  }

  predicate SleepsLower(m: World, w: World) {
    Protected(w) && w.cfg == m.cfg && !w.settled && SleepRank(w) < SleepRank(m)
  }

  lemma WakingCheckLowers(m: World, name: string)
    requires Protected(m) && Settled(m) && Undisturbed(m) && WakesUp(Current(m))
    ensures SleepsLower(m, IdleCheck(m, name).0)
  {
    var begun := Note(m, Invoked);
    ReconcilingLowersRank(begun);
    if m.cfg.hibernation {
      if m.group.Absent? { RestoreShape(begun); } else { StartShape(Seeing(begun)); }
    }
  }

  lemma ProgressingLowers(m: World, name: string)
    requires m.cfg.hibernation && Protected(m) && Settled(m) && Undisturbed(m) && !WakesUp(Current(m))
    requires Current(m).desired.Asleep? && !Current(m).phase.Active? && !AsleepNow(m) && name !in m.snapshots
    ensures SleepsLower(m, Ended(Progressing(m, name).0))
  {
    hide ProgressSleep;
    ProgressLowers(m, name);
  }

  lemma SleepingCheckLowers(m: World, name: string)
    requires m.cfg.hibernation && Protected(m) && Settled(m) && Undisturbed(m) && !WakesUp(Current(m))
    requires !AsleepNow(m) && name !in m.snapshots
    ensures SleepsLower(m, IdleCheck(m, name).0)
  {
    var begun := Note(m, Invoked);
    EnteringKeepsSleepRank(begun);
    ProgressingLowers(Entering(begun), name);
    assert IdleCheck(m, name).0 == Ended(Progressing(Entering(begun), name).0);
  }

  /** The environment catches up undisturbed, then a scheduled check runs. */
  ghost predicate SleepRound(w: World, w': World) { exists m, name :: SleepsVia(w, m, name, w') }

  ghost predicate SleepsVia(w: World, m: World, name: string, w': World) {
    Settles(w, m) && Undisturbed(m) && name !in m.snapshots && w' == IdleCheck(m, name).0
  }

  lemma SleepRoundLowersRank(w: World, w': World)
    requires w.cfg.hibernation && !w.settled && Protected(w) && SleepRound(w, w')
    ensures SleepsLower(w, w') || (SleepRank(w) == 0 == SleepRank(w') && Protected(w') && w'.cfg == w.cfg && !w'.settled)
  {
    var m, name :| SleepsVia(w, m, name, w');
    SettlingProtects(w, m);
    SettlingKeepsSleepRank(w, m);
    UndisturbedCheckLowers(m, name);
  }

  lemma UndisturbedCheckLowers(m: World, name: string)
    requires m.cfg.hibernation && !m.settled && Protected(m) && Settled(m) && Undisturbed(m) && name !in m.snapshots
    ensures SleepsLower(m, IdleCheck(m, name).0) || (SleepRank(m) == 0 && IdleCheck(m, name).0 == Note(m, Invoked))
  {
    if AsleepNow(m) {
      AsleepStays(m, name);
    } else if WakesUp(Current(m)) {
      WakingCheckLowers(m, name);
    } else {
      SleepingCheckLowers(m, name);
    }
  }

  lemma {:induction false} ChecksLowerRank(run: seq<World>, i: nat)
    requires i < |run| && run[0].cfg.hibernation && !run[0].settled && Protected(run[0])
    requires forall j :: 0 <= j < |run| - 1 ==> SleepRound(run[j], run[j + 1])
    ensures Protected(run[i]) && run[i].cfg.hibernation && !run[i].settled
    ensures SleepRank(run[i]) == 0 || SleepRank(run[i]) + i <= SleepRank(run[0])
  {
    if i > 0 {
      var j := i - 1;
      ChecksLowerRank(run, j);
      assert SleepRound(run[j], run[j + 1]);
      SleepRoundLowersRank(run[j], run[j + 1]);
    }
  }

  /**
   From anywhere nine checks reach an absent cache with the item asleep, from ACTIVE with the API
   running six do, and it stays so.
   */
  lemma FallsAsleepWithinNineChecks(run: seq<World>, i: nat)
    requires i < |run| && run[0].cfg.hibernation && !run[0].settled && Protected(run[0])
    requires forall j :: 0 <= j < |run| - 1 ==> SleepRound(run[j], run[j + 1])
    requires i >= 9 || (i >= 6 && Current(run[0]).phase.Active?)
    ensures AsleepNow(run[i]) && Image(run[i].snapshots, Current(run[i]).snapshotName).Some?
  {
    ChecksLowerRank(run, i);
  }
}

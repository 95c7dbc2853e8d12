/**
 The controller, call by call. Between any two calls the environment may move; any call may
 raise, with or without having taken effect; the invocation may end after any call.
 With `calm` none of that happens, and each method does what its atomic description says.
 */
module Controller {
  import opened Wrappers
  import opened StateStore
  import opened SnapshotCatalog
  import opened Cloud
  import A = Atomic
  import opened Atomic
  import RedisUrl
  import SnapshotNames

  datatype Fate = Fine | Throws(code: string, applied: bool) | Dies(applied: bool)

  /** The stored item only moves forward, and the configuration stays. */
  ghost predicate Later(w: World, w': World) {
    && w'.cfg == w.cfg
    && (w'.item == w.item
        || (w'.item.Some? && (w.item.None? || w.item.value.revision < w'.item.value.revision)))
  }

  /** `base` was read or written earlier in this history of the item. */
  ghost predicate Known(base: Base, w: World) {
    base == BaseOf(w.item) || (w.item.Some? && base.item.revision < w.item.value.revision)
  }

  /** The environment moved, and only the item and the log were written. */
  ghost predicate Wrote(w: World, w': World) { Evolves(w.(item := w'.item, log := w'.log), w') }

  /** The protected snapshot is not deleted. */
  ghost predicate ProtectedStays(w: World, w': World) {
    forall n :: Current(w).snapshotName == Some(n) && n in w.snapshots ==> n in w'.snapshots
  }

  /** The stored URL names this endpoint, in lower case. */
  predicate HostIs(w: World, endpoint: string) { w.url.Some? && w.url.value.host == RedisUrl.Lower(endpoint) }

  /** The API may be raised: the group is present, has been seen available and is the one the URL names. */
  predicate MayRaise(w: World) {
    w.cfg.hibernation ==>
      Up(w.group) && HostIs(w, w.group.endpoint) && SeenAvailable(w.log, w.group.endpoint)
  }

  lemma NoteKeeps(w: World, e: Event, it: Item)
    requires WorldOk(w) && EventOk(w.cfg, w.log, e) && !e.GroupDeleted?
    requires !(e.ActivitySeen? || e.WakeAccepted?) || it.quiescentSinceNs.None?
    ensures WorldOk(Note(w, e))
    ensures ItemOk(w, it) ==> ItemOk(Note(w, e), it)
  {
    assert (w.log + [e])[..|w.log|] == w.log;
  }

  ghost predicate NotesOk(next: Item, notes: seq<Event>) {
    notes == [] || (|notes| == 1 && notes[0].WakeAccepted? && next.quiescentSinceNs.None?)
  }

  lemma PutKeeps(w: World, base: Base, next: Item, notes: seq<Event>)
    requires Good(w) && ItemOk(w, next) && NotesOk(next, notes)
    ensures Good(Put(w, Stamp(base, next, w.now), notes))
  {
    var written := Stamp(base, next, w.now);
    if notes == [] {
      assert w.log + notes == w.log;
    } else {
      assert notes == [notes[0]];
      NoteKeeps(w, notes[0], written);
    }
  }

  /** The last thing logged is a guard that found nothing. */
  predicate LogsClear(before: seq<Event>, w: World, allowApi: bool, allowMissing: bool) {
    && |w.log| == |before| + 1 && w.log[..|before|] == before
    && var last := w.log[|before|];
    && last.GuardClear? && last.allowApi == allowApi && last.at <= w.now && (last.sawZero || allowMissing)
  }

  /** Everything that authorizes a deletion. */
  predicate Deletable(w: World) {
    && w.settled && NoOthers(w) && ApiOff(w) && !w.unseen.drift
    && Image(w.snapshots, Current(w).snapshotName) == Some(w.contents)
    && ClearJustLogged(w)
  }

  predicate ClearJustLogged(w: World) {
    w.log != [] && w.log[|w.log| - 1].GuardClear? && !w.log[|w.log| - 1].allowApi
  }

  lemma DeletableStays(w: World, w': World)
    requires Deletable(w) && Wrote(w, w') && w'.log == w.log
    requires Current(w').snapshotName == Current(w).snapshotName
    ensures Deletable(w')
  {
  }

  lemma DeleteKeeps(w: World)
    requires Good(w) && Deletable(w) && w.cfg.hibernation && !SnapshotPhase(Current(w).phase)
    ensures Good(DeleteGroup(w))
  {
    var e := GroupDeleted(Image(w.snapshots, Current(w).snapshotName), w.contents);
    assert (w.log + [e])[..|w.log|] == w.log;
  }

  /** The API is down unless someone else has raised it, in which case that still shows. */
  predicate ApiQuiet(w: World) { w.unseen.drift || w.api.Stopped() }

  lemma RequestKeeps(w: World, name: string)
    requires Good(w) && ClearJustLogged(w) && name !in w.snapshots
    requires Current(w).phase.Snapshotting? && Current(w).snapshotName == Some(name)
    requires Current(w).quiescentSinceNs.Some? && Current(w).quiescentSinceNs.value + w.cfg.quiescenceNs <= w.now
    ensures Good(RequestSnapshot(w, name))
  {
    ZeroProofLater(w.log, Current(w).quiescentSinceNs.value, w.now - w.cfg.quiescenceNs);
    NoteKeeps(w, SnapshotRequested(w.now, name), Current(w));
  }

  lemma StoreKeeps(w: World, url: Option<RedisUrl.Address>)
    requires Good(w) && RedisUrl.Canonical(url)
    ensures Good(w.(url := url))
  {
  }

  lemma RestoreKeeps(w: World, name: string)
    requires Good(w) && Current(w).snapshotName == Some(name) && !SnapshotPhase(Current(w).phase)
    ensures Good(RestoreGroup(w, name))
  {
    var e := GroupRestored(Image(w.snapshots, Some(name)));
    assert (w.log + [e])[..|w.log|] == w.log;
  }

  class Lambda {
    var world: World
    const calm: bool

    constructor (world: World, calm: bool)
      ensures this.world == world && this.calm == calm
    {
      this.world, this.calm := world, calm;
    }

    // -------------------------------------------------------------- calls

    method Interfere()
      requires Good(world)
      modifies this
      ensures Good(world) && Evolves(old(world), world)
      ensures forall it :: ItemOk(old(world), it) ==> ItemOk(world, it)
      ensures calm ==> world == old(world)
    {
      if !calm {
        var acts: seq<Act> := *;
        forall it ensures WorldOk(ApplyAll(world, acts)) && (ItemOk(world, it) ==> ItemOk(ApplyAll(world, acts), it)) {
          RunKeeps(world, acts, it);
        }
        RunEvolves(world, acts);
        world := ApplyAll(world, acts);
      }
    }

    method Draw() returns (fate: Fate)
      ensures calm ==> fate == Fine
    {
      fate := *;
      if calm { fate := Fine; }
    }

    /** A call that reads. */
    method Observe<T>(f: World -> T) returns (r: Reply<T>)
      requires Good(world)
      modifies this
      ensures Good(world) && Evolves(old(world), world)
      ensures r.Ok? ==> r.value == f(world)
      ensures !r.Conflict?
      ensures calm ==> world == old(world) && r.Ok?
    {
      Interfere();
      var fate := Draw();
      match fate
      case Fine => r := Ok(f(world));
      case Throws(code, _) => r := Raised(code);
      case Dies(_) => r := Crashed;
    }

    /** A call that changes the world by `f`. */
    method Do(f: World -> World) returns (r: Reply<World>)
      requires Good(world)
      requires forall w :: Good(w) && Evolves(world, w) ==> Good(f(w))
      modifies this
      ensures Good(world)
      ensures exists w :: Evolves(old(world), w) && (world == w || world == f(w)) && (r.Ok? ==> world == f(w))
      ensures r.Ok? ==> r.value == world
      ensures !r.Conflict?
      ensures calm ==> r.Ok? && world == f(old(world))
    {
      Interfere();
      var fate := Draw();
      if fate.Fine? || fate.applied { world := f(world); }
      match fate
      case Fine => r := Ok(world);
      case Throws(code, _) => r := Raised(code);
      case Dies(_) => r := Crashed;
    }

    /** The conditional write of the durable item. */
    method Transition(base: Base, next: Item, notes: seq<Event>) returns (r: Reply<Base>)
      requires Good(world) && Known(base, world)
      requires Matches(base, world.item) ==> ItemOk(world, next)
      requires NotesOk(next, notes)
      modifies this
      ensures Good(world) && Later(old(world), world) && Wrote(old(world), world)
      ensures world.log == old(world.log) || world.log == old(world.log) + notes
      ensures r.Ok? ==> r.value == BaseOf(world.item) && world.item == Some(Stamp(base, next, r.value.item.updatedAtNs))
      ensures r.Ok? ==> world.log == old(world.log) + notes
      ensures !Matches(base, old(world).item) ==> world.item == old(world).item && world.log == old(world.log) && !r.Ok?
      ensures r.Conflict? ==> !Matches(base, old(world).item)
      ensures calm && Matches(base, old(world).item) ==>
                r.Ok? && world == Put(old(world), Stamp(base, next, old(world).now), notes)
      ensures calm && !Matches(base, old(world).item) ==> r == Conflict && world == old(world)
    {
      hide Good, ItemOk;
      Interfere();
      var fate := Draw();
      var holds := Matches(base, world.item);
      if holds && (fate.Fine? || fate.applied) {
        PutKeeps(world, base, next, notes);
        world := Put(world, Stamp(base, next, world.now), notes);
      }
      match fate
      case Fine => r := if holds then Ok(BaseOf(world.item)) else Conflict;
      case Throws(code, _) => r := Raised(code);
      case Dies(_) => r := Crashed;
    }

    /** Recording an error never overwrites an item that has moved on. */
    method MarkError(base: Base, code: string) returns (r: Reply<()>)
      requires Good(world) && Known(base, world)
      modifies this
      ensures Good(world) && Later(old(world), world)
      ensures !Matches(base, old(world).item) ==> world.item == old(world).item
      ensures r.Ok? || r.Crashed?
      ensures calm ==> r.Ok? && world == A.MarkError(old(world), base, code)
    {
      var next := base.item.(phase := Error, quiescentSinceNs := None, errorType := Some(code));
      var w := Transition(base, next, []);
      assert world.log + [] == world.log;
      r := if w.Crashed? then Crashed else Ok(());
    }

    // -------------------------------------------------------------- observation

    method WakeIsStale(observed: nat) returns (r: Reply<bool>)
      requires Good(world)
      modifies this
      ensures Good(world) && Evolves(old(world), world)
      ensures !r.Conflict?
      ensures calm ==> world == old(world) && r == Ok(A.WakeIsStale(world, observed))
    {
      var lease: nat :- Observe((w: World) => w.lease);
      if lease != observed { return Ok(false); }
      var now: nat :- Observe((w: World) => w.now);
      r := Ok(now - lease >= world.cfg.idleNs);
    }

    method WatchServices(observed: nat) returns (r: Reply<Option<Reason>>)
      requires Good(world)
      modifies this
      ensures Good(world) && Evolves(old(world), world)
      ensures !r.Conflict?
      ensures r.Ok? && r.value.None? && world.settled ==> !world.unseen.workers
      ensures calm ==> world == old(world) && r == Ok(ServicesReason(world, observed))
    {
      var stale :- WakeIsStale(observed);
      if !stale { return Ok(Some(WakeRace)); }
      var worker: Counts :- Observe((w: World) => w.worker);
      r := Ok(if worker.Stopped() then None else Some(WorkerActive));
    }

    method WatchQueue(allowMissing: bool) returns (r: Reply<Sighting>)
      requires Good(world)
      modifies this
      ensures Good(world) && Evolves(old(world), world)
      ensures !r.Conflict?
      ensures r.Ok? && r.value.Clear? ==> r.value.sawZero || allowMissing
      ensures r.Ok? && r.value.Clear? && world.settled ==> !world.unseen.queue
      ensures calm ==> world == old(world) && r == Ok(QueueSighting(world, allowMissing))
    {
      var queueMax: Option<int> :- Observe((w: World) => w.queueMax);
      r := Ok(if queueMax.None? then (if allowMissing then Clear(false) else Stirring(QueueMetricMissing))
              else if queueMax.value > 0 then Stirring(QueueActive)
              else Clear(true));
    }

    method WatchTasks(allowApi: bool, queue: Sighting) returns (r: Reply<Sighting>)
      requires Good(world) && queue.Clear?
      modifies this
      ensures Good(world) && Evolves(old(world), world)
      ensures !r.Conflict?
      ensures r.Ok? && r.value.Clear? ==>
                && r.value == queue
                && (!allowApi && world.api.desired == 0 ==> world.apiTasks == 0 && world.apiDraining == 0)
                && world.otherTasks == 0 && !world.unseen.tasks
      ensures calm ==>
                && world == old(world)
                && r == Ok(if UnexpectedTasks(world, allowApi) > 0 then Stirring(StandaloneTasksActive) else queue)
    {
      var unexpected: nat :- Observe((w: World) => UnexpectedTasks(w, allowApi));
      r := Ok(if unexpected > 0 then Stirring(StandaloneTasksActive) else queue);
    }

    /** The observations of the activity guard: a reason to stay awake, or whether a datapoint was seen. */
    method Watch(observed: nat, allowApi: bool, allowMissing: bool) returns (r: Reply<Sighting>)
      requires Good(world)
      modifies this
      ensures Good(world) && Evolves(old(world), world)
      ensures !r.Conflict?
      ensures r.Ok? && r.value.Clear? ==>
                && (r.value.sawZero || allowMissing)
                && (!allowApi && world.api.desired == 0 ==> world.apiTasks == 0 && world.apiDraining == 0)
                && (world.settled ==> NoOthers(world))
      ensures calm ==> world == old(world) && r == Ok(GuardSighting(world, observed, allowApi, allowMissing))
    {
      hide LogOk, ItemOk, Covers, WorldOk;
      var reason: Option<Reason> :- WatchServices(observed);
      if reason.Some? { return Ok(Stirring(reason.value)); }
      var queue: Sighting :- WatchQueue(allowMissing);
      if queue.Stirring? { return Ok(queue); }
      r := WatchTasks(allowApi, queue);
    }

    method ActivityGuard(observed: nat, allowApi: bool, allowMissing: bool) returns (r: Reply<Option<Reason>>)
      requires Good(world)
      modifies this
      ensures Good(world) && Evolves(old(world).(log := world.log), world)
      ensures !r.Conflict?
      ensures r.Ok? && r.value.None? ==>
                && LogsClear(old(world).log, world, allowApi, allowMissing)
                && (!allowApi && world.api.desired == 0 ==> world.apiTasks == 0 && world.apiDraining == 0)
                && (world.settled ==> NoOthers(world))
      ensures !(r.Ok? && r.value.None?) ==> world.log == old(world).log
      ensures calm ==>
                && r == Ok(ReasonOf(GuardSighting(old(world), observed, allowApi, allowMissing)))
                && world == if r.value.None? then Cleared(old(world), allowApi) else old(world)
    {
      var seen :- Watch(observed, allowApi, allowMissing);
      match seen
      case Stirring(reason) => r := Ok(Some(reason));
      case Clear(sawZero) =>
        var e := GuardClear(world.now, sawZero, allowApi);
        NoteKeeps(world, e, Current(world));
        world := Note(world, e);
        r := Ok(None);
    }

    // -------------------------------------------------------------- going to sleep

    method Invalidate(base: Base) returns (r: Reply<Base>)
      requires Good(world) && base == BaseOf(world.item)
      modifies this
      ensures Good(world) && Later(old(world), world) && Wrote(old(world), world) && world.log == old(world).log
      ensures r.Ok? ==>
                && r.value == BaseOf(world.item)
                && r.value.item.quiescentSinceNs.None? && !SnapshotPhase(r.value.item.phase)
      ensures calm ==> r.Ok? && world == A.Invalidate(old(world))
    {
      if base.item.quiescentSinceNs.None? && !SnapshotPhase(base.item.phase) { return Ok(base); }
      r := Transition(base, InvalidItem(base.item), []);
      assert old(world).log + [] == old(world).log;
    }

    /** The check gives up its snapshot and its clock; reported activity then spends its evidence. */
    method GiveUp(base: Base, reason: Reason) returns (r: Reply<()>)
      requires Good(world) && base == BaseOf(world.item)
      modifies this
      ensures Good(world) && Later(old(world), world)
      ensures r.Ok? ==> !SnapshotPhase(Current(world).phase)
      ensures calm ==> r.Ok? && world == Reported(A.Invalidate(old(world)), reason)
    {
      var _ :- Invalidate(base);
      if ReportsActivity(reason) {
        var quiet := world.(unseen := NO_EVIDENCE);
        NoteKeeps(quiet, ActivitySeen(world.now), Current(world));
        world := Note(quiet, ActivitySeen(world.now));
      }
      r := Ok(());
    }

    method KeepAwake(base: Base, reason: Reason) returns (r: Reply<Outcome>)
      requires Good(world) && base == BaseOf(world.item)
      modifies this
      ensures Good(world) && Later(old(world), world)
      ensures calm ==> (world, r) == A.KeepAwake(old(world), reason)
    {
      var _ :- GiveUp(base, reason);
      r := Ok(KeepsAwake(reason));
    }

    method ScaleApi(desired: nat) returns (r: Reply<World>)
      requires Good(world)
      requires !SnapshotPhase(Current(world).phase)
      modifies this
      ensures Good(world) && world.item == old(world).item && world.cfg == old(world).cfg
      ensures calm ==> r.Ok? && world == SetApi(old(world), desired)
    {
      r := Do((w: World) => SetApi(w, desired));
    }

    method StopApi(base: Base, observed: nat, api: Counts) returns (r: Reply<Outcome>)
      requires Good(world) && base == BaseOf(world.item)
      requires calm ==> api == world.api
      modifies this
      ensures Good(world) && Later(old(world), world)
      ensures calm ==> (world, r) == A.StopApi(old(world), observed)
    {
      var _ :- GiveUp(base, WakeRaceAfterScale);
      if api.desired != 0 {
        var _ :- ScaleApi(0);
      }
      var stale :- WakeIsStale(observed);
      if stale { return Ok(Waits); }
      var _ :- ScaleApi(1);
      r := Ok(KeepsAwake(WakeRaceAfterScale));
    }

    method AdoptSleep(base: Base) returns (r: Reply<Outcome>)
      requires Good(world) && base == BaseOf(world.item)
      modifies this
      ensures Good(world) && Later(old(world), world)
      ensures calm ==> (world, r) == A.AdoptSleep(old(world))
    {
      var name := base.item.snapshotName;
      if name.None? {
        name :- Observe((w: World) => Latest(w.snapshots, SnapshotNames.Mine(w.cfg.prefix)));
      }
      var image: Option<nat> :- Observe((w: World) => Image(w.snapshots, name));
      if image.None? { return Raised("RuntimeError"); }
      if base.item.phase.Sleeping? && base.item.snapshotName == name { return Ok(SleepsAlready); }
      var _ :- Transition(base, SleepItem(base.item, name), []);
      r := Ok(FallsAsleep);
    }

    method AwaitSnapshot(base: Base, ready: bool) returns (r: Reply<Outcome>)
      requires Good(world) && base == BaseOf(world.item) && base.item.phase.Snapshotting?
      requires calm ==> ready == (world.group.Group? && world.group.status.Ready?)
      modifies this
      ensures Good(world) && Later(old(world), world)
      ensures calm ==> (world, r) == A.AwaitSnapshot(old(world))
    {
      var name := base.item.snapshotName;
      if name.None? { return Raised("RuntimeError"); }
      var snapshot: Option<Snapshot> :-
        Observe((w: World) => if name.value in w.snapshots then Some(w.snapshots[name.value]) else None);
      if snapshot.None? { return Raised("RuntimeError"); }
      if snapshot.value.Available? && ready {
        var _ :- Transition(base, base.item.(phase := SnapshotReady, errorType := None), []);
        return Ok(HasSnapshot);
      }
      if snapshot.value.Failed? { return Raised("RuntimeError"); }
      r := Ok(TakesSnapshot);
    }

    method DeleteProtected(base: Base, observed: nat) returns (r: Reply<Outcome>)
      requires Good(world) && base == BaseOf(world.item) && base.item.phase.SnapshotReady?
      modifies this
      ensures Good(world) && Later(old(world), world)
      ensures calm ==> (world, r) == A.DeleteProtected(old(world), observed)
    {
      var image: Option<nat> :- Observe((w: World) => Image(w.snapshots, base.item.snapshotName));
      if image.None? { return Raised("RuntimeError"); }
      world := world.(settled := true);
      var reason: Option<Reason> :- ActivityGuard(observed, false, HasZeroProof(base.item));
      if reason.Some? {
        r := KeepAwake(base, reason.value);
      } else {
        r := DeleteCleared(base);
      }
    }

    method DeleteCleared(base: Base) returns (r: Reply<Outcome>)
      requires Good(world) && base == BaseOf(world.item) && base.item.phase.SnapshotReady?
      requires world.settled && NoOthers(world) && ClearJustLogged(world)
      requires Image(world.snapshots, base.item.snapshotName).Some?
      modifies this
      ensures Good(world) && Later(old(world), world)
      ensures calm ==> (world, r) == A.DeleteCleared(old(world))
    {
      var api: Counts :- Observe((w: World) => w.api);
      if !api.Stopped() {
        r := KeepAwake(base, ApiBeforeDelete);
        return;
      }
      var group: Group :- Observe((w: World) => w.group);
      if !(group.Group? && group.status.Ready?) { return Ok(KeepsAwake(CacheNotAvailableBeforeDelete)); }
      assert Deletable(world);
      r := CommitDelete(base);
    }

    method CommitDelete(base: Base) returns (r: Reply<Outcome>)
      requires Good(world) && base == BaseOf(world.item) && base.item.phase.SnapshotReady?
      requires Deletable(world)
      modifies this
      ensures Good(world) && Later(old(world), world)
      ensures calm ==>
                && r == Ok(DeletesCache)
                && world == DeleteGroup(Save(old(world), base.item.(phase := Deleting, errorType := None)))
    {
      var next: Base :- Transition(base, base.item.(phase := Deleting, errorType := None), []);
      assert old(world).log + [] == old(world).log;
      DeletableStays(old(world), world);
      ghost var committed := world;
      forall w | Good(w) && Evolves(world, w) ensures Good(DeleteGroup(w)) {
        DeletableStays(committed, w);
        DeleteKeeps(w);
      }
      var deleted := Do((w: World) => DeleteGroup(w));
      if deleted.Raised? {
        var _ :- MarkError(next, deleted.code);
      }
      r := match deleted
           case Ok(_) => Ok(DeletesCache)
           case Raised(code) => Raised(code)
           case Conflict => Conflict
           case Crashed => Crashed;
    }

    method StartSnapshot(base: Base, observed: nat, name: string) returns (r: Reply<Outcome>)
      requires Good(world) && base == BaseOf(world.item) && base.item.phase.Quiescing?
      requires base.item.quiescentSinceNs.Some?
      requires base.item.quiescentSinceNs.value + world.cfg.quiescenceNs <= world.now
      requires ApiQuiet(world) && name !in world.snapshots
      requires Up(world.group) && world.cfg.hibernation
      modifies this
      ensures Good(world) && Later(old(world), world)
      ensures calm ==> (world, r) == A.StartSnapshot(old(world), observed, name)
    {
      var reason: Option<Reason> :- ActivityGuard(observed, false, HasZeroProof(base.item));
      if reason.Some? {
        r := KeepAwake(base, reason.value);
      } else {
        r := SnapshotCleared(base, name);
      }
    }

    method SnapshotCleared(base: Base, name: string) returns (r: Reply<Outcome>)
      requires Good(world) && base == BaseOf(world.item)
      requires base.item.quiescentSinceNs.Some?
      requires base.item.quiescentSinceNs.value + world.cfg.quiescenceNs <= world.now
      requires ClearJustLogged(world) && name !in world.snapshots
      requires world.unseen.drift || (world.api.desired == 0 && world.apiTasks + world.apiDraining == 0)
      requires Up(world.group) && world.cfg.hibernation
      modifies this
      ensures Good(world) && Later(old(world), world)
      ensures calm ==> (world, r) == A.SnapshotCleared(old(world), name)
    {
      var api: Counts :- Observe((w: World) => w.api);
      if !api.Stopped() {
        r := KeepAwake(base, ApiBeforeSnapshot);
      } else {
        r := CommitSnapshot(base, name);
      }
    }

    method CommitSnapshot(base: Base, name: string) returns (r: Reply<Outcome>)
      requires Good(world) && base == BaseOf(world.item) && ApiOff(world)
      requires base.item.quiescentSinceNs.Some?
      requires base.item.quiescentSinceNs.value + world.cfg.quiescenceNs <= world.now
      requires ClearJustLogged(world) && name !in world.snapshots
      requires Up(world.group) && world.cfg.hibernation
      modifies this
      ensures Good(world) && Later(old(world), world)
      ensures calm ==>
                && r == Ok(TakesSnapshot)
                && world == RequestSnapshot(Save(old(world), SnapshotItem(base.item, name)), name)
    {
      var next: Base :- Transition(base, SnapshotItem(base.item, name), []);
      assert old(world).log + [] == old(world).log;
      forall w | Good(w) && Evolves(world, w) ensures Good(RequestSnapshot(w, name)) { RequestKeeps(w, name); }
      var requested := Do((w: World) => RequestSnapshot(w, name));
      if requested.Raised? && requested.code != "SnapshotAlreadyExistsFault" {
        var _ :- MarkError(next, requested.code);
        return Raised(requested.code);
      }
      if requested.Crashed? { return Crashed; }
      r := Ok(TakesSnapshot);
    }

    method AwaitQuiescence(base: Base, observed: nat, name: string) returns (r: Reply<Outcome>)
      requires Good(world) && base == BaseOf(world.item) && base.item.phase.Quiescing?
      requires base.item.quiescentSinceNs.None? ==> ZeroProof(world.log, world.now)
      requires ApiQuiet(world) && name !in world.snapshots
      requires Up(world.group) && world.cfg.hibernation
      modifies this
      ensures Good(world) && Later(old(world), world)
      ensures calm ==> (world, r) == A.AwaitQuiescence(old(world), observed, name)
    {
      var now: nat :- Observe((w: World) => w.now);
      if base.item.quiescentSinceNs.None? {
        ZeroProofLater(world.log, old(world).now, now);
        var _ :- Transition(base, base.item.(quiescentSinceNs := Some(now)), []);
        return Ok(StartsQuiescence);
      }
      if now - base.item.quiescentSinceNs.value < world.cfg.quiescenceNs { return Ok(Waits); }
      r := StartSnapshot(base, observed, name);
    }

    method BeginQuiescing(base: Base) returns (r: Reply<Base>)
      requires Good(world) && base == BaseOf(world.item) && Up(world.group) && !SnapshotPhase(base.item.phase)
      modifies this
      ensures Good(world) && Later(old(world), world) && Wrote(old(world), world) && world.log == old(world).log
      ensures r.Ok? ==> r.value == BaseOf(world.item) && r.value.item.phase.Quiescing?
      ensures r.Ok? && r.value.item.quiescentSinceNs.None? ==> !HasZeroProof(base.item)
      ensures calm ==> r.Ok? && world == A.BeginQuiescing(old(world))
    {
      var next := base.item.(phase := Quiescing, snapshotName := None, errorType := None);
      if base.item.phase.Deleting? {
        r := Transition(base, next, []);
      } else if !base.item.phase.Quiescing? {
        r := Transition(base, next.(quiescentSinceNs := None), []);
      } else {
        r := Ok(base);
      }
      assert old(world).log + [] == old(world).log;
    }

    method Quiesce(base: Base, observed: nat, name: string, group: Group) returns (r: Reply<Outcome>)
      requires Good(world) && base == BaseOf(world.item) && !SnapshotPhase(base.item.phase)
      requires group.Group? && (Up(group) ==> Up(world.group))
      requires calm ==> group == world.group
      requires HasZeroProof(base.item) || ZeroProof(world.log, world.now)
      requires ApiQuiet(world) && name !in world.snapshots
      requires world.cfg.hibernation
      modifies this
      ensures Good(world) && Later(old(world), world)
      ensures calm ==> (world, r) == A.Quiesce(old(world), observed, name)
    {
      if group.status.Going? {
        if !base.item.phase.Deleting? {
          var _ :- Transition(base, base.item.(phase := Deleting, errorType := None), []);
        }
        return Ok(DeletesCache);
      }
      if !group.status.Ready? { return Ok(KeepsAwake(CacheNotAvailable)); }
      var next: Base :- BeginQuiescing(base);
      if next.item.quiescentSinceNs.None? { ZeroProofLater(world.log, old(world).now, world.now); }
      r := AwaitQuiescence(next, observed, name);
    }

    method ProgressCache(base: Base, observed: nat, name: string) returns (r: Reply<Outcome>)
      requires Good(world) && base == BaseOf(world.item)
      requires HasZeroProof(base.item) || ZeroProof(world.log, world.now)
      requires ApiQuiet(world) && name !in world.snapshots
      modifies this
      ensures Good(world) && Later(old(world), world)
      ensures calm ==> (world, r) == A.ProgressCache(old(world), observed, name)
    {
      if !world.cfg.hibernation {
        var _ :- Transition(base, SleepItem(base.item, base.item.snapshotName), []);
        return Ok(FallsAsleep);
      }
      var group: Group :- Observe((w: World) => w.group);
      if group.Absent? {
        r := AdoptSleep(base);
      } else if base.item.phase.Snapshotting? {
        r := AwaitSnapshot(base, group.status.Ready?);
      } else if base.item.phase.SnapshotReady? {
        r := DeleteProtected(base, observed);
      } else {
        if !HasZeroProof(base.item) { ZeroProofLater(world.log, old(world).now, world.now); }
        r := Quiesce(base, observed, name, group);
      }
    }

    method ProgressApi(base: Base, observed: nat, name: string) returns (r: Reply<Outcome>)
      requires Good(world) && base == BaseOf(world.item)
      requires HasZeroProof(base.item) || ZeroProof(world.log, world.now)
      requires name !in world.snapshots
      modifies this
      ensures Good(world) && Later(old(world), world)
      ensures calm ==> (world, r) == A.ProgressApi(old(world), observed, name)
    {
      var api: Counts :- Observe((w: World) => w.api);
      if !api.Stopped() {
        r := StopApi(base, observed, api);
        return;
      }
      var tasks: nat :- Observe((w: World) => UnexpectedTasks(w, false));
      if tasks > 0 {
        r := KeepAwake(base, TasksAfterScale);
        return;
      }
      if !HasZeroProof(base.item) { ZeroProofLater(world.log, old(world).now, world.now); }
      r := ProgressCache(base, observed, name);
    }

    method ProgressSleep(base: Base, observed: nat, name: string) returns (r: Reply<Outcome>)
      requires Good(world) && base == BaseOf(world.item)
      requires name !in world.snapshots
      modifies this
      ensures Good(world) && Later(old(world), world)
      ensures calm ==> (world, r) == A.ProgressSleep(old(world), observed, name)
    {
      var reason: Option<Reason> :- ActivityGuard(observed, true, HasZeroProof(base.item));
      if reason.Some? {
        r := KeepAwake(base, reason.value);
        return;
      }
      r := ProgressApi(base, observed, name);
    }

    // -------------------------------------------------------------- waking

    /** Rewrites the stored URL for the group's endpoint and reads it back. */
    method Publish(endpoint: string) returns (r: Reply<()>)
      requires Good(world)
      requires RedisUrl.ValidHost(endpoint)
      requires calm ==> world.group.Group? && endpoint == world.group.endpoint
      modifies this
      ensures Good(world) && world.item == old(world).item && world.cfg == old(world).cfg
      ensures world.log == old(world).log
      ensures Up(old(world).group) ==> Up(world.group) && world.group.endpoint == old(world).group.endpoint
      ensures r.Ok? ==> HostIs(world, endpoint)
      ensures calm ==> match A.Publish(old(world))
                       case Some(w) => r.Ok? && world == w
                       case None => r == Raised("RuntimeError") && world == old(world)
    {
      hide Good;
      var url: Option<RedisUrl.Address> :- Observe((w: World) => w.url);
      if !RedisUrl.Usable(url) { return Raised("RuntimeError"); }
      var replacement := Some(RedisUrl.Readdressed(url.value, endpoint, world.cfg.port));
      RedisUrl.LowerHasNoCapitals(endpoint);
      forall w | Good(w) && Evolves(world, w) ensures Good(w.(url := replacement)) { StoreKeeps(w, replacement); }
      var _ :- Do((w: World) => w.(url := replacement));
      var current: Option<RedisUrl.Address> :- Observe((w: World) => w.url);
      if current != replacement { return Raised("RuntimeError"); }
      r := Ok(());
    }

    /** Raises the API count if it is not one already. */
    method EnsureApi() returns (r: Reply<Counts>)
      requires Good(world) && !SnapshotPhase(Current(world).phase)
      requires MayRaise(world)
      modifies this
      ensures Good(world) && world.item == old(world).item && world.cfg == old(world).cfg
      ensures Up(old(world).group) ==> Up(world.group)
      ensures calm ==> world == A.EnsureApi(old(world)) && r == Ok(world.api)
    {
      var api: Counts :- Observe((w: World) => w.api);
      if api.desired == 1 { return Ok(api); }
      forall w | Good(w) && Evolves(world, w) ensures Good(RaiseApi(w)) {
        NoteKeeps(SetApi(w, 1), ApiRaised(w.url, w.group), Current(w));
      }
      var after: World :- Do((w: World) => RaiseApi(w));
      r := Ok(after.api);
    }

    method Drop(name: string) returns (r: Reply<World>)
      requires Good(world) && Current(world).snapshotName != Some(name)
      modifies this
      ensures Good(world) && world.item == old(world).item && world.cfg == old(world).cfg
      ensures ProtectedStays(old(world), world)
      ensures calm ==> r.Ok? && world == DropSnapshot(old(world), name)
    {
      r := Do((w: World) => DropSnapshot(w, name));
    }

    /** Prunes after waking; a failure is only logged. */
    method Prune() returns (r: Reply<()>)
      requires Good(world)
      modifies this
      ensures Good(world) && world.item == old(world).item && world.cfg == old(world).cfg
      ensures r.Ok? || r.Crashed?
      ensures ProtectedStays(old(world), world)
      ensures calm ==> r.Ok? && world == A.Prune(old(world))
    {
      var protected := Current(world).snapshotName;
      var listed: Reply<seq<string>> :=
        Observe((w: World) => Victims(w.snapshots, SnapshotNames.Mine(w.cfg.prefix), w.cfg.retention, protected));
      if listed.Crashed? { return Crashed; }
      if !listed.Ok? { return Ok(()); }
      r := DropEach(listed.value);
    }

    method DropEach(victims: seq<string>) returns (r: Reply<()>)
      requires Good(world) && forall n :: n in victims ==> Current(world).snapshotName != Some(n)
      modifies this
      ensures Good(world) && world.item == old(world).item && world.cfg == old(world).cfg
      ensures r.Ok? || r.Crashed?
      ensures ProtectedStays(old(world), world)
      ensures calm ==> r.Ok? && world == DropAll(old(world), victims)
    {
      ghost var start := world;
      for i := 0 to |victims|
        invariant Good(world) && world.item == old(world).item && world.cfg == old(world).cfg
        invariant ProtectedStays(start, world)
        invariant calm ==> DropAll(world, victims[i..]) == DropAll(start, victims)
      {
        var dropped := Drop(victims[i]);
        if dropped.Crashed? { return Crashed; }
        assert victims[i..][1..] == victims[i + 1..];
      }
      r := Ok(());
    }

    method LaunchApi(base: Base) returns (r: Reply<Woken>)
      requires Good(world) && base == BaseOf(world.item) && base.item.phase.ApiStarting?
      requires MayRaise(world)
      modifies this
      ensures Good(world) && Later(old(world), world)
      ensures calm ==> (world, r) == A.LaunchApi(old(world))
    {
      var api: Counts :- EnsureApi();
      if api.running == 0 { return Ok(Woken(202, ApiStarting, api)); }
      var awake: Base :- Transition(base, AwakeItem(base.item), []);
      DropAllOnly(world, Victims(world.snapshots, SnapshotNames.Mine(world.cfg.prefix), world.cfg.retention,
                                 Current(world).snapshotName));
      var _ :- Prune();
      r := Ok(Woken(200, Active, api));
    }

    method StartApi(base: Base, endpoint: string) returns (r: Reply<Woken>)
      requires Good(world) && base == BaseOf(world.item)
      requires Up(world.group) && endpoint == world.group.endpoint && SeenAvailable(world.log, endpoint)
      modifies this
      ensures Good(world) && Later(old(world), world)
      ensures calm ==> (world, r) == A.StartApi(old(world))
    {
      hide LogOk, Covers;
      var _ :- Publish(endpoint);
      var next := base;
      if !base.item.phase.ApiStarting? {
        ghost var log := world.log;
        next :- Transition(base, base.item.(phase := ApiStarting, quiescentSinceNs := None, errorType := None), []);
        assert log + [] == log;
      }
      r := LaunchApi(next);
    }

    method KeepActive(base: Base, endpoint: string) returns (r: Reply<Woken>)
      requires Good(world) && base == BaseOf(world.item) && base.item.phase.Active?
      requires Up(world.group) && endpoint == world.group.endpoint && SeenAvailable(world.log, endpoint)
      modifies this
      ensures Good(world) && Later(old(world), world)
      ensures calm ==> (world, r) == A.KeepActive(old(world))
    {
      var points: bool :- Observe((w: World) => RedisUrl.PointsAt(w.url, endpoint, w.cfg.port));
      if !points {
        var _ :- Publish(endpoint);
      } else {
        RedisUrl.PointsAtHost(world.url, endpoint, world.cfg.port);
      }
      var api: Counts :- EnsureApi();
      r := Ok(Woken(if api.running > 0 then 200 else 202, Active, api));
    }

    /** The protected snapshot if it still exists, else the newest one, and its image if available. */
    method ChooseSnapshot(base: Base) returns (r: Reply<(Option<string>, Option<nat>)>)
      requires Good(world) && base == BaseOf(world.item)
      modifies this
      ensures Good(world) && world.item == old(world).item && world.cfg == old(world).cfg
      ensures r.Ok? && r.value.0.Some? && base.item.snapshotName != r.value.0 ==> Up(world.group)
      ensures r.Ok? && r.value.1.None? ==> Up(world.group)
      ensures calm ==>
                && world == old(world)
                && r == Ok((SnapshotToRestore(world), Image(world.snapshots, SnapshotToRestore(world))))
    {
      var name := base.item.snapshotName;
      var known: bool :- Observe((w: World) => name.Some? && name.value in w.snapshots);
      if !known {
        name :- Observe((w: World) => Latest(w.snapshots, SnapshotNames.Mine(w.cfg.prefix)));
      }
      var image: Option<nat> :- Observe((w: World) => Image(w.snapshots, name));
      r := Ok((name, image));
    }

    method Restore(base: Base) returns (r: Reply<Woken>)
      requires Good(world) && base == BaseOf(world.item)
      modifies this
      ensures Good(world) && Later(old(world), world)
      ensures calm ==> (world, r) == A.Restore(old(world))
    {
      var chosen: (Option<string>, Option<nat>) :- ChooseSnapshot(base);
      var (name, image) := chosen;
      if name.None? { return Raised("RuntimeError"); }
      if image.None? {
        if !base.item.phase.Restoring? {
          var _ :- Transition(base, base.item.(desired := Awake, phase := Restoring, snapshotName := name), []);
        }
        return Ok(Woken(202, Restoring, Counts(0, 0, 0)));
      }
      var next := base;
      if !(base.item.phase.Restoring? && base.item.snapshotName == name) {
        next :- Transition(base, base.item.(desired := Awake, phase := Restoring, snapshotName := name,
                                            errorType := None), []);
      }
      r := CreateGroup(next, name.value);
    }

    method CreateGroup(base: Base, name: string) returns (r: Reply<Woken>)
      requires Good(world) && base == BaseOf(world.item) && base.item.phase.Restoring?
      requires base.item.snapshotName == Some(name)
      modifies this
      ensures Good(world) && Later(old(world), world)
      ensures calm ==> (world, r) == A.CreateGroup(old(world), name)
    {
      var url: Reply<Option<RedisUrl.Address>> := Observe((w: World) => w.url);
      if url.Ok? && url.value.Some? {
        r := RequestGroup(base, name);
      } else if url.Crashed? {
        r := Crashed;
      } else {
        r := FailRestore(base, if url.Raised? then url.code else "RuntimeError");
      }
    }

    method FailRestore(base: Base, code: string) returns (r: Reply<Woken>)
      requires Good(world) && base == BaseOf(world.item)
      modifies this
      ensures Good(world) && Later(old(world), world)
      ensures calm ==> (world, r) == (A.MarkError(old(world), base, code), Raised(code))
    {
      var _ :- MarkError(base, code);
      r := Raised(code);
    }

    method RequestGroup(base: Base, name: string) returns (r: Reply<Woken>)
      requires Good(world) && base == BaseOf(world.item) && base.item.phase.Restoring?
      requires base.item.snapshotName == Some(name)
      modifies this
      ensures Good(world) && Later(old(world), world)
      ensures calm ==> (world, r) == (RestoreGroup(old(world), name), Ok(Woken(202, Restoring, Counts(0, 0, 0))))
    {
      forall w | Good(w) && Evolves(world, w) ensures Good(RestoreGroup(w, name)) { RestoreKeeps(w, name); }
      var created := Do((w: World) => RestoreGroup(w, name));
      if created.Raised? && created.code != "ReplicationGroupAlreadyExistsFault" {
        r := FailRestore(base, created.code);
        return;
      }
      if created.Crashed? { return Crashed; }
      r := Ok(Woken(202, Restoring, Counts(0, 0, 0)));
    }

    method ReconcileDisabled(base: Base) returns (r: Reply<Woken>)
      requires Good(world) && base == BaseOf(world.item) && !world.cfg.hibernation
      modifies this
      ensures Good(world) && Later(old(world), world)
      ensures calm ==> (world, r) == A.ReconcileDisabled(old(world))
    {
      var api: Counts :- EnsureApi();
      var _ :- Transition(base, AwakeItem(base.item), []);
      r := Ok(Woken(if api.running > 0 then 200 else 202, Active, api));
    }

    /** A group that is neither available nor absent is waited for in the phase of its status. */
    method AwaitGroup(base: Base, status: Status) returns (r: Reply<Woken>)
      requires Good(world) && base == BaseOf(world.item) && world.cfg.hibernation
      modifies this
      ensures Good(world) && Later(old(world), world)
      ensures calm && old(world).group.Group? && old(world).group.status == status && !status.Ready? ==>
                (world, r) == A.Reconcile(old(world))
    {
      hide LogOk, Covers;
      var phase := if status.Going? then Deleting else Restoring;
      if base.item.phase != phase {
        var _ :- Transition(base, base.item.(desired := Awake, phase := phase, errorType := None), []);
      }
      r := Ok(Woken(202, phase, Counts(0, 0, 0)));
    }

    method Reconcile(base: Base) returns (r: Reply<Woken>)
      requires Good(world) && base == BaseOf(world.item)
      modifies this
      ensures Good(world) && Later(old(world), world)
      ensures calm ==> (world, r) == A.Reconcile(old(world))
    {
      hide LogOk, Covers;
      if !world.cfg.hibernation {
        r := ReconcileDisabled(base);
        return;
      }
      var group: Group :- Observe((w: World) => w.group);
      if group.Absent? {
        r := Restore(base);
      } else if group.status.Ready? {
        NoteKeeps(world, GroupSeen(group), base.item);
        world := Note(world, GroupSeen(group));
        if base.item.phase.Active? {
          r := KeepActive(base, group.endpoint);
        } else {
          r := StartApi(base, group.endpoint);
        }
      } else {
        r := AwaitGroup(base, group.status);
      }
    }

    // -------------------------------------------------------------- handlers

    /** An authenticated POST /wake. */
    method HandleWake() returns (r: Reply<WakeReply>)
      requires Good(world) && !world.settled
      modifies this
      ensures Good(world) && !world.settled && Later(old(world), world)
      ensures calm ==> (world, r) == A.Wake(old(world))
    {
      NoteKeeps(world, Invoked, Current(world));
      world := Note(world, Invoked);
      r := AcceptWake();
      world := Ended(world);
    }

    /** A wake is not accepted unless its lease is durably recorded. */
    method LeaseAndRead(now: nat) returns (r: Reply<Base>)
      requires Good(world)
      modifies this
      ensures Good(world) && world.item == old(world).item && world.cfg == old(world).cfg
      ensures r.Ok? ==> r.value == BaseOf(world.item) && world.lease == now
      ensures calm ==> world == old(world).(lease := now) && r == Ok(BaseOf(world.item))
    {
      var _ :- Do((w: World) => w.(lease := now));
      r := Observe((w: World) => BaseOf(w.item));
    }

    method AcceptWake() returns (r: Reply<WakeReply>)
      requires Good(world)
      modifies this
      ensures Good(world) && Later(old(world), world)
      ensures calm ==> (world, r) == A.AcceptWake(old(world))
    {
      var now: nat :- Observe((w: World) => w.now);
      var begun := LeaseAndRead(now);
      if begun.Raised? {
        r := FailWake(None, begun.code);
        return;
      }
      var base: Base :- begun;
      var accepted := Transition(base, WakeItem(base, now), [WakeAccepted(now)]);
      match accepted
      case Crashed => r := Crashed;
      case Conflict => r := Ok(WakeConflict);
      case Raised(code) => r := FailWake(Some(base), code);
      case Ok(next) => r := FinishWake(next);
    }

    method FinishWake(base: Base) returns (r: Reply<WakeReply>)
      requires Good(world) && base == BaseOf(world.item)
      modifies this
      ensures Good(world) && Later(old(world), world)
      ensures calm ==> (world, r) == A.FinishWake(old(world))
    {
      var reconciled := Reconcile(base);
      match reconciled
      case Ok(woken) => r := Ok(Accepted(woken));
      case Raised(code) => r := FailWake(Some(base), code);
      case Conflict => r := Ok(WakeConflict);
      case Crashed => r := Crashed;
    }

    /** The error path: recorded against the item the handler last held, read afresh if it held none. */
    method FailWake(held: Option<Base>, code: string) returns (r: Reply<WakeReply>)
      requires Good(world) && (held.Some? ==> Known(held.value, world))
      modifies this
      ensures Good(world) && Later(old(world), world)
      ensures calm && held.Some? ==> (world, r) == (A.MarkError(old(world), held.value, code), Ok(WakeFailed))
    {
      var failed := RecordError(held, code);
      r := if failed.Crashed? then Crashed else Ok(WakeFailed);
    }

    method RecordError(held: Option<Base>, code: string) returns (r: Reply<()>)
      requires Good(world) && (held.Some? ==> Known(held.value, world))
      modifies this
      ensures Good(world) && Later(old(world), world)
      ensures r.Ok? || r.Crashed?
      ensures calm && held.Some? ==> r.Ok? && world == A.MarkError(old(world), held.value, code)
    {
      var base: Base;
      if held.Some? {
        base := held.value;
      } else {
        var read: Reply<Base> := Observe((w: World) => BaseOf(w.item));
        if read.Crashed? { return Crashed; }
        if !read.Ok? { return Ok(()); }
        base := read.value;
      }
      r := MarkError(base, code);
    }

    /** The scheduled check; `name` is the name it would give a new snapshot. */
    method HandleIdleCheck(name: string) returns (r: Reply<Outcome>)
      requires Good(world) && !world.settled && name !in world.snapshots
      modifies this
      ensures Good(world) && !world.settled && Later(old(world), world)
      ensures calm ==> (world, r) == A.IdleCheck(old(world), name)
    {
      NoteKeeps(world, Invoked, Current(world));
      world := Note(world, Invoked);
      r := CheckIdle(name);
      world := Ended(world);
    }

    method CheckIdle(name: string) returns (r: Reply<Outcome>)
      requires Good(world) && name !in world.snapshots
      modifies this
      ensures Good(world) && Later(old(world), world)
      ensures calm ==> (world, r) == if old(world).now - old(world).lease < old(world).cfg.idleNs
                                     then A.RecentWake(old(world)) else A.CheckStale(old(world), name)
    {
      var read := ReadLeaseAndState();
      if read.Raised? {
        r := Conclude(None, Raised(read.code));
        return;
      }
      var start: (nat, Base, nat) :- read;
      var (observed, base, now) := start;
      if now - observed < world.cfg.idleNs {
        r := RecentWake(base, observed);
      } else {
        r := CheckStale(base, observed, name);
      }
    }

    method ReadLeaseAndState() returns (r: Reply<(nat, Base, nat)>)
      requires Good(world)
      modifies this
      ensures Good(world) && Evolves(old(world), world)
      ensures r.Ok? ==> r.value.0 == world.lease && r.value.1 == BaseOf(world.item)
      ensures r.Ok? ==> old(world).now <= r.value.2 <= world.now
      ensures calm ==> world == old(world) && r == Ok((world.lease, BaseOf(world.item), world.now))
    {
      var observed: nat :- Observe((w: World) => w.lease);
      var held: (Base, nat) :- ReadState();
      r := Ok((observed, held.0, held.1));
    }

    method ReadState() returns (r: Reply<(Base, nat)>)
      requires Good(world)
      modifies this
      ensures Good(world) && Evolves(old(world), world)
      ensures r.Ok? ==> r.value.0 == BaseOf(world.item) && old(world).now <= r.value.1 <= world.now
      ensures calm ==> world == old(world) && r == Ok((BaseOf(world.item), world.now))
    {
      var base: Base :- Observe((w: World) => BaseOf(w.item));
      var now: nat :- Observe((w: World) => w.now);
      r := Ok((base, now));
    }

    /** How the handler ends: an exception is recorded against the item it last held. */
    method Conclude(held: Option<Base>, result: Reply<Outcome>) returns (r: Reply<Outcome>)
      requires Good(world) && (held.Some? ==> Known(held.value, world))
      modifies this
      ensures Good(world) && Later(old(world), world)
      ensures calm && held.Some? ==> (world, r) == A.Conclude(held.value, old(world), result)
    {
      match result
      case Ok(_) => r := result;
      case Conflict => r := Ok(KeepsAwake(StateConflict));
      case Crashed => r := Crashed;
      case Raised(code) =>
        var recorded := RecordError(held, code);
        r := if recorded.Crashed? then Crashed else Ok(KeepsAwake(DependencyError));
    }

    method Reconciling(base: Base, recent: bool) returns (r: Reply<Outcome>)
      requires Good(world) && base == BaseOf(world.item)
      modifies this
      ensures Good(world) && Later(old(world), world)
      ensures calm ==> (world, r) == A.Reconciling(old(world), recent)
    {
      var reconciled := Reconcile(base);
      r := Conclude(Some(base), if reconciled.Ok? then Ok(Reconciles(recent, reconciled.value))
                                else reconciled.PropagateFailure());
    }

    method RecentWake(base: Base, observed: nat) returns (r: Reply<Outcome>)
      requires Good(world) && base == BaseOf(world.item)
      requires calm ==> observed == world.lease
      modifies this
      ensures Good(world) && Later(old(world), world)
      ensures calm ==> (world, r) == A.RecentWake(old(world))
    {
      if base.item.desired.Awake? {
        r := Reconciling(base, true);
        return;
      }
      var saved := Transition(base, base.item.(desired := Awake, wakeRequestedNs := Some(observed)), []);
      if saved.Ok? {
        r := Reconciling(saved.value, true);
      } else {
        r := Conclude(Some(base), saved.PropagateFailure());
      }
    }

    method CheckStale(base: Base, observed: nat, name: string) returns (r: Reply<Outcome>)
      requires Good(world) && base == BaseOf(world.item) && name !in world.snapshots
      requires calm ==> observed == world.lease
      modifies this
      ensures Good(world) && Later(old(world), world)
      ensures calm ==> (world, r) == A.CheckStale(old(world), name)
    {
      if base.item.desired.Asleep? && base.item.phase.Sleeping? {
        var asleep := CheckAsleep(base);
        if asleep != Ok(None) {
          r := Conclude(Some(base), if asleep.Ok? then Ok(asleep.value.value) else asleep.PropagateFailure());
          return;
        }
      }
      r := CheckAwake(base, observed, name);
    }

    /** With the cache absent, the protected snapshot and the services decide; `None` if it is not absent. */
    method CheckAsleep(base: Base) returns (r: Reply<Option<Outcome>>)
      requires Good(world) && base == BaseOf(world.item)
      modifies this
      ensures Good(world) && Evolves(old(world), world)
      ensures calm ==>
                && world == old(world)
                && r == if !world.group.Absent? then Ok(None)
                        else if A.CheckAsleep(world).Ok? then Ok(Some(A.CheckAsleep(world).value))
                        else A.CheckAsleep(world).PropagateFailure()
    {
      var group: Group :- Observe((w: World) => w.group);
      var image: Option<nat> :- Observe((w: World) => Image(w.snapshots, base.item.snapshotName));
      if !group.Absent? { return Ok(None); }
      if image.None? { return Raised("RuntimeError"); }
      r := ReportServices();
    }

    /** Services that are up while the cache sleeps are only reported. */
    method ReportServices() returns (r: Reply<Option<Outcome>>)
      requires Good(world)
      modifies this
      ensures Good(world) && Evolves(old(world), world)
      ensures calm ==>
                && world == old(world)
                && r == Ok(Some(if world.api.Stopped() && world.worker.Stopped() then SleepsAlready
                                else KeepsAwake(ServiceDrift)))
    {
      var stopped: bool :- Observe((w: World) => w.api.Stopped() && w.worker.Stopped());
      r := Ok(Some(if stopped then SleepsAlready else KeepsAwake(ServiceDrift)));
    }

    method CheckAwake(base: Base, observed: nat, name: string) returns (r: Reply<Outcome>)
      requires Good(world) && base == BaseOf(world.item) && name !in world.snapshots
      requires calm ==> observed == world.lease
      modifies this
      ensures Good(world) && Later(old(world), world)
      ensures calm ==> (world, r) == A.CheckAwake(old(world), name)
    {
      var it := base.item;
      if WakesUp(it) {
        r := Reconciling(base, false);
      } else if it.desired.Asleep? && !it.phase.Active? {
        r := Progressing(base, observed, name);
      } else {
        var next := it.(desired := Asleep, phase := Quiescing, quiescentSinceNs := None, errorType := None);
        var saved := Transition(base, next, []);
        assert old(world).log + [] == old(world).log;
        if saved.Ok? {
          r := Progressing(saved.value, observed, name);
        } else {
          r := Conclude(Some(base), saved.PropagateFailure());
        }
      }
    }

    method Progressing(base: Base, observed: nat, name: string) returns (r: Reply<Outcome>)
      requires Good(world) && base == BaseOf(world.item) && name !in world.snapshots
      requires calm ==> observed == world.lease
      modifies this
      ensures Good(world) && Later(old(world), world)
      ensures calm ==> (world, r) == A.Progressing(old(world), name)
    {
      var result := ProgressSleep(base, observed, name);
      r := Conclude(Some(base), result);
    }
  }
}

/**
 What the conditional write does not protect: the deletion that follows it is a separate call. If
 another invocation accepts a wake in between, the deletion still goes ahead.
 */
module LateDeletion {
  import opened Wrappers
  import opened StateStore
  import opened SnapshotCatalog
  import opened Cloud
  import opened Atomic
  import opened Controller
  import RedisUrl
  import SnapshotNames

  /** What happens between the write of DELETING and the deletion: environment steps and other wakes. */
  datatype Move = Environment(act: Act) | OtherWake

  function Moved(w: World, m: Move): World {
    match m
    case Environment(act) => Apply(w, act)
    case OtherWake => AcceptWake(Note(w, Invoked)).0
  }

  function After(w: World, moves: seq<Move>): World {
    if moves == [] then w else Moved(After(w, moves[..|moves| - 1]), moves[|moves| - 1])
  }

  /** The world in which a check has written DELETING and not yet called the deletion. */
  function Committed(w: World): World { Save(w, Current(w).(phase := Deleting, errorType := None)) }

  /** A deletion carried out now destroys nothing that its protected snapshot does not hold. */
  predicate SafeNow(w: World) {
    DeleteGroup(w) == w || DeleteGroup(w).log == w.log + [GroupDeleted(Some(w.contents), w.contents)]
  }

  /** It is safe however long the call takes. */
  ghost predicate SafeWhenever(w: World) { forall acts: seq<Act> :: SafeNow(ApplyAll(w, acts)) }

  /** What environment steps and other wakes keep: the snapshot, and its contents until the API is asked for. */
  predicate Guarded(w: World, image: nat) {
    && Up(w.group) && w.settled && Image(w.snapshots, Current(w).snapshotName) == Some(image)
    && (w.api.desired == 0 ==> ApiOff(w) && w.otherTasks == 0 && !w.unseen.drift && w.contents == image)
  }

  lemma StepKeepsGuarded(w: World, a: Act, image: nat)
    requires Guarded(w, image)
    ensures Guarded(Apply(w, a), image) && Apply(w, a).api.desired == w.api.desired
  {
    hide Shows, RedisUrl.ValidHost;
  }

  lemma {:induction false} StepsKeepGuarded(w: World, acts: seq<Act>, image: nat)
    requires Guarded(w, image)
    ensures Guarded(ApplyAll(w, acts), image) && ApplyAll(w, acts).api.desired == w.api.desired
    decreases |acts|
  {
    if acts != [] {
      StepKeepsGuarded(w, acts[0], image);
      StepsKeepGuarded(Apply(w, acts[0]), acts[1..], image);
    }
  }

  // ---------------------------------------------------------------- another wake

  lemma {:induction false} DroppingKeeps(w: World, names: seq<string>, name: string)
    requires name !in names
    ensures Image(DropAll(w, names).snapshots, Some(name)) == Image(w.snapshots, Some(name))
    decreases |names|
  {
    if names != [] { DroppingKeeps(DropSnapshot(w, names[0]), names[1..], name); }
  }

  /** The parts of a world that matter here, before and after a step of a wake on a present cache. */
  ghost predicate WakeKeeps(w: World, w': World) {
    && Later(w, w')
    && w'.group == w.group && w'.settled == w.settled && w'.contents == w.contents
    && Image(w'.snapshots, Current(w').snapshotName) == Image(w.snapshots, Current(w).snapshotName)
    && w'.apiTasks == w.apiTasks && w'.apiDraining == w.apiDraining && w'.otherTasks == w.otherTasks
    && ((w'.api == w.api && w'.unseen == w.unseen) || w'.api.desired == 1)
  }

  lemma LaunchKeeps(w: World)
    ensures WakeKeeps(w, LaunchApi(w).0)
  {
    hide Victims;
    var w1 := EnsureApi(w);
    if w1.api.running > 0 {
      var woken := Save(w1, AwakeItem(Current(w1)));
      var names := Victims(woken.snapshots, SnapshotNames.Mine(woken.cfg.prefix), woken.cfg.retention,
                           Current(woken).snapshotName);
      DropAllOnly(woken, names);
      if Current(woken).snapshotName.Some? { DroppingKeeps(woken, names, Current(woken).snapshotName.value); }
    }
  }

  lemma StartKeeps(w: World)
    requires w.group.Group?
    ensures WakeKeeps(w, StartApi(w).0)
  {
    hide LaunchApi;
    var published := Publish(w);
    if published.Some? {
      var p := published.value;
      LaunchKeeps(if Current(p).phase.ApiStarting? then p
                  else Save(p, Current(p).(phase := ApiStarting, quiescentSinceNs := None, errorType := None)));
    }
  }

  lemma ActiveKeeps(w: World)
    requires w.group.Group?
    ensures WakeKeeps(w, KeepActive(w).0)
  {
  }

  lemma ReconcileKeeps(w: World)
    requires Up(w.group)
    ensures WakeKeeps(w, Reconcile(w).0)
  {
    hide StartApi, KeepActive;
    if w.cfg.hibernation && w.group.status.Ready? {
      StartKeeps(Note(w, GroupSeen(w.group)));
      ActiveKeeps(Note(w, GroupSeen(w.group)));
    }
  }

  lemma OtherWakeKeeps(w: World)
    requires Up(w.group)
    ensures WakeKeeps(w, Moved(w, OtherWake))
  {
    hide Reconcile;
    var base := BaseOf(w.item);
    ReconcileKeeps(Put(Note(w, Invoked).(lease := w.now), Stamp(base, WakeItem(base, w.now), w.now), [WakeAccepted(w.now)]));
  }

  lemma {:induction false} MovesKeepGuarded(w: World, moves: seq<Move>, image: nat)
    requires Guarded(w, image)
    ensures Guarded(After(w, moves), image)
  {
    hide Moved, Guarded;
    if moves != [] {
      var earlier, last := moves[..|moves| - 1], moves[|moves| - 1];
      MovesKeepGuarded(w, earlier, image);
      MoveKeepsGuarded(After(w, earlier), last, image);
    }
  }

  lemma MoveKeepsGuarded(w: World, m: Move, image: nat)
    requires Guarded(w, image)
    ensures Guarded(Moved(w, m), image)
  {
    match m
    case Environment(act) =>
      StepKeepsGuarded(w, act, image);
    case OtherWake =>
      hide AcceptWake;
      OtherWakeKeeps(w);
  }

  // ---------------------------------------------------------------- the late deletion

  lemma GuardedSafety(w: World, image: nat)
    requires Guarded(w, image)
    ensures SafeWhenever(w) <==> w.api.desired == 0
  {
    forall acts: seq<Act> | w.api.desired == 0 ensures SafeNow(ApplyAll(w, acts)) { StepsKeepGuarded(w, acts, image); }
    if w.api.desired > 0 { WriteAfterWake(w, image); }
  }

  /** Once the API is asked for, one of its tasks may write before the deletion. */
  lemma WriteAfterWake(w: World, image: nat)
    requires Guarded(w, image) && w.api.desired > 0
    ensures !SafeWhenever(w)
  {
    var acts := [GroupReady, ApiTasksChange(1, 0), ApiWrite(image + 1)];
    var ready := Apply(w, acts[0]);
    var started := Apply(ready, acts[1]);
    var written := Apply(started, acts[2]);
    assert acts[1..][1..] == [ApiWrite(image + 1)] && acts[1..][1..][1..] == [];
    assert ApplyAll(w, acts) == ApplyAll(ready, acts[1..]) == ApplyAll(started, acts[1..][1..]) == written;
    assert DeleteGroup(written).log[|written.log|] == GroupDeleted(Some(image), image + 1);
    assert !SafeNow(ApplyAll(w, acts));
  }

  /**
   A check has written DELETING behind a clear guard; before its deletion, other invocations accept
   any number of wakes. The deletion is still safe, however long it takes, exactly when none of them
   has asked for the API: the conditional write alone does not decide it.
   */
  lemma LateDeletionIsSafeExactlyWhileApiUnasked(w: World, moves: seq<Move>)
    requires Deletable(w) && Up(w.group) && Current(w).phase.SnapshotReady?
    ensures var late := After(Committed(w), moves);
      SafeWhenever(late) <==> late.api.desired == 0
  {
    MovesKeepGuarded(Committed(w), moves, w.contents);
    GuardedSafety(After(Committed(w), moves), w.contents);
  }

  lemma WakeAsks(w: World)
    requires Current(w).phase.Deleting? && w.cfg.hibernation
    requires w.group.Group? && w.group.status.Ready? && RedisUrl.Usable(w.url)
    ensures var woken := Moved(w, OtherWake);
      woken.api.desired == 1 && woken.item.Some? && woken.item.value.revision > Current(w).revision
  {
    hide Victims, DropAll;
    var base := BaseOf(w.item);
    var put := Put(Note(w, Invoked).(lease := w.now), Stamp(base, WakeItem(base, w.now), w.now), [WakeAccepted(w.now)]);
    var seen := Note(put, GroupSeen(put.group));
    LaunchAsks(Save(Publish(seen).value, Current(seen).(phase := ApiStarting, quiescentSinceNs := None, errorType := None)));
    assert FinishWake(put).0 == StartApi(seen).0;
  }

  lemma LaunchAsks(w: World)
    requires w.item.Some?
    ensures var launched := LaunchApi(w);
      launched.1.Ok? && launched.0.api.desired == 1 && launched.0.item.Some?
      && launched.0.item.value.revision >= w.item.value.revision
  {
    var woken := Save(EnsureApi(w), AwakeItem(Current(EnsureApi(w))));
    DropAllOnly(woken, Victims(woken.snapshots, SnapshotNames.Mine(woken.cfg.prefix), woken.cfg.retention,
                               Current(woken).snapshotName));
  }

  lemma LateWrite(w: World, image: nat, x: nat)
    requires w.group.Group? && w.group.status.Ready? && w.api.desired == 1
    requires Image(w.snapshots, Current(w).snapshotName) == Some(image)
    ensures var late := Apply(Apply(w, ApiTasksChange(1, 0)), ApiWrite(x));
      late.item == w.item && DeleteGroup(late).log == late.log + [GroupDeleted(Some(image), x)]
  {
  }

  /** With an available cache and a usable URL one other wake is enough to lose a write. */
  lemma OneWakeIsEnough(w: World, x: nat)
    requires Deletable(w) && Current(w).phase.SnapshotReady? && w.cfg.hibernation
    requires w.group.Group? && w.group.status.Ready? && RedisUrl.Usable(w.url)
    ensures var late := After(Committed(w), [OtherWake, Environment(ApiTasksChange(1, 0)), Environment(ApiWrite(x))]);
      && late.item.Some? && late.item.value.revision > Committed(w).item.value.revision
      && DeleteGroup(late).log == late.log + [GroupDeleted(Some(w.contents), x)]
  {
    hide AcceptWake, DeleteGroup;
    var moves := [OtherWake, Environment(ApiTasksChange(1, 0)), Environment(ApiWrite(x))];
    var c := Committed(w);
    var woken := Moved(c, OtherWake);
    WakeAsks(c);
    OtherWakeKeeps(c);
    LateWrite(woken, w.contents, x);
    assert moves[..2][..1] == [OtherWake] && moves[..2][..1][..0] == [];
    assert After(c, moves[..2][..1]) == woken;
    assert After(c, moves[..2]) == Apply(woken, ApiTasksChange(1, 0));
    assert After(c, moves) == Apply(After(c, moves[..2]), ApiWrite(x));
  }
}

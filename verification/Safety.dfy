/** Runs of serialized invocations, and what the invariant says of every state they pass through. */
module Safety {
  import opened Wrappers
  import opened StateStore
  import opened SnapshotCatalog
  import opened Cloud
  import opened Controller
  import opened Atomic
  import Progress
  import RedisUrl
  import SnapshotNames

  /** A deployment starts from an available cache, no item and nothing logged. */
  lemma FirstWorldIsGood(w: World)
    requires w.item.None? && Up(w.group) && w.log == [] && w.unseen == NO_EVIDENCE
    requires RedisUrl.ValidHost(w.nextEndpoint) && RedisUrl.ValidHost(w.group.endpoint) && RedisUrl.Canonical(w.url)
    ensures Good(w)
  {
  }

  lemma {:induction false} LogEntry(cfg: Config, log: seq<Event>, i: nat)
    requires LogOk(cfg, log) && i < |log|
    ensures EventOk(cfg, log[..i], log[i])
  {
    if i < |log| - 1 {
      var earlier := log[..|log| - 1];
      LogEntry(cfg, earlier, i);
      assert earlier[..i] == log[..i];
    }
  }

  /** The last event that settles the question is a zero datapoint seen by `limit`. */
  predicate ZeroSeenQuietSince(log: seq<Event>, limit: nat, i: int) {
    && 0 <= i < |log| && log[i].GuardClear? && log[i].sawZero && log[i].at <= limit
    && forall k :: i < k < |log| ==> !log[k].ActivitySeen? && !log[k].WakeAccepted?
  }

  ghost predicate ZeroSeen(log: seq<Event>, limit: nat) { exists i :: ZeroSeenQuietSince(log, limit, i) }

  lemma {:induction false} ZeroProofMeans(log: seq<Event>, limit: nat)
    ensures ZeroProof(log, limit) <==> ZeroSeen(log, limit)
  {
    if log != [] {
      var earlier, last := log[..|log| - 1], |log| - 1;
      ZeroProofMeans(earlier, limit);
      forall i | ZeroSeenQuietSince(earlier, limit, i) && !log[last].ActivitySeen? && !log[last].WakeAccepted?
        ensures ZeroSeenQuietSince(log, limit, i)
      {
        assert forall k :: i < k < |log| - 1 ==> log[k] == earlier[k];
      }
      forall i | ZeroSeenQuietSince(log, limit, i) && i < last ensures ZeroSeenQuietSince(earlier, limit, i) {
        assert forall k :: i < k < |earlier| ==> earlier[k] == log[k];
      }
      if log[last].GuardClear? && log[last].sawZero && log[last].at <= limit {
        assert ZeroSeenQuietSince(log, limit, last);
      }
    }
  }

  /** The deletion before `i` that no other deletion follows held `contents`. */
  ghost predicate DeletedBefore(log: seq<Event>, i: nat, contents: nat) {
    exists j :: LastDeletionAt(log, i, j) && log[j].contents == contents
  }

  ghost predicate LastDeletionAt(log: seq<Event>, i: nat, j: int) {
    && 0 <= j < i <= |log| && log[j].GroupDeleted?
    && forall k :: j < k < i ==> !log[k].GroupDeleted?
  }

  lemma {:induction false} LastDeletedMeans(log: seq<Event>, i: nat)
    requires i <= |log| && LastDeleted(log[..i]).Some?
    ensures DeletedBefore(log, i, LastDeleted(log[..i]).value)
  {
    var j := i - 1;
    assert log[..i][..j] == log[..j];
    if log[j].GroupDeleted? {
      assert LastDeletionAt(log, i, j);
    } else {
      LastDeletedMeans(log, j);
      var d :| LastDeletionAt(log, j, d) && log[d].contents == LastDeleted(log[..j]).value;
      assert LastDeletionAt(log, i, d);
    }
  }

  /**
   At every deletion the protected snapshot held what the cache held, and every restore brought back
   what the cache held when it was last deleted.
   */
  lemma NoWriteIsLost(w: World, i: nat)
    requires Good(w) && i < |w.log|
    ensures w.log[i].GroupDeleted? ==> w.log[i].protected == Some(w.log[i].contents)
    ensures w.log[i].GroupRestored? ==> w.log[i].image.Some? && DeletedBefore(w.log, i, w.log[i].image.value)
  {
    LogEntry(w.cfg, w.log, i);
    if w.log[i].GroupRestored? { LastDeletedMeans(w.log, i); }
  }

  /** While the cache is being deleted, absent or being created, the item names the snapshot that holds it. */
  lemma MissingCacheIsProtected(w: World)
    requires Good(w) && !Up(w.group)
    ensures Current(w).snapshotName.Some?
    ensures var name := Current(w).snapshotName.value;
      name in w.snapshots && w.snapshots[name].Available? && w.snapshots[name].image == w.contents
  {
  }

  /** Each snapshot follows a clear guard in the same check, and a zero datapoint at least the quiescence time before. */
  lemma SnapshotsFollowTwoClearChecks(w: World, j: nat)
    requires Good(w) && j < |w.log| && w.log[j].SnapshotRequested?
    ensures j > 0 && w.log[j - 1].GuardClear? && !w.log[j - 1].allowApi
    ensures w.log[j].at >= w.cfg.quiescenceNs
    ensures ZeroSeen(w.log[..j], w.log[j].at - w.cfg.quiescenceNs)
  {
    LogEntry(w.cfg, w.log, j);
    ZeroProofMeans(w.log[..j], w.log[j].at - w.cfg.quiescenceNs);
  }

  /** A recorded quiescence time always stands on a zero datapoint, with no activity or wake since. */
  lemma QuiescenceIsProven(w: World)
    requires Good(w) && Current(w).quiescentSinceNs.Some?
    ensures ZeroSeen(w.log, Current(w).quiescentSinceNs.value)
  {
    ZeroProofMeans(w.log, Current(w).quiescentSinceNs.value);
  }

  /** The invocation that acted at `i` had read the group available at this endpoint before. */
  ghost predicate SeenBefore(log: seq<Event>, i: nat, endpoint: string) {
    exists j :: SeenAt(log, i, j, endpoint)
  }

  ghost predicate SeenAt(log: seq<Event>, i: nat, j: int, endpoint: string) {
    && 0 <= j < i <= |log| && log[j].GroupSeen? && AvailableAt(log[j].seen, endpoint)
    && forall k :: j < k < i ==> !log[k].Invoked?
  }

  lemma {:induction false} SeenAvailableMeans(log: seq<Event>, i: nat, endpoint: string)
    requires i <= |log|
    ensures SeenAvailable(log[..i], endpoint) <==> SeenBefore(log, i, endpoint)
  {
    if i > 0 {
      var last := i - 1;
      assert log[..i][..last] == log[..last];
      SeenAvailableMeans(log, last, endpoint);
      forall j | SeenAt(log, last, j, endpoint) && !log[last].Invoked? ensures SeenAt(log, i, j, endpoint) {}
      forall j | SeenAt(log, i, j, endpoint) && j < last ensures SeenAt(log, last, j, endpoint) {}
      if log[last].GroupSeen? && AvailableAt(log[last].seen, endpoint) { assert SeenAt(log, i, last, endpoint); }
    }
  }

  /**
   Wake reconciliation raised the API only after the same invocation had read the cache available,
   with the cache still present at that endpoint and the stored URL naming it.
   */
  lemma EndpointBeforeCompute(w: World, i: nat)
    requires Good(w) && w.cfg.hibernation && i < |w.log| && w.log[i].ApiRaised?
    ensures Up(w.log[i].group) && SeenBefore(w.log, i, w.log[i].group.endpoint)
    ensures w.log[i].url.Some? && w.log[i].url.value.host == RedisUrl.Lower(w.log[i].group.endpoint)
  {
    LogEntry(w.cfg, w.log, i);
    SeenAvailableMeans(w.log, i, w.log[i].group.endpoint);
  }

  // ---------------------------------------------------------------- the data-safety theorem

  /** What must be true of one thing an invocation did, in terms of what happened before it. */
  ghost predicate SafeEvent(w: World, i: nat)
    requires i < |w.log|
  {
    match w.log[i]
    case GroupDeleted(protected, contents) => protected == Some(contents)
    case GroupRestored(image) => image.Some? && DeletedBefore(w.log, i, image.value)
    case SnapshotRequested(at, _) =>
      && i > 0 && w.log[i - 1].GuardClear? && !w.log[i - 1].allowApi
      && at >= w.cfg.quiescenceNs && ZeroSeen(w.log[..i], at - w.cfg.quiescenceNs)
    case ApiRaised(url, group) =>
      w.cfg.hibernation ==>
        && Up(group) && SeenBefore(w.log, i, group.endpoint)
        && url.Some? && url.value.host == RedisUrl.Lower(group.endpoint)
    case _ => true
  }

  /** Data safety, stated without the invariant. */
  ghost predicate Safe(w: World) {
    && (!Up(w.group) ==> Image(w.snapshots, Current(w).snapshotName) == Some(w.contents))
    && (Current(w).quiescentSinceNs.Some? ==> ZeroSeen(w.log, Current(w).quiescentSinceNs.value))
    && forall i :: 0 <= i < |w.log| ==> SafeEvent(w, i)
  }

  lemma GoodIsSafe(w: World)
    requires Good(w)
    ensures Safe(w)
  {
    if Current(w).quiescentSinceNs.Some? { QuiescenceIsProven(w); }
    forall i | 0 <= i < |w.log| ensures SafeEvent(w, i) {
      NoWriteIsLost(w, i);
      if w.log[i].SnapshotRequested? { SnapshotsFollowTwoClearChecks(w, i); }
      if w.log[i].ApiRaised? && w.cfg.hibernation { EndpointBeforeCompute(w, i); }
    }
  }

  datatype Job = Environment | WakeRequest | IdleTick(name: string)

  /**
   Any schedule of environment moves, wakes and checks, each invocation cut off or failing wherever
   it may. The only demand is that a check would name a new snapshot freshly.
   */
  method Run(lambda: Lambda, jobs: seq<Job>) returns (history: seq<World>)
    requires Good(lambda.world) && !lambda.world.settled
    modifies lambda
    ensures |history| == |jobs| + 1 && history[0] == old(lambda.world) && history[|jobs|] == lambda.world
    ensures forall i :: 0 <= i < |history| ==> Good(history[i]) && Safe(history[i])
    ensures forall i :: 0 <= i < |jobs| ==> Later(history[i], history[i + 1])
  {
    history := [lambda.world];
    for i := 0 to |jobs|
      invariant |history| == i + 1 && history[0] == old(lambda.world) && history[i] == lambda.world
      invariant !lambda.world.settled
      invariant forall k :: 0 <= k < |history| ==> Good(history[k])
      invariant forall k :: 0 <= k < i ==> Later(history[k], history[k + 1])
    {
      match jobs[i] {
        case Environment => lambda.Interfere();
        case WakeRequest => var _ := lambda.HandleWake();
        case IdleTick(name) =>
          if name !in lambda.world.snapshots {
            var _ := lambda.HandleIdleCheck(name);
          }
      }
      history := history + [lambda.world];
    }
    forall i | 0 <= i < |history| ensures Safe(history[i]) { GoodIsSafe(history[i]); }
  }

  /** Every reachable state with a usable URL is one from which waking and sleeping progress. */
  lemma ReachableStatesProgress(w: World)
    requires Good(w) && RedisUrl.Usable(w.url) && RedisUrl.ValidPort(w.cfg.port)
    ensures Progress.Protected(w)
  {
  }

  // ---------------------------------------------------------------- the outer error record

  lemma LaunchMovesOn(w: World)
    ensures Later(w, LaunchApi(w).0)
  {
    var w1 := EnsureApi(w);
    var woken := Save(w1, AwakeItem(Current(w1)));
    DropAllOnly(woken, Victims(woken.snapshots, SnapshotNames.Mine(woken.cfg.prefix), woken.cfg.retention,
                               Current(woken).snapshotName));
  }

  lemma ReconcileMovesOn(w: World)
    ensures Later(w, Reconcile(w).0)
  {
    hide LaunchApi;
    if w.cfg.hibernation && w.group.Group? && w.group.status.Ready? && !Current(w).phase.Active? {
      var published := Publish(Note(w, GroupSeen(w.group)));
      if published.Some? {
        var p := published.value;
        LaunchMovesOn(if Current(p).phase.ApiStarting? then p
                      else Save(p, Current(p).(phase := ApiStarting, quiescentSinceNs := None, errorType := None)));
      }
    }
  }

  /**
   The handler's own error record is made against the item it held before reconciling: it is
   written exactly when reconciling has written nothing itself.
   */
  lemma OuterErrorRecordIsStale(w: World)
    requires Reconcile(w).1.Raised?
    ensures FinishWake(w).0 == if Reconcile(w).0.item == w.item
                               then MarkError(Reconcile(w).0, BaseOf(w.item), Reconcile(w).1.code)
                               else Reconcile(w).0
    ensures FinishWake(w).0.item != Reconcile(w).0.item <==> Reconcile(w).0.item == w.item
  {
    hide Reconcile;
    ReconcileMovesOn(w);
  }

  /**
   What a deletion protects when the check chose `name` for its snapshot and nothing else moved:
   the cache contents exactly when the name was fresh or already held them. A name already in use
   is tolerated by the controller, so freshness is a real demand.
   */
  lemma ReusedNameDecidesWhatIsProtected(w: World, name: string, created: string)
    requires w.group.Group? && w.group.status.Ready? && ApiOff(w) && w.otherTasks == 0 && w.worker.Stopped()
    requires w.queueMax == Some(0) && w.now - w.lease >= w.cfg.idleNs
    requires name in w.snapshots ==> w.snapshots[name].Available?
    ensures var requested := StartSnapshot(w, w.lease, name).0;
            var taken := Apply(Apply(requested, TakeImage(name)), FinishSnapshot(name, created));
            var deleted := DeleteProtected(AwaitSnapshot(taken).0, w.lease).0;
            var protected := if name in w.snapshots then w.snapshots[name].image else w.contents;
            deleted.log != [] && deleted.log[|deleted.log| - 1] == GroupDeleted(Some(protected), w.contents)
  {
    var clear := Cleared(w, false);
    var saved := Save(clear, SnapshotItem(Current(clear), name));
    var requested := RequestSnapshot(saved, name);
    assert StartSnapshot(w, w.lease, name).0 == requested;
    var taken := Apply(Apply(requested, TakeImage(name)), FinishSnapshot(name, created));
    var ready := AwaitSnapshot(taken).0;
    assert ready == Save(taken, Current(taken).(phase := SnapshotReady, errorType := None));
    assert GuardReason(ready.(settled := true), w.lease, false, HasZeroProof(Current(ready))).None?;
  }
}

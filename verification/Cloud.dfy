/**
 The world the controller works in: the durable item, the wake lease, the API and worker
 services, the listed ECS tasks, the queue metric, the replication group and the snapshots, together
 with what the environment may do to it and the invariant every reachable world satisfies.
 */
module Cloud {
  import opened Wrappers
  import opened StateStore
  import opened SnapshotCatalog
  import RedisUrl

  datatype Config = Config(
    hibernation: bool,
    idleNs: nat,
    quiescenceNs: nat,
    port: nat,
    retention: nat,
    prefix: string)

  datatype Counts = Counts(desired: nat, running: nat, pending: nat) {
    predicate Stopped() { desired == 0 && running == 0 && pending == 0 }
  }

  /** `Busy` stands for every status text other than the three the controller compares with. */
  datatype Status = Starting | Ready | Busy | Going
  datatype Group = Absent | Group(status: Status, endpoint: string)

  /** Where a worker or standalone write leaves its evidence. */
  datatype Channel = WorkerCounts | QueueMetric | TaskList

  /**
   Evidence that no completed check has reported yet: where worker and standalone writes show,
   and whether someone other than the controller has raised the API count (`drift`).
   */
  datatype Evidence = Evidence(workers: bool, queue: bool, tasks: bool, drift: bool) {
    predicate Others() { workers || queue || tasks }

    predicate Any() { Others() || drift }

    function Add(c: Channel): Evidence {
      match c
      case WorkerCounts => this.(workers := true)
      case QueueMetric => this.(queue := true)
      case TaskList => this.(tasks := true)
    }
  }

  const NO_EVIDENCE := Evidence(false, false, false, false)

  /** What invocations did and saw, in order; used to state properties of whole runs. */
  datatype Event =
    | GuardClear(at: nat, sawZero: bool, allowApi: bool)
    | ActivitySeen(at: nat)
    | WakeAccepted(at: nat)
    | SnapshotRequested(at: nat, name: string)
    | GroupDeleted(protected: Option<nat>, contents: nat)
    | GroupRestored(image: Option<nat>)
    | Invoked
    | GroupSeen(seen: Group)
    | ApiRaised(url: Option<RedisUrl.Address>, group: Group)

  datatype World = World(
    cfg: Config,
    item: Option<Item>,
    lease: nat,
    now: nat,
    url: Option<RedisUrl.Address>,  // the address the stored URL text stands for
    api: Counts,
    worker: Counts,
    apiTasks: nat,      // API service tasks listed under desired RUNNING and not yet STOPPED
    apiDraining: nat,   // API service tasks listed under desired STOPPED and not yet STOPPED
    otherTasks: nat,    // every other listed task that is not yet STOPPED
    queueMax: Option<int>,
    group: Group,
    nextEndpoint: string,
    contents: nat,
    snapshots: Catalog,
    unseen: Evidence,
    settled: bool,      // the last guard before a deletion has begun in this invocation
    log: seq<Event>)

  function Current(w: World): Item { BaseOf(w.item).item }

  predicate Up(g: Group) { g.Group? && (g.status.Ready? || g.status.Busy?) }

  predicate ApiOff(w: World) { w.api.Stopped() && w.apiTasks == 0 && w.apiDraining == 0 }

  predicate NoOthers(w: World) { w.otherTasks == 0 && !w.unseen.Others() }

  predicate Shows(w: World, c: Channel) {
    match c
    case WorkerCounts => !w.worker.Stopped()
    case QueueMetric => w.queueMax.Some? && w.queueMax.value > 0
    case TaskList => w.otherTasks > 0
  }

  function Image(cat: Catalog, name: Option<string>): Option<nat> {
    if name.Some? && name.value in cat && cat[name.value].Available? then Some(cat[name.value].image) else None
  }

  // ---------------------------------------------------------------- effects of calls

  function Note(w: World, e: Event): World { w.(log := w.log + [e]) }

  function Put(w: World, it: Item, notes: seq<Event>): World { w.(item := Some(it), log := w.log + notes) }

  /** The controller's own scaling replaces whatever count someone else had set. */
  function SetApi(w: World, desired: nat): World {
    w.(api := w.api.(desired := desired), unseen := w.unseen.(drift := false))
  }

  /** Wake reconciliation raising the API count. */
  function RaiseApi(w: World): World { Note(SetApi(w, 1), ApiRaised(w.url, w.group)) }

  function RequestSnapshot(w: World, name: string): World {
    if name in w.snapshots then w
    else Note(w.(snapshots := w.snapshots[name := Creating(None)]), SnapshotRequested(w.now, name))
  }

  function DeleteGroup(w: World): World {
    if w.group.Group? && w.group.status.Ready? then
      Note(w.(group := w.group.(status := Going)), GroupDeleted(Image(w.snapshots, Current(w).snapshotName), w.contents))
    else w
  }

  function RestoreGroup(w: World, name: string): World {
    var image := Image(w.snapshots, Some(name));
    if w.group.Absent? && image.Some? then
      Note(w.(group := Group(Starting, w.nextEndpoint), contents := image.value), GroupRestored(image))
    else w
  }

  function DropSnapshot(w: World, name: string): World { w.(snapshots := w.snapshots - {name}) }

  // ---------------------------------------------------------------- environment

  datatype Act =
    | Tick(ns: nat)
    | TakeImage(name: string)
    | FinishSnapshot(name: string, created: string)
    | FailSnapshot(name: string)
    | GroupReady
    | GroupBusy
    | GroupGone
    | PickEndpoint(endpoint: string)
    | OutsideScale(desired: nat)
    | ApiCountsChange(running: nat, pending: nat)
    | ApiTasksChange(tasks: nat, draining: nat)
    | WorkerChange(counts: Counts)
    | QueueChange(max: Option<int>)
    | OtherTasksChange(tasks: nat)
    | ApiWrite(contents: nat)
    | OtherWrite(contents: nat, evidence: Channel)

  /** One step of the environment; a step that is not enabled changes nothing. */
  function Apply(w: World, a: Act): World {
    match a
    case Tick(ns) => w.(now := w.now + ns)
    case TakeImage(n) =>
      if n in w.snapshots && w.snapshots[n].Creating?
      then w.(snapshots := w.snapshots[n := Creating(Some(w.contents))]) else w
    case FinishSnapshot(n, created) =>
      if n in w.snapshots && w.snapshots[n].Creating? && w.snapshots[n].taken.Some?
      then w.(snapshots := w.snapshots[n := Available(w.snapshots[n].taken.value, created)]) else w
    case FailSnapshot(n) =>
      if n in w.snapshots && w.snapshots[n].Creating?
      then w.(snapshots := w.snapshots[n := Failed]) else w
    case GroupReady =>
      if w.group.Group? && !w.group.status.Going? then w.(group := w.group.(status := Ready)) else w
    case GroupBusy =>
      if Up(w.group) then w.(group := w.group.(status := Busy)) else w
    case GroupGone =>
      if w.group.Group? && w.group.status.Going? then w.(group := Absent) else w
    case PickEndpoint(e) => if RedisUrl.ValidHost(e) then w.(nextEndpoint := e) else w
    case OutsideScale(desired) =>
      if w.settled || (w.unseen.drift && w.api.(desired := desired).Stopped()) then w
      else w.(api := w.api.(desired := desired), unseen := w.unseen.(drift := w.unseen.drift || desired > 0))
    case ApiCountsChange(running, pending) =>
      // tasks only ever start toward the desired count
      var api := w.api.(running := running, pending := pending);
      if (w.api.desired > 0 || (running <= w.api.running && pending <= w.api.pending))
         && !(w.unseen.drift && api.Stopped())
      then w.(api := api) else w
    case ApiTasksChange(tasks, draining) =>
      if w.api.desired > 0 || tasks + draining <= w.apiTasks + w.apiDraining
      then w.(apiTasks := tasks, apiDraining := draining) else w
    case WorkerChange(counts) =>
      if w.unseen.workers && counts.Stopped() then w else w.(worker := counts)
    case QueueChange(max) =>
      if w.unseen.queue && (max.None? || max.value <= 0) then w else w.(queueMax := max)
    case OtherTasksChange(tasks) =>
      if (w.unseen.tasks && tasks == 0) || (w.settled && tasks > w.otherTasks) then w
      else w.(otherTasks := tasks)
    case ApiWrite(c) =>
      if Up(w.group) && w.apiTasks + w.apiDraining > 0
      then w.(contents := c) else w
    case OtherWrite(c, evidence) =>
      if Up(w.group) && w.otherTasks > 0 && Shows(w, evidence)
         && (w.settled ==> evidence == TaskList)
      then w.(contents := c, unseen := w.unseen.Add(evidence)) else w
  }

  function ApplyAll(w: World, acts: seq<Act>): World
    decreases |acts|
  {
    if acts == [] then w else ApplyAll(Apply(w, acts[0]), acts[1..])
  }

  /** What an invocation can rely on across any number of environment steps. */
  ghost predicate Evolves(w: World, w': World) {
    && w'.cfg == w.cfg && w'.item == w.item && w'.lease == w.lease && w'.url == w.url
    && w'.settled == w.settled && w'.log == w.log
    && w.now <= w'.now
    && (w.unseen.drift ==> w'.unseen.drift)
    && (w.api.Stopped() ==> w'.api.Stopped() || w'.unseen.drift)
    && (w.api.desired == 0 ==> w'.api.desired == 0 || w'.unseen.drift)
    && (w.api.desired == 0 && w.apiTasks + w.apiDraining == 0 ==>
          (w'.api.desired == 0 && w'.apiTasks + w'.apiDraining == 0) || w'.unseen.drift)
    && (Up(w.group) ==> Up(w'.group) && w'.group.endpoint == w.group.endpoint)
    && (w.settled ==>
          && (w'.unseen.workers ==> w.unseen.workers) && (w'.unseen.queue ==> w.unseen.queue)
          && (w'.unseen.drift ==> w.unseen.drift)
          && (w.otherTasks == 0 ==> w'.otherTasks == 0 && w'.unseen == w.unseen)
          && (w.otherTasks == 0 && ApiOff(w) && !w.unseen.drift ==> w'.contents == w.contents))
    && w'.snapshots.Keys == w.snapshots.Keys
    && (forall n :: n in w.snapshots && w.snapshots[n].Available? ==> w'.snapshots[n] == w.snapshots[n])
  }

  lemma EvolvesTransitive(a: World, b: World, c: World)
    requires Evolves(a, b) && Evolves(b, c)
    ensures Evolves(a, c)
  {
  }

  // ---------------------------------------------------------------- the invariant

  /** A zero queue datapoint was seen no later than `limit`, and no activity was reported and no wake accepted since. */
  predicate ZeroProof(log: seq<Event>, limit: nat) {
    log != [] &&
    var earlier, last := log[..|log| - 1], log[|log| - 1];
    match last
    case GuardClear(at, sawZero, _) => (sawZero && at <= limit) || ZeroProof(earlier, limit)
    case ActivitySeen(_) => false
    case WakeAccepted(_) => false
    case _ => ZeroProof(earlier, limit)
  }

  lemma {:induction false} ZeroProofLater(log: seq<Event>, limit: nat, later: nat)
    requires ZeroProof(log, limit) && limit <= later
    ensures ZeroProof(log, later)
  {
    var earlier := log[..|log| - 1];
    if ZeroProof(earlier, limit) { ZeroProofLater(earlier, limit, later); }
  }

  /** What the cache held when it was last deleted. */
  function LastDeleted(log: seq<Event>): Option<nat> {
    if log == [] then None
    else
      match log[|log| - 1]
      case GroupDeleted(_, contents) => Some(contents)
      case _ => LastDeleted(log[..|log| - 1])
  }

  /** The invocation that is under way has read the group available at this endpoint. */
  predicate SeenAvailable(log: seq<Event>, endpoint: string) {
    log != [] &&
    match log[|log| - 1]
    case Invoked => false
    case GroupSeen(g) => AvailableAt(g, endpoint) || SeenAvailable(log[..|log| - 1], endpoint)
    case _ => SeenAvailable(log[..|log| - 1], endpoint)
  }

  predicate AvailableAt(g: Group, endpoint: string) { g.Group? && g.status.Ready? && g.endpoint == endpoint }

  predicate Leaving(g: Group) { g.Absent? || g.status.Going? }

  /** What must hold of an event, given everything logged before it. */
  predicate EventOk(cfg: Config, log: seq<Event>, e: Event) {
    match e
    case SnapshotRequested(at, _) =>
      && log != [] && log[|log| - 1].GuardClear? && !log[|log| - 1].allowApi
      && at >= cfg.quiescenceNs && ZeroProof(log, at - cfg.quiescenceNs)
    case GroupDeleted(protected, contents) =>
      && log != [] && log[|log| - 1].GuardClear? && !log[|log| - 1].allowApi
      && protected == Some(contents)
    case GroupRestored(image) => image.Some? && image == LastDeleted(log)
    case ApiRaised(url, group) =>
      cfg.hibernation ==>
        && Up(group) && url.Some? && url.value.host == RedisUrl.Lower(group.endpoint)
        && SeenAvailable(log, group.endpoint)
    case _ => true
  }

  predicate LogOk(cfg: Config, log: seq<Event>) {
    log == [] || (LogOk(cfg, log[..|log| - 1]) && EventOk(cfg, log[..|log| - 1], log[|log| - 1]))
  }

  /** The named snapshot holds what the cache held, or evidence of a later write is still visible. */
  predicate Covers(w: World, name: string) {
    name in w.snapshots ==>
      match w.snapshots[name]
      case Creating(taken) => taken.None? || taken.value == w.contents || w.unseen.Any()
      case Available(image, _) => image == w.contents || w.unseen.Any()
      case Failed => true
  }

  predicate SnapshotPhase(p: Phase) { p.Snapshotting? || p.SnapshotReady? }

  /** What the durable item must say about the rest of the world. */
  predicate ItemOk(w: World, it: Item) {
    && (!Up(w.group) ==> Image(w.snapshots, it.snapshotName) == Some(w.contents) && !SnapshotPhase(it.phase))
    && (SnapshotPhase(it.phase) ==> (ApiOff(w) || w.unseen.drift) && it.snapshotName.Some? && Covers(w, it.snapshotName.value))
    && (it.quiescentSinceNs.Some? ==> ZeroProof(w.log, it.quiescentSinceNs.value))
    && (!w.cfg.hibernation ==> !SnapshotPhase(it.phase))
  }

  ghost predicate WorldOk(w: World) {
    && (!Up(w.group) ==> w.cfg.hibernation)
    && (Leaving(w.group) ==> LastDeleted(w.log) == Some(w.contents))
    && RedisUrl.Canonical(w.url)
    && RedisUrl.ValidHost(w.nextEndpoint) && (w.group.Group? ==> RedisUrl.ValidHost(w.group.endpoint))
    && (w.unseen.workers ==> Shows(w, WorkerCounts))
    && (w.unseen.queue ==> Shows(w, QueueMetric))
    && (w.unseen.tasks ==> Shows(w, TaskList))
    && (w.unseen.drift ==> !w.api.Stopped())
    && (w.item.Some? ==> w.item.value.revision > 0)
    && LogOk(w.cfg, w.log)
  }

  ghost predicate Good(w: World) { WorldOk(w) && ItemOk(w, Current(w)) }

  lemma StepEvolves(w: World, a: Act)
    ensures Evolves(w, Apply(w, a))
  {
    hide Shows, RedisUrl.ValidHost;
  }

  lemma StepKeepsWorld(w: World, a: Act)
    requires WorldOk(w)
    ensures WorldOk(Apply(w, a))
  {
  }

  lemma StepKeepsItem(w: World, a: Act, it: Item)
    requires ItemOk(w, it)
    ensures ItemOk(Apply(w, a), it)
  {
  }

  lemma {:induction false} RunEvolves(w: World, acts: seq<Act>)
    ensures Evolves(w, ApplyAll(w, acts))
    decreases |acts|
  {
    if acts != [] {
      StepEvolves(w, acts[0]);
      RunEvolves(Apply(w, acts[0]), acts[1..]);
      EvolvesTransitive(w, Apply(w, acts[0]), ApplyAll(w, acts));
    }
  }

  lemma {:induction false} RunKeeps(w: World, acts: seq<Act>, it: Item)
    requires WorldOk(w)
    ensures WorldOk(ApplyAll(w, acts))
    ensures ItemOk(w, it) ==> ItemOk(ApplyAll(w, acts), it)
    decreases |acts|
  {
    if acts != [] {
      StepKeepsWorld(w, acts[0]);
      if ItemOk(w, it) { StepKeepsItem(w, acts[0], it); }
      RunKeeps(Apply(w, acts[0]), acts[1..], it);
    }
  }
}

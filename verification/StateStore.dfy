/** The controller's durable item and its conditional write. */
module StateStore {
  import opened Wrappers

  datatype Phase =
    | Active | Quiescing | Snapshotting | SnapshotReady | Deleting
    | Sleeping | Restoring | ApiStarting | Error

  datatype Wish = Awake | Asleep

  datatype Item = Item(
    revision: nat,
    desired: Wish,
    phase: Phase,
    snapshotName: Option<string>,
    errorType: Option<string>,
    wakeRequestedNs: Option<nat>,
    quiescentSinceNs: Option<nat>,
    updatedAtNs: nat)

  /** What an invocation holds after a read or a write: `stored` is the `_exists` mark. */
  datatype Base = Base(stored: bool, item: Item)

  /** The state assumed while no item has been written. */
  const NO_ITEM := Item(0, Awake, Active, None, None, None, None, 0)

  function BaseOf(item: Option<Item>): Base {
    match item
    case None => Base(false, NO_ITEM)
    case Some(it) => Base(true, it)
  }

  /** The item a transition writes: the requested fields, one revision on. */
  function Stamp(base: Base, next: Item, now: nat): Item {
    next.(revision := base.item.revision + 1, updatedAtNs := now)
  }

  /** The condition of the write: same revision, or still no item. */
  predicate Matches(base: Base, item: Option<Item>) {
    if base.stored then item.Some? && item.value.revision == base.item.revision
    else item.None?
  }
}

/**
 The table row behind the durable item, and what any number of overlapping invocations can do to
 it. Each invocation writes against the item it last read or wrote, however stale that is by then.
 */
module StateHistory {
  import opened Wrappers
  import opened StateStore
  import opened Text

  // ---------------------------------------------------------------- the row

  datatype Attribute = S(text: string) | N(text: string)

  type Row = map<string, Attribute>

  function PhaseText(p: Phase): string {
    match p
    case Active => "ACTIVE"
    case Quiescing => "QUIESCING"
    case Snapshotting => "SNAPSHOTTING"
    case SnapshotReady => "SNAPSHOT_READY"
    case Deleting => "DELETING"
    case Sleeping => "SLEEPING"
    case Restoring => "RESTORING"
    case ApiStarting => "API_STARTING"
    case Error => "ERROR"
  }

  function PhaseOf(text: string): Option<Phase> {
    match text
    case "ACTIVE" => Some(Active)
    case "QUIESCING" => Some(Quiescing)
    case "SNAPSHOTTING" => Some(Snapshotting)
    case "SNAPSHOT_READY" => Some(SnapshotReady)
    case "DELETING" => Some(Deleting)
    case "SLEEPING" => Some(Sleeping)
    case "RESTORING" => Some(Restoring)
    case "API_STARTING" => Some(ApiStarting)
    case "ERROR" => Some(Error)
    case _ => None
  }

  function WishText(w: Wish): string { if w.Awake? then "awake" else "sleep" }

  function WishOf(text: string): Option<Wish> {
    if text == "awake" then Some(Awake) else if text == "sleep" then Some(Asleep) else None
  }

  function With(row: Row, name: string, value: Option<Attribute>): Row {
    if value.None? then row else row[name := value.value]
  }

  function Words(text: Option<string>): Option<Attribute> { if text.None? then None else Some(S(text.value)) }

  function Number(n: Option<nat>): Option<Attribute> { if n.None? then None else Some(N(Print(n.value))) }

  /** The row a transition writes; fields without a value are left out. */
  function Encode(it: Item, key: string): Row {
    var row := map[
      "controller" := S(key), "revision" := N(Print(it.revision)), "desired" := S(WishText(it.desired)),
      "phase" := S(PhaseText(it.phase)), "updatedAtNs" := N(Print(it.updatedAtNs))];
    With(With(With(With(row,
      "snapshotName", Words(it.snapshotName)), "errorType", Words(it.errorType)),
      "wakeRequestedNs", Number(it.wakeRequestedNs)), "quiescentSinceNs", Number(it.quiescentSinceNs))
  }

  predicate Worded(row: Row, name: string) { name in row ==> row[name].S? }

  predicate Numbered(row: Row, name: string) {
    name in row ==> row[name].N? && row[name].text != "" && AllDigits(row[name].text)
  }

  predicate Readable(row: Row) {
    && "revision" in row && "desired" in row && "phase" in row
    && Worded(row, "desired") && Worded(row, "phase") && Worded(row, "snapshotName") && Worded(row, "errorType")
    && Numbered(row, "revision") && Numbered(row, "wakeRequestedNs") && Numbered(row, "quiescentSinceNs")
    && Numbered(row, "updatedAtNs")
    && WishOf(row["desired"].text).Some? && PhaseOf(row["phase"].text).Some?
  }

  function WordsOf(row: Row, name: string): Option<string>
    requires Worded(row, name)
  {
    if name in row then Some(row[name].text) else None
  }

  function NumberOf(row: Row, name: string): Option<nat>
    requires Numbered(row, name)
  {
    if name in row then Some(Value(row[name].text)) else None
  }

  /** What reading a row gives; a malformed row raises. */
  function Decode(row: Row): Option<Item> {
    if !Readable(row) then None
    else Some(Item(
      Value(row["revision"].text), WishOf(row["desired"].text).value, PhaseOf(row["phase"].text).value,
      WordsOf(row, "snapshotName"), WordsOf(row, "errorType"),
      NumberOf(row, "wakeRequestedNs"), NumberOf(row, "quiescentSinceNs"),
      var at := NumberOf(row, "updatedAtNs"); if at.Some? then at.value else 0))
  }

  lemma PhaseRoundTrips(p: Phase)
    ensures PhaseOf(PhaseText(p)) == Some(p)
  {
    match p
    case Active =>
    case _ =>
  }

  lemma EncodedFields(it: Item, key: string)
    ensures var row := Encode(it, key);
      && "revision" in row && row["revision"] == N(Print(it.revision))
      && "desired" in row && row["desired"] == S(WishText(it.desired))
      && "phase" in row && row["phase"] == S(PhaseText(it.phase))
      && "updatedAtNs" in row && row["updatedAtNs"] == N(Print(it.updatedAtNs))
      && Carries(row, "snapshotName", Words(it.snapshotName)) && Carries(row, "errorType", Words(it.errorType))
      && Carries(row, "wakeRequestedNs", Number(it.wakeRequestedNs))
      && Carries(row, "quiescentSinceNs", Number(it.quiescentSinceNs))
  {
    hide Print, WishText, PhaseText, Words, Number;
  }

  predicate Carries(row: Row, name: string, value: Option<Attribute>) {
    if value.None? then name !in row else name in row && row[name] == value.value
  }

  lemma WordsRoundTrip(row: Row, name: string, text: Option<string>)
    requires Carries(row, name, Words(text))
    ensures Worded(row, name) && WordsOf(row, name) == text
  {
  }

  lemma NumberRoundTrips(row: Row, name: string, n: Option<nat>)
    requires Carries(row, name, Number(n))
    ensures Numbered(row, name) && NumberOf(row, name) == n
  {
    if n.Some? { ValueOfPrint(n.value); }
  }

  /** Reading gives back exactly the fields written. */
  lemma DecodeOfEncode(it: Item, key: string)
    ensures Decode(Encode(it, key)) == Some(it)
  {
    hide Encode, Print, Value, PhaseText, PhaseOf;
    var row := Encode(it, key);
    EncodedFields(it, key);
    PhaseRoundTrips(it.phase);
    ValueOfPrint(it.revision);
    ValueOfPrint(it.updatedAtNs);
    WordsRoundTrip(row, "snapshotName", it.snapshotName);
    WordsRoundTrip(row, "errorType", it.errorType);
    NumberRoundTrips(row, "wakeRequestedNs", it.wakeRequestedNs);
    NumberRoundTrips(row, "quiescentSinceNs", it.quiescentSinceNs);
  }

  // ---------------------------------------------------------------- the requested fields

  /** What a transition asks of one field: nothing, to be removed, or a value. */
  datatype Change<T> = Keep | Clear | Set(value: T)

  /** The fields a transition asks for; the wish and the phase are never removed. */
  datatype Updates = Updates(
    desired: Option<Wish>,
    phase: Option<Phase>,
    snapshotName: Change<string>,
    errorType: Change<string>,
    wakeRequestedNs: Change<nat>,
    quiescentSinceNs: Change<nat>)

  function Changed<T>(c: Change<T>, before: Option<T>): Option<T> {
    match c
    case Keep => before
    case Clear => None
    case Set(value) => Some(value)
  }

  /** The held fields with the requested ones put over them. */
  function Merge(it: Item, u: Updates): Item {
    it.(desired := if u.desired.Some? then u.desired.value else it.desired,
        phase := if u.phase.Some? then u.phase.value else it.phase,
        snapshotName := Changed(u.snapshotName, it.snapshotName),
        errorType := Changed(u.errorType, it.errorType),
        wakeRequestedNs := Changed(u.wakeRequestedNs, it.wakeRequestedNs),
        quiescentSinceNs := Changed(u.quiescentSinceNs, it.quiescentSinceNs))
  }

  /** What recording an error asks for. */
  function ErrorUpdates(code: string): Updates { Updates(None, Some(Error), Keep, Set(code), Keep, Clear) }

  /** The fields a transition may ask for, by their names in the row. */
  datatype Field = DesiredField | PhaseField | SnapshotField | ErrorField | WakeField | QuiescentField

  function NameOf(f: Field): string {
    match f
    case DesiredField => "desired"
    case PhaseField => "phase"
    case SnapshotField => "snapshotName"
    case ErrorField => "errorType"
    case WakeField => "wakeRequestedNs"
    case QuiescentField => "quiescentSinceNs"
  }

  function FieldOf(it: Item, f: Field): Option<Attribute> {
    match f
    case DesiredField => Some(S(WishText(it.desired)))
    case PhaseField => Some(S(PhaseText(it.phase)))
    case SnapshotField => Words(it.snapshotName)
    case ErrorField => Words(it.errorType)
    case WakeField => Number(it.wakeRequestedNs)
    case QuiescentField => Number(it.quiescentSinceNs)
  }

  function AskedWords(c: Change<string>): Change<Attribute> {
    match c
    case Keep => Keep
    case Clear => Clear
    case Set(value) => Set(S(value))
  }

  function AskedNumber(c: Change<nat>): Change<Attribute> {
    match c
    case Keep => Keep
    case Clear => Clear
    case Set(value) => Set(N(Print(value)))
  }

  /** What the updates ask of a field of the row. */
  function Asked(u: Updates, f: Field): Change<Attribute> {
    match f
    case DesiredField => if u.desired.Some? then Set(S(WishText(u.desired.value))) else Keep
    case PhaseField => if u.phase.Some? then Set(S(PhaseText(u.phase.value))) else Keep
    case SnapshotField => AskedWords(u.snapshotName)
    case ErrorField => AskedWords(u.errorType)
    case WakeField => AskedNumber(u.wakeRequestedNs)
    case QuiescentField => AskedNumber(u.quiescentSinceNs)
  }

  /** Every field of a written row is the predecessor's unless it was asked for, and then it is what was asked. */
  lemma MergedField(base: Base, u: Updates, at: nat, key: string, f: Field)
    ensures Carries(Encode(Stamp(base, Merge(base.item, u), at), key), NameOf(f), Changed(Asked(u, f), FieldOf(base.item, f)))
  {
    hide Encode, WishText, PhaseText, Print;
    EncodedFields(Stamp(base, Merge(base.item, u), at), key);
  }

  lemma FieldAfterMerge(base: Base, u: Updates, at: nat, f: Field)
    ensures FieldOf(Stamp(base, Merge(base.item, u), at), f) == Changed(Asked(u, f), FieldOf(base.item, f))
  {
    hide WishText, PhaseText, Print;
  }

  /** The names a row is written with. */
  lemma NamesInTheRow()
    ensures PhaseText(Active) == "ACTIVE" && PhaseText(Quiescing) == "QUIESCING" && PhaseText(Snapshotting) == "SNAPSHOTTING"
    ensures PhaseText(SnapshotReady) == "SNAPSHOT_READY" && PhaseText(Deleting) == "DELETING" && PhaseText(Sleeping) == "SLEEPING"
    ensures PhaseText(Restoring) == "RESTORING" && PhaseText(ApiStarting) == "API_STARTING" && PhaseText(Error) == "ERROR"
    ensures WishText(Awake) == "awake" && WishText(Asleep) == "sleep"
  {
  }

  /** A row, field by field: numbers as decimal text, everything else as text, absent fields left out. */
  lemma RowExactly(it: Item, key: string)
    ensures var row := Encode(it, key);
      && "controller" in row && row["controller"] == S(key)
      && "revision" in row && row["revision"] == N(Print(it.revision))
      && "updatedAtNs" in row && row["updatedAtNs"] == N(Print(it.updatedAtNs))
      && "desired" in row && row["desired"] == S(if it.desired.Awake? then "awake" else "sleep")
      && "phase" in row && row["phase"] == S(PhaseText(it.phase))
    ensures var row := Encode(it, key);
      && ("snapshotName" in row <==> it.snapshotName.Some?)
      && ("snapshotName" in row ==> row["snapshotName"] == S(it.snapshotName.value))
      && ("errorType" in row <==> it.errorType.Some?)
      && ("errorType" in row ==> row["errorType"] == S(it.errorType.value))
      && ("wakeRequestedNs" in row <==> it.wakeRequestedNs.Some?)
      && ("wakeRequestedNs" in row ==> row["wakeRequestedNs"] == N(Print(it.wakeRequestedNs.value)))
      && ("quiescentSinceNs" in row <==> it.quiescentSinceNs.Some?)
      && ("quiescentSinceNs" in row ==> row["quiescentSinceNs"] == N(Print(it.quiescentSinceNs.value)))
  {
    hide Encode, Print, PhaseText;
    EncodedFields(it, key);
    ControllerField(it, key);
  }

  lemma ControllerField(it: Item, key: string)
    ensures "controller" in Encode(it, key) && Encode(it, key)["controller"] == S(key)
  {
    hide Print, PhaseText, WishText, Words, Number;
  }

  /** Merging, field by field. */
  lemma MergeExactly(it: Item, u: Updates)
    ensures var m := Merge(it, u);
      && m.desired == (if u.desired.Some? then u.desired.value else it.desired)
      && m.phase == (if u.phase.Some? then u.phase.value else it.phase)
      && (u.snapshotName.Keep? ==> m.snapshotName == it.snapshotName) && (u.snapshotName.Clear? ==> m.snapshotName.None?)
      && (u.snapshotName.Set? ==> m.snapshotName == Some(u.snapshotName.value))
      && (u.errorType.Keep? ==> m.errorType == it.errorType) && (u.errorType.Clear? ==> m.errorType.None?)
      && (u.errorType.Set? ==> m.errorType == Some(u.errorType.value))
      && (u.wakeRequestedNs.Keep? ==> m.wakeRequestedNs == it.wakeRequestedNs)
      && (u.wakeRequestedNs.Clear? ==> m.wakeRequestedNs.None?)
      && (u.wakeRequestedNs.Set? ==> m.wakeRequestedNs == Some(u.wakeRequestedNs.value))
      && (u.quiescentSinceNs.Keep? ==> m.quiescentSinceNs == it.quiescentSinceNs)
      && (u.quiescentSinceNs.Clear? ==> m.quiescentSinceNs.None?)
      && (u.quiescentSinceNs.Set? ==> m.quiescentSinceNs == Some(u.quiescentSinceNs.value))
  {
  }

  // ---------------------------------------------------------------- the history

  /** One successful write: what its author held, the fields it asked for and when. */
  datatype Entry = Entry(base: Base, updates: Updates, at: nat) {
    function Written(): Item { Stamp(base, Merge(base.item, updates), at) }
  }

  function Held(history: seq<Entry>): Base {
    if history == [] then Base(false, NO_ITEM) else Base(true, history[|history| - 1].Written())
  }

  /** Every entry is a transition of its immediate predecessor. */
  predicate Linear(history: seq<Entry>) {
    forall i :: 0 <= i < |history| ==> history[i].base == Held(history[..i])
  }

  lemma {:induction false} RevisionsAreConsecutive(history: seq<Entry>)
    requires Linear(history)
    ensures Held(history).item.revision == |history| && Held(history).stored == (history != [])
  {
    if history != [] {
      var earlier := history[..|history| - 1];
      assert forall i :: 0 <= i < |earlier| ==> earlier[..i] == history[..i];
      RevisionsAreConsecutive(earlier);
    }
  }

  /**
   Each entry is its immediate predecessor with the requested fields changed and no other, one
   revision on, at the time of the write.
   */
  lemma EntryFollowsPredecessor(history: seq<Entry>, i: nat, f: Field)
    requires Linear(history) && i < |history|
    ensures history[i].base == if i == 0 then Base(false, NO_ITEM) else Base(true, history[i - 1].Written())
    ensures var before, after := FieldOf(history[i].base.item, f), FieldOf(history[i].Written(), f);
      match Asked(history[i].updates, f)
      case Keep => after == before
      case Clear => after == None
      case Set(a) => after == Some(a)
    ensures history[i].Written().revision == i + 1 && history[i].Written().updatedAtNs == history[i].at
  {
    var earlier := history[..i];
    assert forall k :: 0 <= k < i ==> earlier[..k] == history[..k];
    RevisionsAreConsecutive(earlier);
    FieldAfterMerge(history[i].base, history[i].updates, history[i].at, f);
  }

  /** A field keeps its value as long as no entry asks for it. */
  lemma {:induction false} FieldStays(history: seq<Entry>, i: nat, j: nat, f: Field)
    requires Linear(history) && i <= j <= |history|
    requires forall k :: i <= k < j ==> Asked(history[k].updates, f).Keep?
    ensures FieldOf(Held(history[..j]).item, f) == FieldOf(Held(history[..i]).item, f)
  {
    hide FieldOf, Asked;
    if i < j {
      FieldStays(history, i, j - 1, f);
      EntryFollowsPredecessor(history, j - 1, f);
      assert history[..j][..j - 1] == history[..j - 1];
    }
  }

  /** A field holds what the last entry that asked for it asked, whoever has written since. */
  lemma LastRequestStands(history: seq<Entry>, i: nat, j: nat, f: Field)
    requires Linear(history) && i < j <= |history| && !Asked(history[i].updates, f).Keep?
    requires forall k :: i < k < j ==> Asked(history[k].updates, f).Keep?
    ensures FieldOf(Held(history[..j]).item, f) == Changed(Asked(history[i].updates, f), None)
  {
    hide FieldOf, Asked;
    FieldStays(history, i + 1, j, f);
    EntryFollowsPredecessor(history, i, f);
  }

  /** `base` is what the table held at some time. */
  ghost predicate WasHeld(history: seq<Entry>, base: Base) {
    exists i: int :: HeldAt(history, base, i)
  }

  ghost predicate HeldAt(history: seq<Entry>, base: Base, i: int) {
    0 <= i <= |history| && base == Held(history[..i])
  }

  lemma HeldNow(history: seq<Entry>)
    ensures WasHeld(history, Held(history))
  {
    assert history[..|history|] == history;
    assert HeldAt(history, Held(history), |history|);
  }

  lemma HeldStays(history: seq<Entry>, e: Entry, base: Base)
    requires WasHeld(history, base)
    ensures WasHeld(history + [e], base)
  {
    var i: int :| HeldAt(history, base, i);
    assert (history + [e])[..i] == history[..i];
    assert HeldAt(history + [e], base, i);
  }

  /** Comparing revisions is enough: a base that was ever held has the current revision only if it is current. */
  lemma RevisionIdentifies(history: seq<Entry>, base: Base)
    requires Linear(history) && WasHeld(history, base)
    ensures base.item.revision <= |history|
    ensures base.item.revision == |history| <==> base == Held(history)
    ensures base.stored <==> base.item.revision > 0
  {
    var i: int :| HeldAt(history, base, i);
    var earlier := history[..i];
    assert forall k :: 0 <= k < |earlier| ==> earlier[..k] == history[..k];
    RevisionsAreConsecutive(earlier);
    RevisionsAreConsecutive(history);
    assert i == |history| ==> earlier == history;
  }

  datatype Delivery = Answered | Unanswered(applied: bool)

  datatype Written = Done(base: Base) | Conflicting | Failing

  /** A write against the item last held is appended if it arrives; any other leaves the history alone. */
  ghost function Recorded(history: seq<Entry>, e: Entry, delivery: Delivery): (r: seq<Entry>)
    ensures history <= r && |r| <= |history| + 1
  {
    if e.base == Held(history) && delivery != Unanswered(false) then history + [e] else history
  }

  lemma AppendingKeepsLinear(history: seq<Entry>, e: Entry)
    requires Linear(history) && e.base == Held(history)
    ensures Linear(history + [e]) && Held(history + [e]) == Base(true, e.Written())
  {
    hide Held;
    var longer := history + [e];
    assert forall i :: 0 <= i <= |history| ==> longer[..i] == history[..i];
    assert Held(longer) == Base(true, e.Written()) by { HeldLast(longer); }
  }

  lemma HeldLast(history: seq<Entry>)
    requires history != []
    ensures Held(history) == Base(true, history[|history| - 1].Written())
  {
  }

  class Table {
    const key: string
    var stored: Option<Row>
    ghost var history: seq<Entry>

    ghost predicate Valid()
      reads this
    {
      && Linear(history)
      && stored == if history == [] then None else Some(Encode(Held(history).item, key))
    }

    constructor (key: string)
      ensures Valid() && history == [] && this.key == key
    {
      this.key, stored, history := key, None, [];
    }

    /** A consistent read: exactly the fields last written, or the assumed state if none were. */
    method Read() returns (base: Base)
      requires Valid()
      ensures base == Held(history)
    {
      if stored.None? {
        base := Base(false, NO_ITEM);
      } else {
        DecodeOfEncode(Held(history).item, key);
        base := Base(true, Decode(stored.value).value);
      }
    }

    /** The condition of the write, as the table evaluates it on the row. */
    predicate Holds(base: Base)
      reads this
    {
      if base.stored
      then stored.Some? && "revision" in stored.value && stored.value["revision"] == N(Print(base.item.revision))
      else stored.None?
    }

    /** The row's condition is the item's: the revision text decides. */
    lemma HoldsMeans(base: Base)
      requires Valid() && WasHeld(history, base)
      ensures Holds(base) <==> base == Held(history)
    {
      hide Print, Value, WasHeld, FieldOf;
      RevisionIdentifies(history, base);
      RevisionsAreConsecutive(history);
      ValueOfPrint(base.item.revision);
      ValueOfPrint(|history|);
    }

    /**
     The conditional write. A base that is no longer current writes nothing, whatever happens to
     the reply; one that is current is the immediate predecessor of what is written.
     */
    method Transition(base: Base, updates: Updates, now: nat, delivery: Delivery) returns (r: Written)
      requires Valid() && WasHeld(history, base)
      modifies this
      ensures Valid()
      ensures base != old(Held(history)) ==> stored == old(stored)
      ensures history == Recorded(old(history), Entry(base, updates, now), delivery)
      ensures r.Done? <==> base == old(Held(history)) && delivery.Answered?
      ensures r.Done? ==> r.base == Held(history)
      ensures r.Conflicting? <==> base != old(Held(history)) && delivery.Answered?
    {
      hide Encode, Merge, WasHeld, Stamp, Linear, Held;
      HoldsMeans(base);
      var holds := Holds(base);
      if holds && (delivery.Answered? || delivery.applied) {
        var e := Entry(base, updates, now);
        AppendingKeepsLinear(history, e);
        stored := Some(Encode(Stamp(base, Merge(base.item, updates), now), key));
        history := history + [e];
      }
      match delivery
      case Unanswered(_) => r := Failing;
      case Answered => r := if holds then Done(Base(true, Stamp(base, Merge(base.item, updates), now))) else Conflicting;
    }

    /** Recording an error is a transition whose outcome nobody looks at. */
    method MarkError(base: Base, code: string, now: nat, delivery: Delivery)
      requires Valid() && WasHeld(history, base)
      modifies this
      ensures Valid() && history == Recorded(old(history), Entry(base, ErrorUpdates(code), now), delivery)
    {
      hide Encode, WasHeld, Linear, Merge, Stamp;
      var _ := Transition(base, ErrorUpdates(code), now, delivery);
    }
  }

  /** An error record against the current item makes it ERROR, stops its clock and keeps the rest. */
  lemma ErrorRecord(base: Base, code: string, at: nat)
    ensures Entry(base, ErrorUpdates(code), at).Written()
            == Stamp(base, base.item.(phase := Error, quiescentSinceNs := None, errorType := Some(code)), at)
  {
  }

  // ---------------------------------------------------------------- overlapping invocations

  datatype Step =
    | Reads
    | Transitions(updates: Updates, now: nat, delivery: Delivery)
    | FailsWith(code: string, now: nat, delivery: Delivery)

  /**
   Any interleaving of any number of invocations: each step belongs to one invocation, which holds
   the item it last read or wrote.
   */
  method Overlap(table: Table, steps: seq<(nat, Step)>)
    requires table.Valid()
    modifies table
    ensures table.Valid() && Linear(table.history) && old(table.history) <= table.history
    ensures Held(table.history).item.revision == |table.history|
  {
    hide Encode, Linear, WasHeld, Recorded;
    var held: map<nat, Base> := map[];
    for i := 0 to |steps|
      invariant table.Valid() && old(table.history) <= table.history
      invariant forall c :: c in held ==> WasHeld(table.history, held[c])
    {
      var (client, step) := steps[i];
      ghost var before := table.history;
      if step.Reads? || client !in held {
        var base := table.Read();
        HeldNow(table.history);
        held := held[client := base];
      } else if step.Transitions? {
        var r := table.Transition(held[client], step.updates, step.now, step.delivery);
        StillHeld(before, table.history, held);
        if r.Done? {
          HeldNow(table.history);
          held := held[client := r.base];
        }
      } else {
        table.MarkError(held[client], step.code, step.now, step.delivery);
        StillHeld(before, table.history, held);
      }
    }
    RevisionsAreConsecutive(table.history);
  }

  lemma StillHeld(before: seq<Entry>, after: seq<Entry>, held: map<nat, Base>)
    requires before <= after && |after| <= |before| + 1
    requires forall c :: c in held ==> WasHeld(before, held[c])
    ensures forall c :: c in held ==> WasHeld(after, held[c])
  {
    if |after| > |before| {
      assert after == before + [after[|before|]];
      forall c | c in held ensures WasHeld(after, held[c]) { HeldStays(before, after[|before|], held[c]); }
    } else {
      assert after == before;
    }
  }
}

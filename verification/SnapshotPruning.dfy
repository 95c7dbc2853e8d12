/** What pruning removes and keeps, and the listing and deletion loops that carry it out. */
module SnapshotPruning {
  import opened Wrappers
  import opened Paging
  import opened SnapshotCatalog

  // ---------------------------------------------------------------- rank

  /** The snapshots of `s` newer than `n`; how many there are is the rank of `n`. */
  function Newer(cat: Catalog, s: set<string>, n: string): set<string>
    requires AllAvailable(cat, s) && n in s
  {
    set m | m in s && Older(cat, n, m)
  }

  lemma {:induction false} SortedByRank(cat: Catalog, s: set<string>, i: nat)
    requires AllAvailable(cat, s) && i < |s|
    ensures NewestFirst(cat, s)[i] in s && |Newer(cat, s, NewestFirst(cat, s)[i])| == i
    decreases |s|
  {
    var top := Newest(cat, s);
    var n := NewestFirst(cat, s)[i];
    if i == 0 {
      forall m | m in s ensures !Older(cat, top, m) { OlderTotal(cat, top, m); }
      assert Newer(cat, s, n) == {};
    } else {
      var rest := s - {top};
      SortedByRank(cat, rest, i - 1);
      assert n == NewestFirst(cat, rest)[i - 1];
      assert Newer(cat, s, n) == {top} + Newer(cat, rest, n);
    }
  }

  function Dropped(order: seq<string>, retention: nat): seq<string> {
    if |order| <= retention then [] else order[retention..]
  }

  /**
   Pruning asks to delete exactly the available controller-named snapshots that have at least
   `retention` newer ones and are not protected.
   */
  lemma VictimsExactly(cat: Catalog, mine: string -> bool, retention: nat, protected: Option<string>, n: string)
    ensures n in Victims(cat, mine, retention, protected)
            <==> n in Usable(cat, mine) && |Newer(cat, Usable(cat, mine), n)| >= retention && protected != Some(n)
  {
    hide NewestFirst, Newer, Usable, Without;
    var s := Usable(cat, mine);
    assert AllAvailable(cat, s) by { UsableAvailable(cat, mine); }
    var order := NewestFirst(cat, s);
    if n in s {
      var i :| 0 <= i < |order| && order[i] == n;
      SortedByRank(cat, s, i);
      if i >= retention { assert order[i] == order[retention..][i - retention]; }
      if n in Dropped(order, retention) {
        var j :| 0 <= j < |Dropped(order, retention)| && Dropped(order, retention)[j] == n;
        SortedByRank(cat, s, retention + j);
      }
    }
  }

  lemma UsableAvailable(cat: Catalog, mine: string -> bool)
    ensures AllAvailable(cat, Usable(cat, mine))
  {
  }

  function Pruned(cat: Catalog, mine: string -> bool, retention: nat, protected: Option<string>): Catalog {
    cat - AsSet(Victims(cat, mine, retention, protected))
  }

  // ---------------------------------------------------------------- what pruning keeps

  lemma UsableAfter(cat: Catalog, gone: set<string>, mine: string -> bool)
    ensures Usable(cat - gone, mine) == Usable(cat, mine) - gone
  {
  }

  lemma RankFalls(cat: Catalog, gone: set<string>, s: set<string>, n: string)
    requires AllAvailable(cat, s) && n in s - gone
    ensures AllAvailable(cat - gone, s - gone)
    ensures Newer(cat - gone, s - gone, n) == Newer(cat, s, n) - gone
    ensures |Newer(cat - gone, s - gone, n)| <= |Newer(cat, s, n)|
  {
    assert forall m :: m in s - gone ==> (cat - gone)[m] == cat[m];
    assert Newer(cat - gone, s - gone, n) == Newer(cat, s, n) - gone;
    SubsetIsSmaller(Newer(cat, s, n) - gone, Newer(cat, s, n));
  }

  /** Pruning again finds nothing to do. */
  lemma PruningIsIdempotent(cat: Catalog, mine: string -> bool, retention: nat, protected: Option<string>)
    ensures Victims(Pruned(cat, mine, retention, protected), mine, retention, protected) == []
    ensures Pruned(Pruned(cat, mine, retention, protected), mine, retention, protected)
            == Pruned(cat, mine, retention, protected)
  {
    hide Usable, Newer, Victims;
    var gone := AsSet(Victims(cat, mine, retention, protected));
    var after := cat - gone;
    var again := Victims(after, mine, retention, protected);
    UsableAfter(cat, gone, mine);
    UsableAvailable(cat, mine);
    if again != [] {
      var n := again[0];
      VictimsExactly(after, mine, retention, protected, n);
      RankFalls(cat, gone, Usable(cat, mine), n);
      VictimsExactly(cat, mine, retention, protected, n);
      assert false;
    }
    assert after - AsSet([]) == after;
  }

  /** At most one snapshot survives beyond the retention count, and it is the protected one. */
  lemma PruningBounds(cat: Catalog, mine: string -> bool, retention: nat, protected: Option<string>)
    ensures |Usable(Pruned(cat, mine, retention, protected), mine)| <= retention + 1
    ensures (protected.None? || protected.value !in Usable(cat, mine)) ==>
              |Usable(Pruned(cat, mine, retention, protected), mine)| <= retention
  {
    hide Usable, NewestFirst, Victims;
    var s := Usable(cat, mine);
    UsableAvailable(cat, mine);
    var gone := AsSet(Victims(cat, mine, retention, protected));
    UsableAfter(cat, gone, mine);
    var order := NewestFirst(cat, s);
    var kept := if |order| <= retention then order else order[..retention];
    forall n | n in s - gone && protected != Some(n) ensures n in kept {
      VictimsExactly(cat, mine, retention, protected, n);
      var i :| 0 <= i < |order| && order[i] == n;
      SortedByRank(cat, s, i);
      assert kept[i] == n;
    }
    SetOfSequence(kept);
    var saved := if protected.Some? && protected.value in s then {protected.value} else {};
    assert s - gone <= AsSet(kept) + saved;
    SubsetIsSmaller(s - gone, AsSet(kept) + saved);
  }

  lemma {:induction false} SetOfSequence(names: seq<string>)
    ensures |AsSet(names)| <= |names|
  {
    if names == [] {
      assert AsSet(names) == {};
    } else {
      SetOfSequence(names[1..]);
      assert AsSet(names) == {names[0]} + AsSet(names[1..]);
    }
  }

  /** With a positive retention the snapshot a restore would fall back to is the same before and after. */
  lemma PruningKeepsLatest(cat: Catalog, mine: string -> bool, retention: nat, protected: Option<string>)
    requires retention >= 1
    ensures Latest(Pruned(cat, mine, retention, protected), mine) == Latest(cat, mine)
  {
    hide Usable, Victims;
    var s := Usable(cat, mine);
    UsableAvailable(cat, mine);
    var gone := AsSet(Victims(cat, mine, retention, protected));
    var after := cat - gone;
    UsableAfter(cat, gone, mine);
    UsableAvailable(after, mine);
    if s != {} {
      var n := Newest(cat, s);
      forall m | m in s ensures !Older(cat, n, m) { OlderTotal(cat, n, m); }
      assert Newer(cat, s, n) == {};
      VictimsExactly(cat, mine, retention, protected, n);
      assert n in s - gone;
      assert IsNewest(after, s - gone, n);
      NewestUnique(after, s - gone, n, Newest(after, s - gone));
    }
  }

  // ---------------------------------------------------------------- which ones those are

  lemma HigherRankIsOlder(cat: Catalog, s: set<string>, n: string, v: string)
    requires AllAvailable(cat, s) && n in s && v in s && |Newer(cat, s, n)| < |Newer(cat, s, v)|
    ensures n != v && CreatedAfter(cat, n, v)
  {
    OlderMeans(cat, v, n);
    OlderTotal(cat, n, v);
    if Older(cat, n, v) {
      forall m | m in Newer(cat, s, v) ensures m in Newer(cat, s, n) { OlderTransitive(cat, n, v, m); }
      SubsetIsSmaller(Newer(cat, s, v), Newer(cat, s, n));
      assert false;
    }
  }

  /** Whatever is kept without being protected was created after everything that is deleted. */
  lemma KeptAfterVictims(cat: Catalog, mine: string -> bool, retention: nat, protected: Option<string>, n: string, v: string)
    requires n in cat && cat[n].Available? && mine(n) && protected != Some(n)
    requires n !in Victims(cat, mine, retention, protected) && v in Victims(cat, mine, retention, protected)
    ensures v in cat && cat[v].Available? && mine(v) && CreatedAfter(cat, n, v)
  {
    hide Newer, Victims, CreatedAfter;
    VictimsExactly(cat, mine, retention, protected, n);
    VictimsExactly(cat, mine, retention, protected, v);
    UsableAvailable(cat, mine);
    HigherRankIsOlder(cat, Usable(cat, mine), n, v);
  }

  /** With a retention of one and nothing protected exactly the latest snapshot is kept. */
  lemma KeepingOneKeepsLatest(cat: Catalog, mine: string -> bool)
    requires Latest(cat, mine).Some?
    ensures Usable(Pruned(cat, mine, 1, None), mine) == {Latest(cat, mine).value}
  {
    hide Victims, Newest;
    PruningKeepsLatest(cat, mine, 1, None);
    PruningBounds(cat, mine, 1, None);
    var after := Pruned(cat, mine, 1, None);
    LatestIsOwn(after, mine);
    var n := Latest(cat, mine).value;
    assert n in Usable(after, mine);
    assert |Usable(after, mine) - {n}| == |Usable(after, mine)| - 1;
    assert Usable(after, mine) == Usable(after, mine) - {n} + {n};
  }

  // ---------------------------------------------------------------- the loops

  /** A listing of the catalog: every name once, split into pages anywhere. */
  ghost predicate Lists(cat: Catalog, pages: seq<seq<string>>) {
    Distinct(Flat(pages)) && forall n :: n in Flat(pages) <==> n in cat
  }

  function Owned(names: seq<string>, mine: string -> bool): (r: seq<string>)
    ensures forall n :: n in r <==> n in names && mine(n)
  {
    if names == [] then []
    else
      var n := names[|names| - 1];
      Owned(names[..|names| - 1], mine) + OwnedOne(n, mine)
  }

  function OwnedOne(n: string, mine: string -> bool): seq<string> {
    if mine(n) then [n] else []
  }

  lemma OwnedLast(s: seq<string>, n: string, mine: string -> bool)
    ensures Owned(s + [n], mine) == Owned(s, mine) + OwnedOne(n, mine)
  {
    assert (s + [n])[..|s|] == s;
  }

  lemma {:induction false} OwnedSplits(a: seq<string>, b: seq<string>, mine: string -> bool)
    ensures Owned(a + b, mine) == Owned(a, mine) + Owned(b, mine)
  {
    hide Owned, OwnedOne;
    if b == [] {
      assert a + b == a;
      assert Owned(b, mine) == [] by { OwnedNone(mine); }
    } else {
      var front, last := b[..|b| - 1], b[|b| - 1];
      OwnedSplits(a, front, mine);
      OwnedLast(front, last, mine);
      OwnedLast(a + front, last, mine);
      assert front + [last] == b && a + front + [last] == a + b;
    }
  }

  lemma OwnedNone(mine: string -> bool)
    ensures Owned([], mine) == []
  {
  }

  lemma {:induction false} OwnedStaysDistinct(names: seq<string>, mine: string -> bool)
    requires Distinct(names)
    ensures Distinct(Owned(names, mine))
  {
    if names != [] {
      OwnedStaysDistinct(names[..|names| - 1], mine);
    }
  }

  class SnapshotService {
    var catalog: Catalog

    constructor (catalog: Catalog)
      ensures this.catalog == catalog
    {
      this.catalog := catalog;
    }

    /** Follows the markers through every page and keeps the controller's own names. */
    method ControllerSnapshots(mine: string -> bool, pages: seq<seq<string>>) returns (names: seq<string>)
      requires pages != [] && Lists(catalog, pages)
      ensures Distinct(names)
      ensures forall n :: n in names <==> n in catalog && mine(n)
    {
      names := [];
      var next := 0;
      while true
        invariant 0 <= next < |pages| && names == Owned(Flat(pages[..next]), mine)
        decreases |pages| - next
      {
        assert pages[..next + 1][..next] == pages[..next];
        OwnedSplits(Flat(pages[..next]), pages[next], mine);
        names := names + Owned(pages[next], mine);
        next := next + 1;
        if next == |pages| { break; }
      }
      assert pages[..next] == pages;
      OwnedStaysDistinct(Flat(pages), mine);
    }

    method AvailableSnapshots(mine: string -> bool, pages: seq<seq<string>>) returns (available: set<string>)
      requires pages != [] && Lists(catalog, pages)
      ensures available == Usable(catalog, mine)
    {
      var names := ControllerSnapshots(mine, pages);
      available := set n | n in names && n in catalog && catalog[n].Available?;
    }

    /** The newest available snapshot, however the listing is paged. */
    method LatestAvailable(mine: string -> bool, pages: seq<seq<string>>) returns (latest: Option<string>)
      requires pages != [] && Lists(catalog, pages)
      ensures latest == Latest(catalog, mine)
    {
      var available := AvailableSnapshots(mine, pages);
      latest := if available == {} then None else Some(Newest(catalog, available));
    }

    /** Deletes everything not kept; a deletion that fails is skipped. */
    method Prune(mine: string -> bool, retention: nat, protected: Option<string>, pages: seq<seq<string>>,
                 refused: set<string>)
      requires pages != [] && Lists(catalog, pages)
      modifies this
      ensures catalog == old(catalog) - (AsSet(Victims(old(catalog), mine, retention, protected)) - refused)
      ensures refused == {} ==> catalog == Pruned(old(catalog), mine, retention, protected)
    {
      hide NewestFirst, Victims, Usable, Lists, IsNewest, AllAvailable;
      var available := AvailableSnapshots(mine, pages);
      assert AllAvailable(catalog, available) by { UsableAvailable(catalog, mine); }
      var order := NewestFirst(catalog, available);
      var keep := AsSet(if |order| <= retention then order else order[..retention]);
      if protected.Some? { keep := keep + {protected.value}; }
      KeptOrVictim(catalog, mine, retention, protected, keep);
      VictimsUsable(catalog, mine, retention, protected);
      DeleteUnkept(order, keep, refused);
      assert AsSet(order) - keep == AsSet(Victims(old(catalog), mine, retention, protected));
    }

    method DeleteUnkept(order: seq<string>, keep: set<string>, refused: set<string>)
      modifies this
      ensures catalog == old(catalog) - (AsSet(order) - keep - refused)
    {
      for i := 0 to |order|
        invariant catalog == old(catalog) - (AsSet(order[..i]) - keep - refused)
      {
        var name := order[i];
        assert AsSet(order[..i + 1]) == AsSet(order[..i]) + {name};
        if name !in keep && name !in refused {
          catalog := catalog - {name};
        }
      }
      assert order[..|order|] == order;
    }
  }

  lemma VictimsUsable(cat: Catalog, mine: string -> bool, retention: nat, protected: Option<string>)
    ensures forall n :: n in Victims(cat, mine, retention, protected) ==> n in Usable(cat, mine)
  {
    hide Victims, Usable;
    forall n | n in Victims(cat, mine, retention, protected) ensures n in Usable(cat, mine) {
      VictimsExactly(cat, mine, retention, protected, n);
    }
  }

  lemma KeptOrVictim(cat: Catalog, mine: string -> bool, retention: nat, protected: Option<string>, keep: set<string>)
    requires var order := NewestFirst(cat, Usable(cat, mine));
      keep == AsSet(if |order| <= retention then order else order[..retention])
              + (if protected.Some? then {protected.value} else {})
    ensures forall n :: n in Usable(cat, mine) ==>
              (n !in keep <==> n in Victims(cat, mine, retention, protected))
  {
    hide Usable, NewestFirst, Victims, Newer;
    var s := Usable(cat, mine);
    UsableAvailable(cat, mine);
    var order := NewestFirst(cat, s);
    forall n | n in s ensures n !in keep <==> n in Victims(cat, mine, retention, protected) {
      VictimsExactly(cat, mine, retention, protected, n);
      var i :| 0 <= i < |order| && order[i] == n;
      SortedByRank(cat, s, i);
      if i < retention {
        assert n in keep;
      } else if n in order[..retention] {
        var j :| 0 <= j < retention && order[j] == n;
        SortedByRank(cat, s, j);
        assert false;
      }
    }
  }
}

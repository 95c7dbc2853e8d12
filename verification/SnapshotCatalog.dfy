/**
 Which controller-owned snapshots exist, which is newest, and which ones pruning removes.
 Snapshots are ordered as the controller orders them: by creation text, then by name.
 */
module SnapshotCatalog {
  import opened Wrappers

  /** `taken` and `image` stand for cache contents: a creating snapshot may not have taken its image yet. */
  datatype Snapshot =
    | Creating(taken: Option<nat>)
    | Available(image: nat, created: string)
    | Failed

  type Catalog = map<string, Snapshot>

  // ---------------------------------------------------------------- ordering

  predicate Less(a: string, b: string) {
    if b == "" then false
    else if a == "" then true
    else a[0] < b[0] || (a[0] == b[0] && Less(a[1..], b[1..]))
  }

  lemma {:induction false} LessTotal(a: string, b: string)
    ensures a != b ==> Less(a, b) || Less(b, a)
    ensures !(Less(a, b) && Less(b, a))
    ensures !Less(a, a)
  {
    if a != "" { LessTotal(a[1..], a[1..]); }
    if a != "" && b != "" {
      LessTotal(a[1..], b[1..]);
      assert a == [a[0]] + a[1..] && b == [b[0]] + b[1..];
    }
  }

  lemma {:induction false} LessTransitive(a: string, b: string, c: string)
    requires Less(a, b) && Less(b, c)
    ensures Less(a, c)
  {
    if a != "" && a[0] == b[0] && b[0] == c[0] { LessTransitive(a[1..], b[1..], c[1..]); }
  }

  /** The snapshots that can be restored from; `mine` tells the controller's own names. */
  function Usable(cat: Catalog, mine: string -> bool): set<string> {
    set n | n in cat && cat[n].Available? && mine(n)
  }

  predicate AllAvailable(cat: Catalog, s: set<string>) {
    forall n :: n in s ==> n in cat && cat[n].Available?
  }

  predicate Older(cat: Catalog, a: string, b: string)
    requires a in cat && cat[a].Available? && b in cat && cat[b].Available?
  {
    Less(cat[a].created, cat[b].created) || (cat[a].created == cat[b].created && Less(a, b))
  }

  lemma OlderTotal(cat: Catalog, a: string, b: string)
    requires a in cat && cat[a].Available? && b in cat && cat[b].Available?
    ensures a != b ==> Older(cat, a, b) || Older(cat, b, a)
    ensures !(Older(cat, a, b) && Older(cat, b, a))
  {
    LessTotal(cat[a].created, cat[b].created);
    LessTotal(a, b);
  }

  lemma OlderTransitive(cat: Catalog, a: string, b: string, c: string)
    requires a in cat && cat[a].Available? && b in cat && cat[b].Available?
    requires c in cat && cat[c].Available?
    requires Older(cat, a, b) && Older(cat, b, c)
    ensures Older(cat, a, c)
  {
    if Less(cat[a].created, cat[b].created) && Less(cat[b].created, cat[c].created) {
      LessTransitive(cat[a].created, cat[b].created, cat[c].created);
    }
    if Less(a, b) && Less(b, c) { LessTransitive(a, b, c); }
  }

  predicate IsNewest(cat: Catalog, s: set<string>, n: string)
    requires AllAvailable(cat, s)
  {
    n in s && forall m :: m in s && m != n ==> Older(cat, m, n)
  }

  lemma {:induction false} NewestExists(cat: Catalog, s: set<string>)
    requires AllAvailable(cat, s) && s != {}
    ensures exists n :: IsNewest(cat, s, n)
  {
    var n :| n in s;
    var rest := s - {n};
    if rest == {} {
      assert forall m :: m in s && m != n ==> m in rest;
      assert IsNewest(cat, s, n);
    } else {
      NewestExists(cat, rest);
      var m :| IsNewest(cat, rest, m);
      OlderTotal(cat, n, m);
      if Older(cat, n, m) {
        assert IsNewest(cat, s, m);
      } else {
        forall k | k in s && k != n ensures Older(cat, k, n) {
          if k != m { OlderTransitive(cat, k, m, n); }
        }
        assert IsNewest(cat, s, n);
      }
    }
  }

  lemma NewestUnique(cat: Catalog, s: set<string>, a: string, b: string)
    requires AllAvailable(cat, s) && IsNewest(cat, s, a) && IsNewest(cat, s, b)
    ensures a == b
  {
    OlderTotal(cat, a, b);
  }

  function Newest(cat: Catalog, s: set<string>): (n: string)
    requires AllAvailable(cat, s) && s != {}
    ensures IsNewest(cat, s, n)
  {
    NewestExists(cat, s);
    assert forall a, b :: IsNewest(cat, s, a) && IsNewest(cat, s, b) ==> a == b by {
      forall a, b | IsNewest(cat, s, a) && IsNewest(cat, s, b) ensures a == b { NewestUnique(cat, s, a, b); }
    }
    var n :| IsNewest(cat, s, n);
    n
  }

  function Latest(cat: Catalog, mine: string -> bool): (r: Option<string>)
    ensures r.Some? ==> r.value in cat && cat[r.value].Available?
  {
    var usable := Usable(cat, mine);
    if usable == {} then None else Some(Newest(cat, usable))
  }

  function NewestFirst(cat: Catalog, s: set<string>): (r: seq<string>)
    requires AllAvailable(cat, s)
    ensures |r| == |s| && (forall n :: n in r <==> n in s)
    decreases |s|
  {
    if s == {} then []
    else
      var n := Newest(cat, s);
      [n] + NewestFirst(cat, s - {n})
  }

  function Without(names: seq<string>, protected: Option<string>): (r: seq<string>)
    ensures forall n :: n in r <==> n in names && protected != Some(n)
  {
    if names == [] then []
    else (if protected == Some(names[0]) then [] else [names[0]]) + Without(names[1..], protected)
  }

  /** The names pruning asks to delete, in the order it asks. */
  function Victims(cat: Catalog, mine: string -> bool, retention: nat, protected: Option<string>): (r: seq<string>)
    ensures forall n :: n in r ==> n in cat && protected != Some(n)
  {
    var ordered := NewestFirst(cat, Usable(cat, mine));
    Without(if |ordered| <= retention then [] else ordered[retention..], protected)
  }

  // ---------------------------------------------------------------- the order, character by character

  /** `a` differs from `b` first at position `k`, and there it is larger, or goes on where `b` ends. */
  predicate ExceedsAt(a: string, b: string, k: int) {
    0 <= k < |a| && k <= |b| && a[..k] == b[..k] && (k == |b| || b[k] < a[k])
  }

  ghost predicate Exceeds(a: string, b: string) { exists k :: ExceedsAt(a, b, k) }

  lemma {:induction false} LessMeans(a: string, b: string)
    ensures Less(a, b) <==> Exceeds(b, a)
  {
    if b != "" {
      if a == "" || a[0] < b[0] {
        assert ExceedsAt(b, a, 0);
      } else if a[0] == b[0] {
        LessMeans(a[1..], b[1..]);
        forall k | ExceedsAt(b[1..], a[1..], k) ensures ExceedsAt(b, a, k + 1) {
          assert b[..k + 1] == [b[0]] + b[1..][..k] && a[..k + 1] == [a[0]] + a[1..][..k];
        }
        forall k | ExceedsAt(b, a, k) && k > 0 ensures ExceedsAt(b[1..], a[1..], k - 1) {
          assert b[1..][..k - 1] == b[..k][1..] && a[1..][..k - 1] == a[..k][1..];
        }
      } else {
        forall k ensures !ExceedsAt(b, a, k) {
          assert 0 < k <= |a| && k < |b| ==> a[..k][0] != b[..k][0];
        }
      }
    }
  }

  /** `n` was created after `m` as the creation texts read, or at the same text and is named after it. */
  ghost predicate CreatedAfter(cat: Catalog, n: string, m: string)
    requires n in cat && cat[n].Available? && m in cat && cat[m].Available?
  {
    || Exceeds(cat[n].created, cat[m].created)
    || (cat[n].created == cat[m].created && Exceeds(n, m))
  }

  lemma OlderMeans(cat: Catalog, m: string, n: string)
    requires n in cat && cat[n].Available? && m in cat && cat[m].Available?
    ensures Older(cat, m, n) <==> CreatedAfter(cat, n, m)
  {
    LessMeans(cat[m].created, cat[n].created);
    LessMeans(m, n);
  }

  /** The latest snapshot is an available one of the controller's, created after every other such one. */
  lemma LatestExactly(cat: Catalog, mine: string -> bool, m: string)
    requires m in cat && cat[m].Available? && mine(m)
    ensures Latest(cat, mine).Some?
    ensures var n := Latest(cat, mine).value;
      mine(n) && (m != n ==> CreatedAfter(cat, n, m))
  {
    assert m in Usable(cat, mine);
    var n := Latest(cat, mine).value;
    assert IsNewest(cat, Usable(cat, mine), n);
    if m != n { OlderMeans(cat, m, n); }
  }

  /** There is a latest one only if there is such a snapshot at all. */
  lemma LatestIsOwn(cat: Catalog, mine: string -> bool)
    requires Latest(cat, mine).Some?
    ensures var n := Latest(cat, mine).value;
      n in cat && cat[n].Available? && mine(n)
  {
    assert Latest(cat, mine).value in Usable(cat, mine);
  }
}

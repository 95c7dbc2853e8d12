/** Which tasks stand in the way of hibernation: two paged listings, then descriptions in batches. */
module TaskScan {
  import opened Wrappers
  import opened Paging
  import Atomic
  import Cloud

  const BATCH := 100

  /** The desired status a task was last listed under. */
  datatype Desired = ToRun | ToStop

  datatype Task = Task(group: Option<string>, lastStatus: string)

  function UpperChar(c: char): char {
    if 'a' <= c <= 'z' then (c as int - 'a' as int + 'A' as int) as char else c
  }

  function Upper(s: string): string { seq(|s|, i requires 0 <= i < |s| => UpperChar(s[i])) }

  predicate HasStopped(t: Task) { Upper(t.lastStatus) == "STOPPED" }

  predicate Allowed(t: Task, apiGroup: string, allowApi: bool) { allowApi && t.group == Some(apiGroup) }

  /** The whole scan in one line: listed, not STOPPED, and not an allowed API task that is meant to run. */
  predicate Blocks(arn: string, stopping: seq<string>, tasks: map<string, Task>, apiGroup: string, allowApi: bool) {
    arn in tasks && !HasStopped(tasks[arn]) && (arn in stopping || !Allowed(tasks[arn], apiGroup, allowApi))
  }

  /** The ECS tasks seen so far, in the order first seen, with the status each was last listed under. */
  datatype Seen = Seen(arns: seq<string>, desired: map<string, Desired>) {
    ghost predicate Valid() { Distinct(arns) && forall a :: a in arns <==> a in desired }

    function Add(arn: string, d: Desired): (s: Seen)
      ensures Valid() ==> s.Valid()
    {
      Seen(if arn in desired then arns else arns + [arn], desired[arn := d])
    }
  }

  ghost predicate Extends(before: Seen, after: Seen, listed: seq<string>, d: Desired) {
    && (forall a :: a in after.desired <==> a in before.desired || a in listed)
    && (forall a :: a in after.desired ==> after.desired[a] == if a in listed then d else before.desired[a])
  }

  method AddPage(seen: Seen, page: seq<string>, d: Desired) returns (r: Seen)
    requires seen.Valid()
    ensures r.Valid() && Extends(seen, r, page, d)
  {
    r := seen;
    for i := 0 to |page|
      invariant r.Valid() && Extends(seen, r, page[..i], d)
    {
      assert page[..i + 1] == page[..i] + [page[i]];
      r := r.Add(page[i], d);
    }
    assert page[..|page|] == page;
  }

  /** Follows the tokens of one listing to the end. */
  method AddListing(seen: Seen, pages: seq<seq<string>>, d: Desired) returns (r: Seen)
    requires seen.Valid() && pages != []
    ensures r.Valid() && Extends(seen, r, Flat(pages), d)
  {
    r := seen;
    var next := 0;
    while true
      invariant 0 <= next < |pages|
      invariant r.Valid() && Extends(seen, r, Flat(pages[..next]), d)
      decreases |pages| - next
    {
      assert pages[..next + 1][..next] == pages[..next];
      r := AddPage(r, pages[next], d);
      next := next + 1;
      if next == |pages| { break; }
    }
    assert pages[..next] == pages;
  }

  /** The blocking tasks among `arns[..n]`, in order. */
  function Blocking(arns: seq<string>, n: nat, stopping: seq<string>, tasks: map<string, Task>,
                    apiGroup: string, allowApi: bool): (r: seq<string>)
    requires n <= |arns|
    ensures forall a :: a in r <==> a in arns[..n] && Blocks(a, stopping, tasks, apiGroup, allowApi)
    ensures Distinct(arns) ==> Distinct(r)
  {
    if n == 0 then []
    else
      assert arns[..n] == arns[..n - 1] + [arns[n - 1]];
      var earlier := Blocking(arns, n - 1, stopping, tasks, apiGroup, allowApi);
      if Blocks(arns[n - 1], stopping, tasks, apiGroup, allowApi) then earlier + [arns[n - 1]] else earlier
  }

  /** Describing one batch fails as soon as one of its tasks is unknown. */
  method DescribeBatch(seen: Seen, from: nat, to: nat, ghost stopping: seq<string>, tasks: map<string, Task>,
                       apiGroup: string, allowApi: bool, sofar: seq<string>) returns (r: Option<seq<string>>)
    requires from <= to <= |seen.arns| && seen.Valid()
    requires forall a :: a in seen.desired ==> (seen.desired[a].ToStop? <==> a in stopping)
    requires sofar == Blocking(seen.arns, from, stopping, tasks, apiGroup, allowApi)
    ensures r.None? <==> exists k :: from <= k < to && seen.arns[k] !in tasks
    ensures r.Some? ==> r.value == Blocking(seen.arns, to, stopping, tasks, apiGroup, allowApi)
  {
    if exists k :: from <= k < to && seen.arns[k] !in tasks { return None; }
    var found := sofar;
    for k := from to to
      invariant found == Blocking(seen.arns, k, stopping, tasks, apiGroup, allowApi)
    {
      var arn := seen.arns[k];
      if !HasStopped(tasks[arn]) && (seen.desired[arn].ToStop? || !Allowed(tasks[arn], apiGroup, allowApi)) {
        found := found + [arn];
      }
    }
    r := Some(found);
  }

  /** The second half of the scan, in batches. */
  method Describe(seen: Seen, ghost stopping: seq<string>, tasks: map<string, Task>, apiGroup: string, allowApi: bool)
    returns (r: Option<seq<string>>)
    requires seen.Valid()
    requires forall a :: a in seen.desired ==> (seen.desired[a].ToStop? <==> a in stopping)
    ensures r.None? <==> exists a :: a in seen.arns && a !in tasks
    ensures r.Some? ==> r.value == Blocking(seen.arns, |seen.arns|, stopping, tasks, apiGroup, allowApi)
  {
    var found := [];
    var offset := 0;
    while offset < |seen.arns|
      invariant 0 <= offset <= |seen.arns|
      invariant found == Blocking(seen.arns, offset, stopping, tasks, apiGroup, allowApi)
      invariant forall k :: 0 <= k < offset ==> seen.arns[k] in tasks
    {
      var end := if offset + BATCH <= |seen.arns| then offset + BATCH else |seen.arns|;
      var batch := DescribeBatch(seen, offset, end, stopping, tasks, apiGroup, allowApi, found);
      if batch.None? { return None; }
      found := batch.value;
      offset := end;
    }
    r := Some(found);
  }

  /**
   The scan raises exactly when a listed task cannot be described; otherwise, however the listings
   are paged and wherever the batches fall, it returns each blocking task once and nothing else.
   */
  method UnexpectedRunningTasks(running: seq<seq<string>>, stopping: seq<seq<string>>, tasks: map<string, Task>,
                                apiGroup: string, allowApi: bool) returns (r: Option<seq<string>>)
    requires running != [] && stopping != []
    ensures r.None? <==> exists a :: (a in Flat(running) || a in Flat(stopping)) && a !in tasks
    ensures r.Some? ==> Distinct(r.value)
    ensures r.Some? ==> forall a ::
              a in r.value <==>
                (a in Flat(running) || a in Flat(stopping)) && Blocks(a, Flat(stopping), tasks, apiGroup, allowApi)
    ensures r == Some([]) <==> forall a :: a in Flat(running) || a in Flat(stopping) ==>
              a in tasks && (HasStopped(tasks[a]) || (a !in Flat(stopping) && allowApi && tasks[a].group == Some(apiGroup)))
  {
    var seen := AddListing(Seen([], map[]), running, ToRun);
    seen := AddListing(seen, stopping, ToStop);
    r := Describe(seen, Flat(stopping), tasks, apiGroup, allowApi);
    assert seen.arns[..|seen.arns|] == seen.arns;
    if r.Some? && r.value != [] { assert r.value[0] in r.value; }
  }

  // ---------------------------------------------------------------- the counts the controller reasons with

  function Listed(running: seq<string>, stopping: seq<string>): set<string> { AsSet(running) + AsSet(stopping) }

  /** The three counts of the world that a task list stands for. */
  function ApiTasks(running: seq<string>, stopping: seq<string>, tasks: map<string, Task>, apiGroup: string): set<string> {
    set a | a in Listed(running, stopping) && a in tasks && !HasStopped(tasks[a])
            && a !in stopping && tasks[a].group == Some(apiGroup)
  }

  function DrainingTasks(running: seq<string>, stopping: seq<string>, tasks: map<string, Task>, apiGroup: string): set<string> {
    set a | a in Listed(running, stopping) && a in tasks && !HasStopped(tasks[a])
            && a in stopping && tasks[a].group == Some(apiGroup)
  }

  function OtherTasks(running: seq<string>, stopping: seq<string>, tasks: map<string, Task>, apiGroup: string): set<string> {
    set a | a in Listed(running, stopping) && a in tasks && !HasStopped(tasks[a]) && tasks[a].group != Some(apiGroup)
  }

  /** The world's three counts are those of these listings. */
  predicate CountsList(w: Cloud.World, running: seq<string>, stopping: seq<string>, tasks: map<string, Task>, apiGroup: string) {
    && w.apiTasks == |ApiTasks(running, stopping, tasks, apiGroup)|
    && w.apiDraining == |DrainingTasks(running, stopping, tasks, apiGroup)|
    && w.otherTasks == |OtherTasks(running, stopping, tasks, apiGroup)|
  }

  lemma FoundInParts(found: seq<string>, other: set<string>, draining: set<string>, api: set<string>, allowApi: bool)
    requires Distinct(found) && other !! draining && (other + draining) !! api
    requires forall a :: a in found <==> a in other || a in draining || (!allowApi && a in api)
    ensures |found| == |other| + |draining| + if allowApi then 0 else |api|
  {
    SetOfDistinct(found);
    assert AsSet(found) == other + draining + if allowApi then {} else api;
  }

  /** The scan finds as many tasks as the controller's guards count. */
  lemma ScanCounts(w: Cloud.World, found: seq<string>, running: seq<string>, stopping: seq<string>,
                   tasks: map<string, Task>, apiGroup: string, allowApi: bool)
    requires CountsList(w, running, stopping, tasks, apiGroup) && Distinct(found)
    requires forall a :: a in found <==> (a in running || a in stopping) && Blocks(a, stopping, tasks, apiGroup, allowApi)
    ensures |found| == Atomic.UnexpectedTasks(w, allowApi)
  {
    hide HasStopped, Distinct;
    FoundInParts(found, OtherTasks(running, stopping, tasks, apiGroup),
                 DrainingTasks(running, stopping, tasks, apiGroup), ApiTasks(running, stopping, tasks, apiGroup), allowApi);
  }

  /** A status counts as stopped exactly when it spells "stopped", in capitals or not. */
  lemma StoppedExactly(t: Task)
    ensures HasStopped(t) <==>
              |t.lastStatus| == 7 && forall i :: 0 <= i < 7 ==> t.lastStatus[i] == "STOPPED"[i] || t.lastStatus[i] == "stopped"[i]
  {
    if HasStopped(t) {
      forall i | 0 <= i < 7 ensures t.lastStatus[i] == "STOPPED"[i] || t.lastStatus[i] == "stopped"[i] {
        assert Upper(t.lastStatus)[i] == "STOPPED"[i];
      }
    }
    if |t.lastStatus| == 7 && forall i :: 0 <= i < 7 ==> t.lastStatus[i] == "STOPPED"[i] || t.lastStatus[i] == "stopped"[i] {
      forall i | 0 <= i < 7 ensures Upper(t.lastStatus)[i] == "STOPPED"[i] {}
    }
  }

  /** One listed ECS task blocks unless it has stopped, or is meant to run and the API's while that is allowed. */
  lemma BlocksExactly(arn: string, stopping: seq<string>, tasks: map<string, Task>, apiGroup: string, allowApi: bool)
    requires arn in tasks
    ensures Blocks(arn, stopping, tasks, apiGroup, allowApi) <==>
              && !HasStopped(tasks[arn])
              && (arn in stopping || tasks[arn].group.None? || tasks[arn].group.value != apiGroup || !allowApi)
  {
  }
}

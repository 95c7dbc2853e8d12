/** Replaying the dead-letter queue: fetch every job page by page, then add to the main queue and remove. */
module DlqReplay {
  import opened Wrappers
  import opened Paging
  import opened Text

  /** A dead-lettered job: its key in the queue and the job id its payload carries, if it has one. */
  datatype Entry = Entry(key: string, payload: Option<string>)

  // ---------------------------------------------------------------- fetching

  /** One page of a state's jobs, as the queue answers for an inclusive range of positions. */
  function Page(jobs: seq<Entry>, start: nat, end: nat): seq<Entry> {
    if start >= |jobs| || end < start then []
    else jobs[start..if end + 1 < |jobs| then end + 1 else |jobs|]
  }

  /** Every job of every state, once and in order, for any batch size of at least one. */
  method FetchJobs(states: seq<seq<Entry>>, batchSize: nat) returns (jobs: seq<Entry>)
    requires batchSize >= 1
    ensures jobs == Flat(states)
  {
    jobs := [];
    for s := 0 to |states|
      invariant jobs == Flat(states[..s])
    {
      var more := FetchState(states[s], batchSize);
      assert states[..s + 1][..s] == states[..s];
      jobs := jobs + more;
    }
    assert states[..|states|] == states;
  }

  method FetchState(listed: seq<Entry>, batchSize: nat) returns (jobs: seq<Entry>)
    requires batchSize >= 1
    ensures jobs == listed
  {
    jobs := [];
    var start := 0;
    while true
      invariant start == |jobs| <= |listed| && jobs == listed[..start]
      decreases |listed| - start
    {
      var batch := Page(listed, start, start + batchSize - 1);
      if |batch| == 0 { break; }
      assert listed[..start] + batch == listed[..start + |batch|];
      jobs := jobs + batch;
      if |batch| < batchSize { break; }
      start := start + batchSize;
    }
  }

  // ---------------------------------------------------------------- keys of replayed jobs

  function Target(jobId: string, at: nat): string { jobId + "-replay-" + Print(at) }

  /** A replay key tells which job it is for. */
  lemma TargetIsInjective(a: string, s: nat, b: string, t: nat)
    requires Target(a, s) == Target(b, t)
    ensures a == b
  {
    TargetDash(a, s);
    TargetDash(b, t);
    assert a == Target(a, s)[..|a|] && b == Target(b, t)[..|b|];
  }

  lemma TargetDash(jobId: string, at: nat)
    ensures FindLast(Target(jobId, at), '-') == Some(|jobId| + 7)
  {
    hide Print, FindLast;
    var head := jobId + "-replay";
    assert Target(jobId, at) == head + ['-'] + Print(at);
    assert '-' !in Print(at);
    FindLastIn(head, '-', Print(at));
  }

  /** Replay keys of the main queue hold the job they are named after. */
  ghost predicate KeysAgree(main: map<string, string>) {
    forall id, at :: Target(id, at) in main ==> main[Target(id, at)] == id
  }

  lemma AddingAgrees(main: map<string, string>, id: string, at: nat)
    requires KeysAgree(main)
    ensures KeysAgree(main[Target(id, at) := id])
  {
    forall b, t | Target(b, t) == Target(id, at) ensures b == id { TargetIsInjective(b, t, id, at); }
  }

  // ---------------------------------------------------------------- replaying

  /** How a queue operation ends: as asked, with an exception, or with the end of the run. */
  datatype Ending = Fine | Throws(applied: bool) | Dies(applied: bool)

  datatype Moved = Recovered | Skipped | Failing | Dead

  datatype Attempt = Attempt(at: nat, add: Ending, remove: Ending)

  datatype Summary = Finished(recovered: nat, skipped: nat, failed: nat) | CutShort

  /** The job ids found in the dead-letter queue. */
  function Waiting(dead: map<string, Option<string>>): set<string> {
    set k | k in dead && dead[k].Some? :: dead[k].value
  }

  /** The job ids found in either queue. */
  function Kept(main: map<string, string>, dead: map<string, Option<string>>): set<string> {
    main.Values + Waiting(dead)
  }

  function Applied(f: Ending): bool { f.Fine? || f.applied }

  /** How many of the first `n` jobs are added and removed, or would be in a dry run. */
  function RecoveredOf(jobs: seq<Entry>, attempts: seq<Attempt>, dryRun: bool, n: nat): nat
    requires n <= |jobs| == |attempts|
  {
    if n == 0 then 0
    else
      var job, a := jobs[n - 1], attempts[n - 1];
      RecoveredOf(jobs, attempts, dryRun, n - 1)
      + if job.payload.Some? && (dryRun || (a.add.Fine? && a.remove.Fine?)) then 1 else 0
  }

  function SkippedOf(jobs: seq<Entry>, n: nat): nat
    requires n <= |jobs|
  {
    if n == 0 then 0 else SkippedOf(jobs, n - 1) + if jobs[n - 1].payload.None? then 1 else 0
  }

  lemma {:induction false} SkippedAre(jobs: seq<Entry>, n: nat)
    requires n <= |jobs|
    ensures SkippedOf(jobs, n) == |set k | 0 <= k < n && jobs[k].payload.None?|
  {
    if n > 0 {
      SkippedAre(jobs, n - 1);
      var before := set k | 0 <= k < n - 1 && jobs[k].payload.None?;
      assert (set k | 0 <= k < n && jobs[k].payload.None?) ==
             if jobs[n - 1].payload.None? then before + {n - 1} else before;
    }
  }

  predicate Succeeds(jobs: seq<Entry>, attempts: seq<Attempt>, dryRun: bool, k: nat)
    requires |jobs| == |attempts|
  {
    k < |jobs| && jobs[k].payload.Some? && (dryRun || (attempts[k].add.Fine? && attempts[k].remove.Fine?))
  }

  lemma {:induction false} SuccessesAre(jobs: seq<Entry>, attempts: seq<Attempt>, dryRun: bool, n: nat)
    requires n <= |jobs| == |attempts|
    ensures RecoveredOf(jobs, attempts, dryRun, n) == |set k | 0 <= k < n && Succeeds(jobs, attempts, dryRun, k)|
  {
    if n > 0 {
      SuccessesAre(jobs, attempts, dryRun, n - 1);
      assert Succeeds(jobs, attempts, dryRun, n - 1) <==>
             RecoveredOf(jobs, attempts, dryRun, n) == RecoveredOf(jobs, attempts, dryRun, n - 1) + 1;
      hide Succeeds, RecoveredOf;
      var before := set k | 0 <= k < n - 1 && Succeeds(jobs, attempts, dryRun, k);
      assert (set k | 0 <= k < n && Succeeds(jobs, attempts, dryRun, k)) ==
             if Succeeds(jobs, attempts, dryRun, n - 1) then before + {n - 1} else before;
    }
  }

  lemma RecoveredAre(jobs: seq<Entry>, attempts: seq<Attempt>, dryRun: bool, n: nat)
    requires n <= |jobs| == |attempts|
    ensures RecoveredOf(jobs, attempts, dryRun, n) ==
            |set k | 0 <= k < n && jobs[k].payload.Some? && (dryRun || (attempts[k].add.Fine? && attempts[k].remove.Fine?))|
  {
    hide RecoveredOf;
    SuccessesAre(jobs, attempts, dryRun, n);
    assert (set k | 0 <= k < n && Succeeds(jobs, attempts, dryRun, k)) ==
           set k | 0 <= k < n && jobs[k].payload.Some? && (dryRun || (attempts[k].add.Fine? && attempts[k].remove.Fine?));
  }

  class Queues {
    var main: map<string, string>
    var dead: map<string, Option<string>>

    constructor (main: map<string, string>, dead: map<string, Option<string>>)
      ensures this.main == main && this.dead == dead
    {
      this.main, this.dead := main, dead;
    }

    /** Adding under a key that is taken changes nothing. */
    method Add(key: string, jobId: string, fate: Ending)
      modifies this`main
      ensures main == if Applied(fate) && key !in old(main) then old(main)[key := jobId] else old(main)
    {
      if Applied(fate) && key !in main { main := main[key := jobId]; }
    }

    method Remove(key: string, fate: Ending)
      modifies this`dead
      ensures dead == if Applied(fate) then old(dead) - {key} else old(dead)
    {
      if Applied(fate) { dead := dead - {key}; }
    }

    /** One job: added to the main queue first, removed only after that succeeded. */
    method Move(job: Entry, a: Attempt, dryRun: bool) returns (r: Moved)
      requires KeysAgree(main) && job.key in dead && dead[job.key] == job.payload
      modifies this
      ensures KeysAgree(main) && Kept(main, dead) == Kept(old(main), old(dead))
      ensures forall k :: k in old(dead) && k != job.key ==> k in dead && dead[k] == old(dead)[k]
      ensures forall k :: k in dead ==> k in old(dead) && dead[k] == old(dead)[k]
      ensures r.Skipped? <==> job.payload.None?
      ensures r.Recovered? <==> job.payload.Some? && (dryRun || (a.add.Fine? && a.remove.Fine?))
      ensures r.Dead? <==> job.payload.Some? && !dryRun && (a.add.Dies? || (a.add.Fine? && a.remove.Dies?))
      ensures dryRun || r.Skipped? ==> main == old(main) && dead == old(dead)
      ensures r.Recovered? && !dryRun ==> job.key !in dead
      ensures !a.add.Fine? ==> dead == old(dead)
      ensures job.payload.Some? && !dryRun && (a.add.Fine? || a.add.applied) ==>
                var key := job.payload.value + "-replay-" + Print(a.at);
                key in main && main[key] == job.payload.value
      ensures forall k :: k in old(main) ==> k in main && main[k] == old(main)[k]
      ensures forall k :: k in main && k !in old(main) ==>
                job.payload.Some? && k == job.payload.value + "-replay-" + Print(a.at)
    {
      if job.payload.None? { return Skipped; }
      if dryRun { return Recovered; }
      var id := job.payload.value;
      AddingAgrees(main, id, a.at);
      Add(Target(id, a.at), id, a.add);
      AddingKeeps(old(main), main, dead, Target(id, a.at), job);
      match a.add {
        case Fine =>
        case Throws(_) => return Failing;
        case Dies(_) => return Dead;
      }
      RemovingKeeps(main, dead, Target(id, a.at), job);
      Remove(job.key, a.remove);
      match a.remove {
        case Fine => r := Recovered;
        case Throws(_) => r := Failing;
        case Dies(_) => r := Dead;
      }
    }

    /**
     The whole run over the fetched jobs. Wherever it is cut short, every job id is still in one of
     the two queues; a finished run accounts for every job it saw.
     */
    method Replay(states: seq<seq<Entry>>, batchSize: nat, attempts: seq<Attempt>, dryRun: bool) returns (r: Summary)
      requires batchSize >= 1 && KeysAgree(main)
      requires |attempts| == |Flat(states)| && Lists(dead, Flat(states))
      modifies this
      ensures KeysAgree(main) && Kept(main, dead) == Kept(old(main), old(dead))
      ensures dryRun ==> main == old(main) && dead == old(dead) && r.Finished?
      ensures r.Finished? ==> r.recovered + r.skipped + r.failed == |Flat(states)|
      ensures r.Finished? ==> r.skipped == SkippedOf(Flat(states), |Flat(states)|)
      ensures r.Finished? ==> r.recovered == RecoveredOf(Flat(states), attempts, dryRun, |attempts|)
      ensures !dryRun && (forall i :: 0 <= i < |attempts| ==> attempts[i].add.Fine? && attempts[i].remove.Fine?) ==>
                r.Finished? && r.failed == 0 && Waiting(dead) == {}
    {
      hide Flat, Kept, KeysAgree, Waiting, Lists, SkippedOf, RecoveredOf;
      var jobs := FetchJobs(states, batchSize);
      ListedOnce(dead, jobs);
      r := ReplayJobs(jobs, attempts, dryRun);
      if !dryRun && forall i :: 0 <= i < |attempts| ==> attempts[i].add.Fine? && attempts[i].remove.Fine? {
        NoneWaits(old(dead), dead, jobs);
      }
    }

    /** The loop over the fetched jobs; each is in the dead-letter queue once. */
    method ReplayJobs(jobs: seq<Entry>, attempts: seq<Attempt>, dryRun: bool) returns (r: Summary)
      requires KeysAgree(main) && |attempts| == |jobs|
      requires forall k :: 0 <= k < |jobs| ==> jobs[k].key in dead && dead[jobs[k].key] == jobs[k].payload
      requires forall i, j :: 0 <= i < j < |jobs| ==> jobs[i].key != jobs[j].key
      modifies this
      ensures KeysAgree(main) && Kept(main, dead) == Kept(old(main), old(dead))
      ensures forall k :: k in dead ==> k in old(dead) && dead[k] == old(dead)[k]
      ensures dryRun ==> main == old(main) && dead == old(dead) && r.Finished?
      ensures r.Finished? ==> r.recovered + r.skipped + r.failed == |jobs|
      ensures r.Finished? ==> r.skipped == SkippedOf(jobs, |jobs|)
      ensures r.Finished? ==> r.recovered == RecoveredOf(jobs, attempts, dryRun, |jobs|)
      ensures !dryRun && (forall i :: 0 <= i < |attempts| ==> attempts[i].add.Fine? && attempts[i].remove.Fine?) ==>
                r.Finished? && r.failed == 0 && forall k :: 0 <= k < |jobs| && jobs[k].payload.Some? ==> jobs[k].key !in dead
    {
      hide Kept, KeysAgree, Print;
      var recovered, skipped, failed := 0, 0, 0;
      for i := 0 to |jobs|
        invariant KeysAgree(main) && Kept(main, dead) == Kept(old(main), old(dead))
        invariant forall k :: i <= k < |jobs| ==> jobs[k].key in dead && dead[jobs[k].key] == jobs[k].payload
        invariant forall k :: k in dead ==> k in old(dead) && dead[k] == old(dead)[k]
        invariant dryRun ==> main == old(main) && dead == old(dead)
        invariant recovered + skipped + failed == i
        invariant skipped == SkippedOf(jobs, i) && recovered == RecoveredOf(jobs, attempts, dryRun, i)
        invariant !dryRun && (forall i :: 0 <= i < |attempts| ==> attempts[i].add.Fine? && attempts[i].remove.Fine?) ==>
                    failed == 0 && forall k :: 0 <= k < i && jobs[k].payload.Some? ==> jobs[k].key !in dead
      {
        var moved := Move(jobs[i], attempts[i], dryRun);
        match moved {
          case Recovered => recovered := recovered + 1;
          case Skipped => skipped := skipped + 1;
          case Failing => failed := failed + 1;
          case Dead => return CutShort;
        }
      }
      r := Finished(recovered, skipped, failed);
    }
  }

  /** The fetched jobs are the dead-letter queue: each key once, with its payload. */
  ghost predicate Lists(dead: map<string, Option<string>>, jobs: seq<Entry>) {
    && (forall i :: 0 <= i < |jobs| ==> jobs[i].key in dead && dead[jobs[i].key] == jobs[i].payload)
    && (forall i, j :: 0 <= i < j < |jobs| ==> jobs[i].key != jobs[j].key)
    && (forall k :: k in dead ==> exists i :: 0 <= i < |jobs| && jobs[i].key == k)
  }

  lemma AddingKeeps(before: map<string, string>, after: map<string, string>, dead: map<string, Option<string>>,
                    key: string, job: Entry)
    requires job.key in dead && dead[job.key] == job.payload && job.payload.Some?
    requires after == before || (key !in before && after == before[key := job.payload.value])
    ensures Kept(after, dead) == Kept(before, dead)
  {
    assert job.payload.value in Waiting(dead);
    forall id | id in before.Values ensures id in after.Values {
      var k :| k in before && before[k] == id;
      assert after[k] == id;
    }
  }

  lemma RemovingKeeps(main: map<string, string>, dead: map<string, Option<string>>, key: string, job: Entry)
    requires key in main && job.payload == Some(main[key]) && job.key in dead && dead[job.key] == job.payload
    ensures Kept(main, dead - {job.key}) == Kept(main, dead)
  {
    assert main[key] in main.Values;
    forall id | id in Waiting(dead) && id != main[key] ensures id in Waiting(dead - {job.key}) {
      var k :| k in dead && dead[k] == Some(id);
      assert k in dead - {job.key};
    }
  }

  lemma ListedOnce(dead: map<string, Option<string>>, jobs: seq<Entry>)
    requires Lists(dead, jobs)
    ensures forall k :: 0 <= k < |jobs| ==> jobs[k].key in dead && dead[jobs[k].key] == jobs[k].payload
    ensures forall i, j :: 0 <= i < j < |jobs| ==> jobs[i].key != jobs[j].key
  {
  }

  lemma NoneWaits(was: map<string, Option<string>>, dead: map<string, Option<string>>, jobs: seq<Entry>)
    requires Lists(was, jobs) && forall k :: k in dead ==> k in was && dead[k] == was[k]
    requires forall k :: 0 <= k < |jobs| && jobs[k].payload.Some? ==> jobs[k].key !in dead
    ensures Waiting(dead) == {}
  {
    forall k | k in dead ensures dead[k].None? {
      var i :| 0 <= i < |jobs| && jobs[i].key == k;
    }
  }
}

/** Running the steps of a plan under one deadline, and the verdict on the plan. */
module StepBudget {
  import opened Wrappers
  import opened OutputCapture
  import opened Utf8

  const LEAST_MS := 100

  /**
   How one step went: the time before it was started, the time it took, its exit code if it had
   one, whether its timer fired, and what it wrote.
   */
  datatype Process = Process(before: nat, took: nat, code: Option<int>, timedOut: bool, chunks: seq<Chunk>) {
    predicate Passed() { code == Some(0) && !timedOut }
  }

  datatype Result = Result(
    succeeded: bool, exitCode: Option<int>, timedOut: bool, stdout: seq<Scalar>, stderr: seq<Scalar>, ended: int)

  function Remaining(deadline: int, now: int): (ms: int)
    ensures ms >= LEAST_MS && ms >= deadline - now
  {
    if deadline - now > LEAST_MS then deadline - now else LEAST_MS
  }

  /** The steps that are started: all up to the first that does not pass. */
  function Started(plan: seq<Process>): (k: nat)
    ensures k <= |plan|
    ensures forall i :: 0 <= i < k - 1 ==> plan[i].Passed()
    ensures k < |plan| ==> k > 0 && !plan[k - 1].Passed()
  {
    if plan == [] then 0 else if !plan[0].Passed() then 1 else 1 + Started(plan[1..])
  }

  /** The started steps end with the first that exits other than 0, or without a code, or times out. */
  lemma StartedExactly(plan: seq<Process>)
    ensures var k := Started(plan);
      && (forall i :: 0 <= i < k - 1 ==> plan[i].code == Some(0) && !plan[i].timedOut)
      && (k < |plan| ==> k > 0 && (plan[k - 1].code != Some(0) || plan[k - 1].timedOut))
  {
  }

  /** The time given is what is left of the budget, and never less than 100 ms. */
  lemma RemainingExactly(deadline: int, now: int)
    ensures deadline - now >= 100 ==> Remaining(deadline, now) == deadline - now
    ensures deadline - now <= 100 ==> Remaining(deadline, now) == 100
  {
  }

  /** When a run of `plan[..k]` that begins at `start` ends. */
  function Clock(plan: seq<Process>, k: nat, start: int): int
    requires k <= |plan|
  {
    if k == 0 then start else Clock(plan, k - 1, start) + plan[k - 1].before + plan[k - 1].took
  }

  /** The time given to step `i`. */
  function Given(plan: seq<Process>, i: nat, start: int, deadline: int): int
    requires i < |plan|
  {
    Remaining(deadline, Clock(plan, i, start) + plan[i].before)
  }

  /** Every started step ends within the time given to it. */
  predicate Within(plan: seq<Process>, k: nat, start: int, deadline: int)
    requires k <= |plan|
  {
    forall i :: 0 <= i < k ==> plan[i].took <= Given(plan, i, start, deadline)
  }

  function Text(plan: seq<Process>, k: nat, stdout: bool): seq<Scalar>
    requires k <= |plan|
  {
    if k == 0 then [] else Text(plan, k - 1, stdout) + Written(plan[k - 1].chunks, stdout)
  }

  /** Everything the first `k` steps wrote, chunk by chunk. */
  function Chunks(plan: seq<Process>, k: nat): seq<Chunk>
    requires k <= |plan|
  {
    if k == 0 then [] else Chunks(plan, k - 1) + plan[k - 1].chunks
  }

  /** The text of the steps is the text of their own stdout chunks, and of their own stderr chunks. */
  lemma {:induction false} TextIsItsOwnChunks(plan: seq<Process>, k: nat)
    requires k <= |plan|
    ensures Text(plan, k, true) == Apart(StdoutOf(Chunks(plan, k)))
    ensures Text(plan, k, false) == Apart(StderrOf(Chunks(plan, k)))
  {
    hide Apart, StdoutOf, StderrOf;
    TextIsWritten(plan, k, true);
    TextIsWritten(plan, k, false);
    WrittenIsItsOwnChunks(Chunks(plan, k));
  }

  lemma NothingWritten(stdout: bool)
    ensures Written([], stdout) == []
  {
  }

  lemma {:induction false} TextIsWritten(plan: seq<Process>, k: nat, stdout: bool)
    requires k <= |plan|
    ensures Text(plan, k, stdout) == Written(Chunks(plan, k), stdout)
  {
    hide Written;
    NothingWritten(stdout);
    if k > 0 {
      TextIsWritten(plan, k - 1, stdout);
      WrittenConcat(Chunks(plan, k - 1), plan[k - 1].chunks, stdout);
    }
  }

  lemma CombineStep(plan: seq<Process>, k: nat, stdout: bool, maxBytes: nat)
    requires k < |plan|
    ensures Truncate(Truncate(Text(plan, k, stdout), maxBytes) + Truncate(Written(plan[k].chunks, stdout), maxBytes), maxBytes)
            == Truncate(Text(plan, k + 1, stdout), maxBytes)
  {
    hide Truncate, Written;
    var earlier, more := Text(plan, k, stdout), Written(plan[k].chunks, stdout);
    TruncateAbsorbs(Truncate(earlier, maxBytes), more, maxBytes);
    TruncateAbsorbs(earlier, more, maxBytes);
  }

  /** Runs one step and puts its truncated output after what there is. */
  method RunStep(step: Process, combinedStdout: seq<Scalar>, combinedStderr: seq<Scalar>, maxBytes: nat,
                 ghost plan: seq<Process>, ghost i: nat) returns (stdout: seq<Scalar>, stderr: seq<Scalar>)
    requires i < |plan| && plan[i] == step
    requires combinedStdout == Truncate(Text(plan, i, true), maxBytes)
    requires combinedStderr == Truncate(Text(plan, i, false), maxBytes)
    ensures stdout == Truncate(Text(plan, i + 1, true), maxBytes)
    ensures stderr == Truncate(Text(plan, i + 1, false), maxBytes)
  {
    hide Truncate, Written, Text;
    stdout, stderr := Capture(step.chunks, maxBytes);
    CombineStep(plan, i, true, maxBytes);
    CombineStep(plan, i, false, maxBytes);
    stdout := Truncate(combinedStdout + stdout, maxBytes);
    stderr := Truncate(combinedStderr + stderr, maxBytes);
  }

  /**
   The step loop. The output is one truncation of everything the started steps wrote; the run
   succeeded exactly when there was a step, every step exited 0 and no timer fired.
   */
  method Execute(plan: seq<Process>, startedAt: int, timeoutMs: nat, maxBytes: nat)
    returns (r: Result, given: seq<int>)
    ensures var k := Started(plan);
      && r.stdout == Truncate(Apart(StdoutOf(Chunks(plan, k))), maxBytes)
      && r.stderr == Truncate(Apart(StderrOf(Chunks(plan, k))), maxBytes)
      && r.exitCode == (if k == 0 then None else plan[k - 1].code)
      && (r.timedOut <==> k > 0 && plan[k - 1].timedOut)
      && r.ended == Clock(plan, k, startedAt)
    ensures |given| == Started(plan)
    ensures forall i :: 0 <= i < |given| ==> given[i] == Given(plan, i, startedAt, startedAt + timeoutMs)
    ensures r.succeeded <==> plan != [] && forall i :: 0 <= i < |plan| ==> plan[i].code == Some(0) && !plan[i].timedOut
    ensures plan != [] && Within(plan, Started(plan), startedAt, startedAt + timeoutMs) ==>
              r.ended <= Bound(plan, Started(plan), startedAt, startedAt + timeoutMs)
  {
    hide Truncate, Written, Text, Within, Bound, Started, Apart, StdoutOf, StderrOf, Chunks;
    var deadline := startedAt + timeoutMs;
    var now := startedAt;
    given := [];
    var combinedStdout, combinedStderr := [], [];
    var finalCode: Option<int> := None;
    var timedOut := false;
    NothingYet(plan, maxBytes);
    var i := 0;
    while i < |plan|
      invariant 0 <= i <= |plan| && now == Clock(plan, i, startedAt)
      invariant combinedStdout == Truncate(Text(plan, i, true), maxBytes)
      invariant combinedStderr == Truncate(Text(plan, i, false), maxBytes)
      invariant forall j :: 0 <= j < i ==> plan[j].Passed()
      invariant |given| == i && forall j :: 0 <= j < i ==> given[j] == Given(plan, j, startedAt, deadline)
      invariant !timedOut && finalCode == if i == 0 then None else plan[i - 1].code
    {
      var step := plan[i];
      given := given + [Remaining(deadline, now + step.before)];
      now := now + step.before + step.took;
      combinedStdout, combinedStderr := RunStep(step, combinedStdout, combinedStderr, maxBytes, plan, i);
      finalCode := step.code;
      i := i + 1;
      if step.timedOut {
        timedOut := true;
        break;
      }
      if step.code != Some(0) { break; }
    }
    StartedIs(plan, i);
    TextIsItsOwnChunks(plan, i);
    TruncateIdempotent(Text(plan, i, true), maxBytes);
    TruncateIdempotent(Text(plan, i, false), maxBytes);
    r := Result(finalCode == Some(0) && !timedOut, finalCode, timedOut,
                Truncate(combinedStdout, maxBytes), Truncate(combinedStderr, maxBytes), now);
    if plan != [] && Within(plan, i, startedAt, deadline) { EndsInTime(plan, i, startedAt, deadline); }
  }

  lemma NothingYet(plan: seq<Process>, maxBytes: nat)
    ensures Truncate(Text(plan, 0, true), maxBytes) == [] && Truncate(Text(plan, 0, false), maxBytes) == []
  {
    TruncateNothing(maxBytes);
  }

  lemma StartedIs(plan: seq<Process>, k: nat)
    requires k <= |plan| && (forall j :: 0 <= j < k - 1 ==> plan[j].Passed())
    requires k < |plan| ==> k > 0 && !plan[k - 1].Passed()
    ensures Started(plan) == k
  {
  }

  // ---------------------------------------------------------------- the bound

  function Max(a: int, b: int): int { if a < b then b else a }

  /** The deadline or 100 ms for the first step, then at most 100 ms and the pause before each later one. */
  function Bound(plan: seq<Process>, k: nat, start: int, deadline: int): int
    requires 0 < k <= |plan|
  {
    if k == 1 then Max(deadline, start + plan[0].before + LEAST_MS)
    else Bound(plan, k - 1, start, deadline) + plan[k - 1].before + LEAST_MS
  }

  lemma {:induction false} BoundPastDeadline(plan: seq<Process>, k: nat, start: int, deadline: int)
    requires 0 < k <= |plan|
    ensures Bound(plan, k, start, deadline) >= deadline
  {
    if k > 1 { BoundPastDeadline(plan, k - 1, start, deadline); }
  }

  lemma {:induction false} EndsInTime(plan: seq<Process>, k: nat, start: int, deadline: int)
    requires 0 < k <= |plan| && Within(plan, k, start, deadline)
    ensures Clock(plan, k, start) <= Bound(plan, k, start, deadline)
  {
    if k == 1 {
      assert Clock(plan, 0, start) == start;
    } else {
      EndsInTime(plan, k - 1, start, deadline);
      BoundPastDeadline(plan, k - 1, start, deadline);
    }
  }

  predicate NoPauses(plan: seq<Process>) { forall i :: 0 <= i < |plan| ==> plan[i].before == 0 }

  /** With no pauses and the accepted timeouts, a k-step run ends by the timeout and 100 ms for each further step. */
  lemma BudgetWithoutPauses(plan: seq<Process>, k: nat, start: int, timeoutMs: nat)
    requires 0 < k <= |plan| && NoPauses(plan) && timeoutMs >= LEAST_MS
    requires Within(plan, k, start, start + timeoutMs)
    ensures Clock(plan, k, start) <= start + timeoutMs + 100 * (k - 1)
  {
    BoundWithoutPauses(plan, k, start, timeoutMs);
    EndsInTime(plan, k, start, start + timeoutMs);
  }

  lemma {:induction false} BoundWithoutPauses(plan: seq<Process>, k: nat, start: int, timeoutMs: nat)
    requires 0 < k <= |plan| && NoPauses(plan) && timeoutMs >= LEAST_MS
    ensures Bound(plan, k, start, start + timeoutMs) == start + timeoutMs + LEAST_MS * (k - 1)
  {
    if k > 1 { BoundWithoutPauses(plan, k - 1, start, timeoutMs); }
  }

  /** A plan whose steps each use all the time given to them, and still exit 0. */
  function Slowest(k: nat, timeoutMs: nat): (plan: seq<Process>)
    ensures |plan| == k && NoPauses(plan)
  {
    if k == 0 then []
    else Slowest(k - 1, timeoutMs) + [Process(0, if k == 1 then timeoutMs else LEAST_MS, Some(0), false, [])]
  }

  /** The bound is reached. */
  lemma {:induction false} BudgetIsTight(k: nat, start: int, timeoutMs: nat)
    requires k > 0 && timeoutMs >= LEAST_MS
    ensures var plan := Slowest(k, timeoutMs);
      && Started(plan) == k && Within(plan, k, start, start + timeoutMs)
      && Clock(plan, k, start) == start + timeoutMs + 100 * (k - 1)
  {
    var plan := Slowest(k, timeoutMs);
    SlowestPasses(k, timeoutMs);
    StartedIs(plan, k);
    if k > 1 {
      BudgetIsTight(k - 1, start, timeoutMs);
      var shorter := Slowest(k - 1, timeoutMs);
      forall i: nat | i < k ensures Clock(plan, i, start) == Clock(shorter, i, start) { ClockOfPrefix(plan, shorter, i, start); }
    } else {
      assert Clock(plan, 0, start) == start;
    }
  }

  lemma {:induction false} SlowestPasses(k: nat, timeoutMs: nat)
    ensures forall i :: 0 <= i < k ==> Slowest(k, timeoutMs)[i].Passed()
  {
    if k > 0 { SlowestPasses(k - 1, timeoutMs); }
  }

  lemma {:induction false} ClockOfPrefix(plan: seq<Process>, prefix: seq<Process>, k: nat, start: int)
    requires prefix <= plan && k <= |prefix|
    ensures Clock(plan, k, start) == Clock(prefix, k, start)
  {
    if k > 0 { ClockOfPrefix(plan, prefix, k - 1, start); }
  }
}

/** Execution of a matched Slack handler with retries and exponential backoff. */
module HandlerExecutor {
  import opened Wrappers
  import opened ExecutionStatus
  import opened ExecutionRefRecorder

  const MAX_RETRIES: nat := 3

  datatype HandlerError = SetupFailed(reason: string) | JobFailed(output: string) | ExecutionFailed(cause: string)

  type Attempt = Result<(), HandlerError>

  function Judge(result: Terminal): Attempt {
    match result
    case Ok(outcome) => if outcome.success then Ok(()) else Err(JobFailed(outcome.output))
    case Err(e) => Err(ExecutionFailed(e))
  }

  /** The refs a run asked the recorder to create. */
  function RefsRequested(run: seq<Event>): nat {
    if run == [] then 0 else (if run[0].PendingRecorded? then 1 else 0) + RefsRequested(run[1..])
  }

  lemma {:induction false} RefsRequestedOfConcat(left: seq<Event>, right: seq<Event>)
    ensures RefsRequested(left + right) == RefsRequested(left) + RefsRequested(right)
    decreases |left|
  {
    if left == [] {
      assert left + right == right;
    } else {
      assert (left + right)[1..] == left[1..] + right;
      RefsRequestedOfConcat(left[1..], right);
    }
  }

  lemma BlockingRunRequestsOneRef(world: World, at: nat, pending: ExecutionRef)
    ensures RefsRequested(BlockingRunAt(world, at, pending)) == 1
    ensures Sleeps(BlockingRunAt(world, at, pending)) == []
  {
    var run := BlockingRunAt(world, at, pending);
    assert forall i :: 1 <= i < |run| ==> !run[i].PendingRecorded?;
    assert forall i :: 0 <= i < |run| ==> !run[i].Slept?;
    NoRefsRequested(run[1..]);
    NoSleeps(run);
  }

  lemma {:induction false} NoRefsRequested(run: seq<Event>)
    requires forall i :: 0 <= i < |run| ==> !run[i].PendingRecorded?
    ensures RefsRequested(run) == 0
    decreases |run|
  {
    if run != [] {
      NoRefsRequested(run[1..]);
    }
  }

  /** What a run slept, in order. */
  function Sleeps(run: seq<Event>): seq<nat> {
    if run == [] then [] else (if run[0].Slept? then [run[0].seconds] else []) + Sleeps(run[1..])
  }

  lemma {:induction false} SleepsOfConcat(left: seq<Event>, right: seq<Event>)
    ensures Sleeps(left + right) == Sleeps(left) + Sleeps(right)
    decreases |left|
  {
    if left == [] {
      assert left + right == right;
    } else {
      var here := if left[0].Slept? then [left[0].seconds] else [];
      assert (left + right)[1..] == left[1..] + right;
      SleepsOfConcat(left[1..], right);
      calc {
        Sleeps(left + right);
        here + Sleeps((left + right)[1..]);
        here + (Sleeps(left[1..]) + Sleeps(right));
        (here + Sleeps(left[1..])) + Sleeps(right);
        Sleeps(left) + Sleeps(right);
      }
    }
  }

  lemma {:induction false} NoSleeps(run: seq<Event>)
    requires forall i :: 0 <= i < |run| ==> !run[i].Slept?
    ensures Sleeps(run) == []
    decreases |run|
  {
    if run != [] {
      NoSleeps(run[1..]);
    }
  }

  // ---------------------------------------------------------------- one attempt

  /** What an attempt that starts at position `at` does; `setup` is everything that can fail before the ref is recorded. */
  function AttemptRun(world: World, at: nat, setup: Result<ExecutionRef, string>): seq<Event> {
    match setup
    case Err(_) => []
    case Ok(pending) => BlockingRunAt(world, at, pending)
  }

  function Verdict(world: World, at: nat, setup: Result<ExecutionRef, string>): Attempt {
    match setup
    case Err(reason) => Err(SetupFailed(reason))
    case Ok(_) => Judge(Awaited(world.enqueueReply(at + 1)))
  }

  /** What an attempt reports of the job it enqueued: success exactly if the job ended and succeeded, and otherwise why not. */
  predicate ReportsTheJob(attempt: Attempt, setup: Result<ExecutionRef, string>, reply: EnqueueReply) {
    && (attempt.Ok? <==> setup.Ok? && reply.Ok? && reply.value.terminal.Ok? && reply.value.terminal.value.success)
    && (setup.Err? ==> attempt == Err(SetupFailed(setup.error)))
    && (setup.Ok? && reply.Err? ==> attempt == Err(ExecutionFailed(reply.error)))
    && (setup.Ok? && reply.Ok? && reply.value.terminal.Err? ==> attempt == Err(ExecutionFailed(reply.value.terminal.error)))
    && (setup.Ok? && reply.Ok? && reply.value.terminal.Ok? && attempt.Err? ==> attempt == Err(JobFailed(reply.value.terminal.value.output)))
  }

  lemma VerdictReportsTheJob(world: World, at: nat, setup: Result<ExecutionRef, string>)
    ensures ReportsTheJob(Verdict(world, at, setup), setup, world.enqueueReply(at + 1))
  {
  }

  method ExecuteWorkflow(world: World, setup: Result<ExecutionRef, string>) returns (attempt: Attempt)
    modifies world
    ensures ReportsTheJob(attempt, setup, world.enqueueReply(|old(world.trace)| + 1))
    ensures attempt == Verdict(world, |old(world.trace)|, setup)
    ensures world.trace == old(world.trace) + AttemptRun(world, |old(world.trace)|, setup)
  {
    match setup {
      case Err(reason) =>
        attempt := Err(SetupFailed(reason));
      case Ok(pending) =>
        var result := RecordPendingThenUpdate(world, pending);
        attempt := Judge(result);
    }
  }

  /** An attempt asks for one ref, unless its set-up failed, and never sleeps. */
  lemma OneRefPerAttempt(world: World, at: nat, setup: Result<ExecutionRef, string>)
    ensures RefsRequested(AttemptRun(world, at, setup)) == if setup.Ok? then 1 else 0
    ensures Sleeps(AttemptRun(world, at, setup)) == []
  {
    if setup.Ok? {
      BlockingRunRequestsOneRef(world, at, setup.value);
    }
  }

  // ---------------------------------------------------------------- backoff

  function Pow2(n: nat): nat {
    if n == 0 then 1 else 2 * Pow2(n - 1)
  }

  function Sum(delays: seq<nat>): nat {
    if delays == [] then 0 else Sum(delays[..|delays| - 1]) + delays[|delays| - 1]
  }

  /** The i-th sleep lasts 2^i seconds plus at most half of that. */
  predicate BackoffDelays(delays: seq<nat>) {
    forall i :: 0 <= i < |delays| ==> Pow2(i) <= delays[i] <= Pow2(i) + Pow2(i) / 2
  }

  /** The exact range of the total time slept after `|delays|` failed attempts. */
  lemma {:induction false} TotalBackoff(delays: seq<nat>)
    requires BackoffDelays(delays) && delays != []
    ensures Pow2(|delays|) - 1 <= Sum(delays) <= Pow2(|delays|) + Pow2(|delays| - 1) - 2
    decreases |delays|
  {
    var last := |delays| - 1;
    if last == 0 {
      assert Pow2(0) / 2 == 0 && delays[..0] == [];
      assert Sum(delays) == Sum([]) + delays[0];
    } else {
      TotalBackoff(delays[..last]);
      assert Pow2(last) / 2 == Pow2(last - 1);
    }
  }

  lemma {:induction false} Pow2Monotonic(m: nat, n: nat)
    requires m <= n
    ensures Pow2(m) <= Pow2(n)
    decreases n
  {
    if m < n {
      Pow2Monotonic(m, n - 1);
    }
  }

  /** With at most 64 sleeps no delay overflows the unsigned 64-bit arithmetic that computes it. */
  lemma DelaysFitInU64(delays: seq<nat>)
    requires BackoffDelays(delays) && |delays| <= 64
    ensures forall i :: 0 <= i < |delays| ==> delays[i] < Pow2(64)
  {
    forall i | 0 <= i < |delays| ensures delays[i] < Pow2(64) {
      Pow2Monotonic(0, i);
      Pow2Monotonic(i + 1, 64);
    }
  }

  /** The delay after the attempt of that number. */
  function Delay(attempt: nat, random: nat): (delay: nat)
    ensures Pow2(attempt) <= delay <= Pow2(attempt) + Pow2(attempt) / 2
  {
    var base := Pow2(attempt);
    base + random % (base / 2 + 1)
  }

  /** Every delay of that range can occur. */
  lemma DelayTakesEveryValue(attempt: nat, delay: nat)
    requires Pow2(attempt) <= delay <= Pow2(attempt) + Pow2(attempt) / 2
    ensures Delay(attempt, delay - Pow2(attempt)) == delay
  {
    SmallRemainder(delay - Pow2(attempt), Pow2(attempt) / 2 + 1);
  }

  lemma SmallRemainder(n: nat, modulus: nat)
    requires n < modulus
    ensures n % modulus == n
  {
  }

  // ---------------------------------------------------------------- retries

  /** The attempts a loop would make: verdict and events of attempt number k when it starts at a position of the log. */
  datatype Tries = Tries(verdict: (nat, nat) -> Attempt, events: (nat, nat) -> seq<Event>)

  function TriesOf(world: World, setups: nat -> Result<ExecutionRef, string>): Tries {
    Tries((at: nat, k: nat) => Verdict(world, at, setups(k)), (at: nat, k: nat) => AttemptRun(world, at, setups(k)))
  }

  /** No attempt asks for more than one ref, and none sleeps. */
  ghost predicate Modest(tries: Tries) {
    forall at: nat, k: nat :: RefsRequested(tries.events(at, k)) <= 1 && Sleeps(tries.events(at, k)) == []
  }

  lemma TriesAreModest(world: World, setups: nat -> Result<ExecutionRef, string>)
    ensures Modest(TriesOf(world, setups))
  {
    forall at: nat, k: nat
      ensures RefsRequested(TriesOf(world, setups).events(at, k)) <= 1 && Sleeps(TriesOf(world, setups).events(at, k)) == []
    {
      OneRefPerAttempt(world, at, setups(k));
    }
  }

  /** Random numbers, the classifier of errors and the bound. */
  datatype Policy = Policy(random: nat -> nat, retriable: HandlerError -> bool, maxRetries: nat)

  datatype Retries = Retries(attempts: seq<Attempt>, run: seq<Event>)

  predicate Stops(policy: Policy, k: nat, verdict: Attempt) {
    verdict.Ok? || !policy.retriable(verdict.error) || k + 1 >= policy.maxRetries
  }

  function Pause(policy: Policy, k: nat): Event {
    Slept(Delay(k, policy.random(k)))
  }

  /** From attempt k at position `at`: the verdicts still to come and what is still to be done. */
  function Retried(tries: Tries, at: nat, policy: Policy, k: nat): Retries
    decreases policy.maxRetries - k
  {
    var verdict, events := tries.verdict(at, k), tries.events(at, k);
    if Stops(policy, k, verdict) then Retries([verdict], events)
    else
      var done := events + [Pause(policy, k)];
      var rest := Retried(tries, at + |done|, policy, k + 1);
      Retries([verdict] + rest.attempts, done + rest.run)
  }

  /** Between 1 and the bound, again only after retriable errors, and given up early only after another. */
  predicate RetriedRight(attempts: seq<Attempt>, maxRetries: nat, retriable: HandlerError -> bool) {
    && 1 <= |attempts| <= maxRetries
    && (forall i :: 0 <= i < |attempts| - 1 ==> attempts[i].Err? && retriable(attempts[i].error))
    && (attempts[|attempts| - 1].Err? && |attempts| < maxRetries ==> !retriable(attempts[|attempts| - 1].error))
  }

  lemma {:induction false} RetriesAreRight(tries: Tries, at: nat, policy: Policy, k: nat)
    requires k < policy.maxRetries
    decreases policy.maxRetries - k
    ensures RetriedRight(Retried(tries, at, policy, k).attempts, policy.maxRetries - k, policy.retriable)
  {
    if !Stops(policy, k, tries.verdict(at, k)) {
      RetriesAreRight(tries, at + |tries.events(at, k) + [Pause(policy, k)]|, policy, k + 1);
    }
  }

  /** The delays of n pauses from attempt k on. */
  function Delays(policy: Policy, k: nat, n: nat): seq<nat>
    decreases n
  {
    if n == 0 then [] else [Delay(k, policy.random(k))] + Delays(policy, k + 1, n - 1)
  }

  lemma {:induction false} DelaysAt(policy: Policy, k: nat, n: nat, i: nat)
    requires i < n
    decreases n
    ensures |Delays(policy, k, n)| == n && Delays(policy, k, n)[i] == Delay(k + i, policy.random(k + i))
  {
    if i > 0 {
      DelaysAt(policy, k + 1, n - 1, i - 1);
    } else if n > 1 {
      DelaysAt(policy, k + 1, n - 1, 0);
    }
  }

  lemma RestOfTheRun(done: seq<Event>, pause: Event, rest: seq<Event>)
    requires RefsRequested(done) <= 1 && Sleeps(done) == [] && pause.Slept?
    ensures RefsRequested(done + [pause] + rest) <= 1 + RefsRequested(rest)
    ensures Sleeps(done + [pause] + rest) == [pause.seconds] + Sleeps(rest)
  {
    RefsRequestedOfConcat(done, [pause]);
    RefsRequestedOfConcat(done + [pause], rest);
    SleepsOfConcat(done, [pause]);
    SleepsOfConcat(done + [pause], rest);
    assert [pause][1..] == [];
  }

  /** One sleep fewer than attempts, each its attempt's delay, and at most one ref for each attempt. */
  lemma {:induction false} RetriesAreModest(tries: Tries, at: nat, policy: Policy, k: nat)
    requires k < policy.maxRetries && Modest(tries)
    decreases policy.maxRetries - k
    ensures var retries := Retried(tries, at, policy, k);
            && RefsRequested(retries.run) <= |retries.attempts| && |retries.attempts| >= 1
            && Sleeps(retries.run) == Delays(policy, k, |retries.attempts| - 1)
  {
    var events := tries.events(at, k);
    if !Stops(policy, k, tries.verdict(at, k)) {
      var next := at + |events + [Pause(policy, k)]|;
      RetriesAreModest(tries, next, policy, k + 1);
      RestOfTheRun(events, Pause(policy, k), Retried(tries, next, policy, k + 1).run);
    }
  }

  lemma SliceBehind(done: seq<Event>, rest: seq<Event>, q: nat, n: nat)
    requires q + n <= |rest|
    ensures (done + rest)[|done| + q..|done| + q + n] == rest[q..q + n]
  {
  }

  /** The i-th verdict is that of an attempt really made: its events stand in the run where the replies it saw were given. */
  lemma {:induction false} EveryAttemptIsMade(tries: Tries, at: nat, policy: Policy, k: nat, i: nat) returns (p: nat)
    requires i < |Retried(tries, at, policy, k).attempts|
    decreases policy.maxRetries - k
    ensures var retries := Retried(tries, at, policy, k);
            var events := tries.events(at + p, k + i);
            && retries.attempts[i] == tries.verdict(at + p, k + i)
            && p + |events| <= |retries.run| && retries.run[p..p + |events|] == events
  {
    p := 0;
    if i > 0 {
      var done := tries.events(at, k) + [Pause(policy, k)];
      var rest := Retried(tries, at + |done|, policy, k + 1).run;
      var q := EveryAttemptIsMade(tries, at + |done|, policy, k + 1, i - 1);
      p := |done| + q;
      assert at + p == at + |done| + q;
      SliceBehind(done, rest, q, |tries.events(at + p, k + i)|);
    }
  }

  /** The total slept in a whole run of n attempts. */
  predicate SleptRight(run: seq<Event>, n: nat) {
    && |Sleeps(run)| + 1 == n
    && (n >= 2 ==> Pow2(n - 1) - 1 <= Sum(Sleeps(run)) <= Pow2(n - 1) + Pow2(n - 2) - 2)
  }

  lemma TotalSlept(tries: Tries, at: nat, policy: Policy)
    requires policy.maxRetries >= 1 && Modest(tries)
    ensures SleptRight(Retried(tries, at, policy, 0).run, |Retried(tries, at, policy, 0).attempts|)
  {
    RetriesAreModest(tries, at, policy, 0);
    var n := |Retried(tries, at, policy, 0).attempts| - 1;
    var delays := Delays(policy, 0, n);
    forall i | 0 <= i < n
      ensures |delays| == n && Pow2(i) <= delays[i] <= Pow2(i) + Pow2(i) / 2
    {
      DelaysAt(policy, 0, n, i);
    }
    if n > 0 {
      DelaysAt(policy, 0, n, 0);
      TotalBackoff(delays);
    }
  }

  /** The log so far and what remains make up the whole log. */
  predicate Underway(tries: Tries, log: seq<Event>, policy: Policy, k: nat, whole: Retries, attempts: seq<Attempt>) {
    var rest := Retried(tries, |log|, policy, k);
    whole.attempts == attempts + rest.attempts && whole.run == log + rest.run
  }

  function Round(tries: Tries, at: nat, policy: Policy, k: nat): seq<Event> {
    tries.events(at, k) + if Stops(policy, k, tries.verdict(at, k)) then [] else [Pause(policy, k)]
  }

  lemma LastRound(tries: Tries, log: seq<Event>, policy: Policy, k: nat, whole: Retries, attempts: seq<Attempt>)
    requires Underway(tries, log, policy, k, whole, attempts) && Stops(policy, k, tries.verdict(|log|, k))
    ensures whole.attempts == attempts + [tries.verdict(|log|, k)] && whole.run == log + Round(tries, |log|, policy, k)
  {
  }

  lemma NextRound(tries: Tries, log: seq<Event>, policy: Policy, k: nat, whole: Retries, attempts: seq<Attempt>)
    requires Underway(tries, log, policy, k, whole, attempts) && !Stops(policy, k, tries.verdict(|log|, k))
    ensures Underway(tries, log + Round(tries, |log|, policy, k), policy, k + 1, whole, attempts + [tries.verdict(|log|, k)])
  {
    var done := Round(tries, |log|, policy, k);
    var rest := Retried(tries, |log| + |done|, policy, k + 1);
    assert log + (done + rest.run) == (log + done) + rest.run;
    assert attempts + ([tries.verdict(|log|, k)] + rest.attempts) == (attempts + [tries.verdict(|log|, k)]) + rest.attempts;
  }

  /** One round of the loop: an attempt and, before another one, a pause. */
  method PlayRound(world: World, setups: nat -> Result<ExecutionRef, string>, policy: Policy, k: nat, ghost tries: Tries)
    returns (result: Attempt)
    requires k < policy.maxRetries && tries == TriesOf(world, setups)
    modifies world
    ensures result == tries.verdict(|old(world.trace)|, k)
    ensures world.trace == old(world.trace) + Round(tries, |old(world.trace)|, policy, k)
  {
    result := ExecuteWorkflow(world, setups(k));
    if result.Err? && policy.retriable(result.error) && k < policy.maxRetries - 1 {
      world.Sleep(Delay(k, policy.random(k)));
    }
  }

  /** The log is that of the whole run, and the last verdict its result. */
  predicate Ended(whole: Retries, log: seq<Event>, result: Attempt) {
    log == whole.run && whole.attempts != [] && result == whole.attempts[|whole.attempts| - 1]
  }

  /** One round on its way through the whole run: it ends it, or leaves the rest to the next round. */
  method PlayRoundOf(world: World, setups: nat -> Result<ExecutionRef, string>, policy: Policy, k: nat,
                     ghost tries: Tries, ghost whole: Retries, ghost attempts: seq<Attempt>) returns (result: Attempt)
    requires k < policy.maxRetries && tries == TriesOf(world, setups)
    requires Underway(tries, world.trace, policy, k, whole, attempts)
    modifies world
    ensures Stops(policy, k, result) ==> Ended(whole, world.trace, result)
    ensures !Stops(policy, k, result) ==> Underway(tries, world.trace, policy, k + 1, whole, attempts + [result])
  {
    ghost var log := world.trace;
    result := PlayRound(world, setups, policy, k, tries);
    if Stops(policy, k, result) {
      LastRound(tries, log, policy, k, whole, attempts);
    } else {
      NextRound(tries, log, policy, k, whole, attempts);
    }
  }

  /** The loop: it makes exactly the attempts and pauses of `Retried`, and returns the last verdict. */
  method RetryLoop(world: World, setups: nat -> Result<ExecutionRef, string>, policy: Policy, ghost tries: Tries) returns (result: Attempt)
    requires policy.maxRetries >= 1 && tries == TriesOf(world, setups)
    modifies world
    ensures var retries := Retried(tries, |old(world.trace)|, policy, 0);
            && world.trace == old(world.trace) + retries.run
            && |retries.attempts| >= 1 && result == retries.attempts[|retries.attempts| - 1]
  {
    ghost var all := Retried(tries, |world.trace|, policy, 0);
    ghost var whole := Retries(all.attempts, world.trace + all.run);
    ghost var attempts: seq<Attempt> := [];
    assert Underway(tries, world.trace, policy, 0, whole, attempts);
    result := Err(SetupFailed(""));
    for k := 0 to policy.maxRetries
      invariant k < policy.maxRetries ==> Underway(tries, world.trace, policy, k, whole, attempts)
      invariant k == policy.maxRetries ==> Ended(whole, world.trace, result)
    {
      result := PlayRoundOf(world, setups, policy, k, tries, whole, attempts);
      if result.Ok? || !policy.retriable(result.error) {
        return;
      }
      attempts := attempts + [result];
    }
  }

  /** What a whole run keeps to: the attempts, the refs asked for and the time slept. */
  predicate KeepsTo(policy: Policy, retries: Retries) {
    && RetriedRight(retries.attempts, policy.maxRetries, policy.retriable)
    && RefsRequested(retries.run) <= |retries.attempts|
    && SleptRight(retries.run, |retries.attempts|)
  }

  lemma WholeRunKeepsTo(world: World, setups: nat -> Result<ExecutionRef, string>, at: nat, policy: Policy)
    requires policy.maxRetries >= 1
    ensures KeepsTo(policy, Retried(TriesOf(world, setups), at, policy, 0))
  {
    var tries := TriesOf(world, setups);
    TriesAreModest(world, setups);
    RetriesAreRight(tries, at, policy, 0);
    RetriesAreModest(tries, at, policy, 0);
    TotalSlept(tries, at, policy);
  }

  /** The attempt that starts at position p is the last of the log, and its job decides the result. */
  predicate LastAttemptAt(world: World, setup: Result<ExecutionRef, string>, log: seq<Event>, p: nat, result: Attempt) {
    && ReportsTheJob(result, setup, world.enqueueReply(p + 1))
    && (if setup.Err? then p == |log| else p + 1 < |log| && log[p + 1] == JobEnqueued)
    && (forall i :: p + 1 < i < |log| ==> !log[i].JobEnqueued?)
  }

  ghost predicate LastJobDecides(world: World, setup: Result<ExecutionRef, string>, log: seq<Event>, result: Attempt) {
    exists p: nat :: LastAttemptAt(world, setup, log, p, result)
  }

  lemma EventsOfAnAttempt(world: World, at: nat, setup: Result<ExecutionRef, string>)
    ensures var events := AttemptRun(world, at, setup);
            && (if setup.Err? then events == [] else |events| >= 2 && events[1] == JobEnqueued)
            && (forall i :: 1 < i < |events| ==> !events[i].JobEnqueued?)
  {
  }

  /** The run from attempt k at position `at` ends with attempt number `last`, which starts at position p. */
  predicate EndsWithAttempt(tries: Tries, at: nat, k: nat, retries: Retries, p: nat, last: nat) {
    && retries.attempts != [] && k + |retries.attempts| == last + 1 && retries.attempts[|retries.attempts| - 1] == tries.verdict(p, last)
    && at <= p <= at + |retries.run| && retries.run[p - at..] == tries.events(p, last)
  }

  lemma {:induction false} LastAttemptEndsTheRun(tries: Tries, at: nat, policy: Policy, k: nat) returns (p: nat, last: nat)
    ensures EndsWithAttempt(tries, at, k, Retried(tries, at, policy, k), p, last)
    decreases policy.maxRetries - k
  {
    p, last := at, k;
    if !Stops(policy, k, tries.verdict(at, k)) {
      var done := tries.events(at, k) + [Pause(policy, k)];
      p, last := LastAttemptEndsTheRun(tries, at + |done|, policy, k + 1);
      EndsBehind(tries, at, k, [tries.verdict(at, k)], done, Retried(tries, at + |done|, policy, k + 1), p, last);
    }
  }

  lemma EndsBehind(tries: Tries, at: nat, k: nat, first: seq<Attempt>, done: seq<Event>, rest: Retries, p: nat, last: nat)
    requires |first| == 1 && EndsWithAttempt(tries, at + |done|, k + 1, rest, p, last)
    ensures EndsWithAttempt(tries, at, k, Retries(first + rest.attempts, done + rest.run), p, last)
  {
    assert (done + rest.run)[p - at..] == rest.run[p - at - |done|..];
  }

  lemma LastVerdictDecides(world: World, setups: nat -> Result<ExecutionRef, string>, log: seq<Event>, policy: Policy)
    ensures var retries := Retried(TriesOf(world, setups), |log|, policy, 0);
            var n := |retries.attempts|;
            n >= 1 && LastJobDecides(world, setups(n - 1), log + retries.run, retries.attempts[n - 1])
  {
    var tries := TriesOf(world, setups);
    var p, last := LastAttemptEndsTheRun(tries, |log|, policy, 0);
    LastOfLog(world, setups, log, Retried(tries, |log|, policy, 0), p, last);
  }

  lemma LastOfLog(world: World, setups: nat -> Result<ExecutionRef, string>, log: seq<Event>, retries: Retries, p: nat, last: nat)
    requires EndsWithAttempt(TriesOf(world, setups), |log|, 0, retries, p, last)
    ensures LastJobDecides(world, setups(last), log + retries.run, retries.attempts[last])
  {
    assert (log + retries.run)[p..] == retries.run[p - |log|..];
    LastAttemptStands(world, setups(last), log + retries.run, p);
  }

  lemma LastAttemptStands(world: World, setup: Result<ExecutionRef, string>, log: seq<Event>, p: nat)
    requires p <= |log| && log[p..] == AttemptRun(world, p, setup)
    ensures LastJobDecides(world, setup, log, Verdict(world, p, setup))
  {
    VerdictReportsTheJob(world, p, setup);
    EventsOfAnAttempt(world, p, setup);
    forall i | p <= i < |log|
      ensures log[i] == AttemptRun(world, p, setup)[i - p]
    {
      assert log[i] == log[p..][i - p];
    }
    assert LastAttemptAt(world, setup, log, p, Verdict(world, p, setup));
  }

  /**
   * `execute_workflow_with_retry`, for any bound and any classifier of errors: the log grows by
   * exactly the attempts and pauses of `Retried`, and the last verdict is returned, which is
   * success exactly if the job enqueued last succeeded.
   */
  method ExecuteWorkflowWithRetry(world: World, setups: nat -> Result<ExecutionRef, string>, policy: Policy) returns (result: Attempt)
    requires policy.maxRetries >= 1
    modifies world
    ensures var retries := Retried(TriesOf(world, setups), |old(world.trace)|, policy, 0);
            && KeepsTo(policy, retries) && world.trace == old(world.trace) + retries.run
            && result == retries.attempts[|retries.attempts| - 1]
            && LastJobDecides(world, setups(|retries.attempts| - 1), world.trace, result)
  {
    WholeRunKeepsTo(world, setups, |world.trace|, policy);
    LastVerdictDecides(world, setups, world.trace, policy);
    result := RetryLoop(world, setups, policy, TriesOf(world, setups));
  }

  /** With the bound the handler uses: at most three attempts, three if all fail retriably, and at most four seconds slept. */
  lemma DefaultBound(tries: Tries, at: nat, policy: Policy)
    requires policy.maxRetries == MAX_RETRIES && Modest(tries)
    ensures var retries := Retried(tries, at, policy, 0);
            && 1 <= |retries.attempts| <= 3 && Sum(Sleeps(retries.run)) <= 4
            && ((forall verdict :: verdict in retries.attempts ==> verdict.Err? && policy.retriable(verdict.error)) ==> |retries.attempts| == 3)
  {
    RetriesAreRight(tries, at, policy, 0);
    TotalSlept(tries, at, policy);
    assert Pow2(1) == 2 && Pow2(2) == 4;
  }
}

/**
 * The v3 pipeline's node executor (functions/api/pipeline-v3/NodeExecutor.ts):
 * one node run with retries and back-off, a batch of runs in chunks, and a
 * chain of runs feeding each output to the next node. What one attempt of
 * `node.execute` raced against the timeout does is a parameter; so are the
 * elapsed times.
 */
module NodeExecution {
  import opened Common
  import opened ErrorHandler
  import opened Node

  datatype Backoff = Linear | Exponential

  datatype RetryConfig = RetryConfig(maxRetries: int, backoff: Backoff, initialDelay: Option<int>)

  /** The options as the caller gives them; hooks are not modelled. */
  datatype ExecutionOptions = ExecutionOptions(timeout: Option<int>, retry: Option<RetryConfig>, catchErrors: Option<bool>)

  /** The options with every default filled in. */
  datatype Settings = Settings(timeout: int, retry: RetryConfig, catchErrors: bool)

  /** `opts` in `execute`: each missing option takes its default. */
  function WithDefaults(options: Option<ExecutionOptions>): (s: Settings)
    ensures options.None? ==> s == Settings(30000, RetryConfig(0, Exponential, Some(1000)), false)
    ensures options.Some? && options.value.timeout.Some? ==> s.timeout == options.value.timeout.value
    ensures options.Some? && options.value.retry.Some? ==> s.retry == options.value.retry.value
    ensures options.Some? && options.value.catchErrors.Some? ==> s.catchErrors == options.value.catchErrors.value
  {
    var o := if options.Some? then options.value else ExecutionOptions(None, None, None);
    Settings(
      if o.timeout.Some? then o.timeout.value else 30000,
      if o.retry.Some? then o.retry.value else RetryConfig(0, Exponential, Some(1000)),
      if o.catchErrors.Some? then o.catchErrors.value else false)
  }

  /** `opts.retry.initialDelay || 1000`: an absent or zero delay becomes 1000. */
  function InitialDelay(retry: RetryConfig): int
  {
    if retry.initialDelay.None? || retry.initialDelay.value == 0 then 1000 else retry.initialDelay.value
  }

  /** `Math.pow(2, n)` for the exponential back-off of CalculateDelay. */
  function Pow2(n: nat): (r: nat)
    ensures r >= 1
  {
    if n == 0 then 1 else 2 * Pow2(n - 1)
  }

  /** `calculateDelay(attempt, backoff, initialDelay)`, for the retry number `attempt` counted from 1. */
  function CalculateDelay(attempt: nat, backoff: Backoff, initialDelay: int): int
    requires attempt >= 1
  {
    if backoff == Exponential then initialDelay * Pow2(attempt - 1) else initialDelay * attempt
  }

  /** Each exponential delay doubles the previous one; each linear delay adds the initial one. */
  lemma DelaySteps(attempt: nat, initialDelay: int)
    requires attempt >= 1
    ensures CalculateDelay(attempt + 1, Exponential, initialDelay) == 2 * CalculateDelay(attempt, Exponential, initialDelay)
    ensures CalculateDelay(attempt + 1, Linear, initialDelay) == CalculateDelay(attempt, Linear, initialDelay) + initialDelay
    ensures CalculateDelay(1, Exponential, initialDelay) == CalculateDelay(1, Linear, initialDelay) == initialDelay
  {
  }

  /** For a non-negative initial delay, exponential back-off never waits less than linear. */
  lemma {:induction false} ExponentialAtLeastLinear(attempt: nat, initialDelay: int)
    requires attempt >= 1 && initialDelay >= 0
    ensures CalculateDelay(attempt, Exponential, initialDelay) >= CalculateDelay(attempt, Linear, initialDelay)
  {
    PowAtLeast(attempt - 1);
    assert initialDelay * Pow2(attempt - 1) >= initialDelay * attempt by {
      MulMonotone(initialDelay, attempt, Pow2(attempt - 1));
    }
  }

  /** Helper for ExponentialAtLeastLinear: 2^n is at least n + 1. */
  lemma {:induction false} PowAtLeast(n: nat)
    ensures Pow2(n) >= n + 1
  {
    if n > 0 {
      PowAtLeast(n - 1);
    }
  }

  /** Helper for ExponentialAtLeastLinear: scaling by a non-negative delay keeps the order. */
  lemma MulMonotone(c: int, a: int, b: int)
    requires c >= 0 && a <= b
    ensures c * a <= c * b
  {
  }

  /** One attempt: the node returned a result, or it threw (`timedOut` for the timeout's error). */
  datatype Attempt = Returned(result: NodeResult) | Threw(error: Thrown, timedOut: bool)

  /** `ExtendedExecutionResult`: the node's result with the retry count and the timing. */
  datatype ExtendedResult = ExtendedResult(result: NodeResult, retries: nat, timedOut: bool, totalExecutionTime: int)

  /**
   * The attempts from number `i` on: the first that returns gives its
   * result; after the last allowed attempt throws, an error result when
   * errors are caught, else the error itself.
   */
  function Settle(nodeId: string, s: Settings, run: nat -> Attempt, elapsed: int, i: nat): (r: Result<ExtendedResult, Thrown>)
    requires i <= s.retry.maxRetries
    decreases s.retry.maxRetries - i
  {
    match run(i)
    case Returned(res) => Ok(ExtendedResult(res, i, false, elapsed))
    case Threw(e, timedOut) =>
      if i < s.retry.maxRetries then Settle(nodeId, s, run, elapsed, i + 1)
      else if s.catchErrors then Ok(ExtendedResult(CreateErrorResult(nodeId, e, elapsed), i, timedOut, elapsed))
      else Err(e)
  }

  /** What `execute(node, input, context, options)` returns or throws, `run(i)` being attempt `i`. */
  function Outcome(nodeId: string, options: Option<ExecutionOptions>, run: nat -> Attempt, elapsed: int): Result<ExtendedResult, Thrown>
  {
    var s := WithDefaults(options);
    if s.retry.maxRetries < 0 then Err(Error("Unexpected execution flow"))
    else Settle(nodeId, s, run, elapsed, 0)
  }

  /** The first attempt that returns decides: its result, with the earlier failed attempts as the retry count. */
  lemma {:induction false} FirstReturnWins(nodeId: string, s: Settings, run: nat -> Attempt, elapsed: int, i: nat, k: nat)
    requires i <= k <= s.retry.maxRetries
    requires run(k).Returned? && forall j :: i <= j < k ==> run(j).Threw?
    ensures Settle(nodeId, s, run, elapsed, i) == Ok(ExtendedResult(run(k).result, k, false, elapsed))
    decreases k - i
  {
    if i < k {
      FirstReturnWins(nodeId, s, run, elapsed, i + 1, k);
    }
  }

  /** When every allowed attempt throws, the last error is returned as an error result or rethrown. */
  lemma {:induction false} AllThrow(nodeId: string, s: Settings, run: nat -> Attempt, elapsed: int, i: nat)
    requires i <= s.retry.maxRetries
    requires forall j :: i <= j <= s.retry.maxRetries ==> run(j).Threw?
    ensures var last := run(s.retry.maxRetries);
      Settle(nodeId, s, run, elapsed, i) ==
        if s.catchErrors then Ok(ExtendedResult(CreateErrorResult(nodeId, last.error, elapsed), s.retry.maxRetries, last.timedOut, elapsed))
        else Err(last.error)
    decreases s.retry.maxRetries - i
  {
    if i < s.retry.maxRetries {
      AllThrow(nodeId, s, run, elapsed, i + 1);
    }
  }

  /** At most `maxRetries + 1` attempts are made: attempts after that cannot change the outcome. */
  lemma {:induction false} AttemptsBounded(nodeId: string, s: Settings, run1: nat -> Attempt, run2: nat -> Attempt, elapsed: int, i: nat)
    requires i <= s.retry.maxRetries
    requires forall j :: i <= j <= s.retry.maxRetries ==> run1(j) == run2(j)
    ensures Settle(nodeId, s, run1, elapsed, i) == Settle(nodeId, s, run2, elapsed, i)
    decreases s.retry.maxRetries - i
  {
    if i < s.retry.maxRetries {
      AttemptsBounded(nodeId, s, run1, run2, elapsed, i + 1);
    }
  }

  /** A caught failure is an error result: unsuccessful, on the `error` output, with the thrown message. */
  lemma {:induction false} CaughtIsErrorResult(nodeId: string, s: Settings, run: nat -> Attempt, elapsed: int, i: nat)
    requires i <= s.retry.maxRetries
    ensures var r := Settle(nodeId, s, run, elapsed, i);
      r.Ok? && !r.value.result.success && run(r.value.retries).Threw? ==>
        && r.value.retries == s.retry.maxRetries && s.catchErrors
        && r.value.result == CreateErrorResult(nodeId, run(r.value.retries).error, elapsed)
    ensures Settle(nodeId, s, run, elapsed, i).Err? ==> !s.catchErrors
    decreases s.retry.maxRetries - i
  {
    if i < s.retry.maxRetries && run(i).Threw? {
      CaughtIsErrorResult(nodeId, s, run, elapsed, i + 1);
    }
  }

  /**
   * `execute(node, input, context, options)`: the retry loop. It returns
   * or throws what `Outcome` says, and `delays` lists the back-off waits,
   * one per retry, from `calculateDelay`.
   */
  method Execute(nodeId: string, options: Option<ExecutionOptions>, run: nat -> Attempt, elapsed: int)
    returns (r: Result<ExtendedResult, Thrown>, delays: seq<int>)
    ensures r == Outcome(nodeId, options, run, elapsed)
    ensures var s := WithDefaults(options);
      && (forall j :: 0 <= j < |delays| ==> delays[j] == CalculateDelay(j + 1, s.retry.backoff, InitialDelay(s.retry)))
      && (r.Ok? ==> |delays| == r.value.retries)
      && |delays| <= Max(s.retry.maxRetries, 0)
  {
    var s := WithDefaults(options);
    var retries: nat := 0;
    delays := [];
    while retries <= s.retry.maxRetries
      invariant retries <= Max(s.retry.maxRetries, 0) && |delays| == retries
      invariant s.retry.maxRetries >= 0 ==> Outcome(nodeId, options, run, elapsed) == Settle(nodeId, s, run, elapsed, retries)
      invariant forall j :: 0 <= j < |delays| ==> delays[j] == CalculateDelay(j + 1, s.retry.backoff, InitialDelay(s.retry))
      decreases s.retry.maxRetries - retries
    {
      match run(retries) {
        case Returned(res) =>
          return Ok(ExtendedResult(res, retries, false, elapsed)), delays;
        case Threw(e, timedOut) =>
          if retries < s.retry.maxRetries {
            retries := retries + 1;
            delays := delays + [CalculateDelay(retries, s.retry.backoff, InitialDelay(s.retry))];
          } else if s.catchErrors {
            return Ok(ExtendedResult(CreateErrorResult(nodeId, e, elapsed), retries, timedOut, elapsed)), delays;
          } else {
            return Err(e), delays;
          }
      }
    }
    r := Err(Error("Unexpected execution flow"));
  }

  /** One entry of `executeBatch` or of `executeChain`: a node, its attempts for each input, and its elapsed time. */
  datatype Job = Job(nodeId: string, run: (Payload, nat) -> Attempt, elapsed: int)

  /** The job's attempts on input `input`. */
  function AttemptsOn(job: Job, input: Payload): nat -> Attempt
  {
    (a: nat) => job.run(input, a)
  }

  /** The chunk size of `executeBatch`: everything at once unless a smaller positive limit is given. */
  function ChunkSize(maxParallel: Option<int>, n: nat): (c: nat)
    ensures 0 < n ==> 0 < c
    ensures c <= n || n == 0
  {
    if maxParallel.None? || maxParallel.value <= 0 || maxParallel.value >= n then n else maxParallel.value
  }

  /** `queue.splice(0, count)` as the source writes it: a non-positive count removes nothing. */
  function SpliceAsWritten(queue: seq<Job>, count: int): (r: (seq<Job>, seq<Job>))
    ensures r.0 + r.1 == queue
  {
    var n := if count <= 0 then 0 else if count > |queue| then |queue| else count;
    (queue[..n], queue[n..])
  }

  /** With a negative `maxParallel` and a non-empty batch, the queue never shrinks, so the loop never ends. */
  lemma NegativeLimitStalls(queue: seq<Job>, maxParallel: int)
    requires maxParallel < 0 && |queue| > 0
    ensures SpliceAsWritten(queue, maxParallel).1 == queue
  {
  }

  /** `Promise.all` over a chunk of the batch: the outcome of each job on its own input, in order. */
  method RunChunk(chunk: seq<Job>, inputs: seq<Payload>, options: seq<Option<ExecutionOptions>>)
    returns (r: Result<seq<ExtendedResult>, Thrown>)
    requires |inputs| == |chunk| == |options|
    ensures r.Ok? ==> |r.value| == |chunk|
    ensures r.Ok? ==> forall i :: 0 <= i < |chunk| ==>
      Outcome(chunk[i].nodeId, options[i], AttemptsOn(chunk[i], inputs[i]), chunk[i].elapsed) == Ok(r.value[i])
    ensures r.Err? ==> exists i :: 0 <= i < |chunk| && Outcome(chunk[i].nodeId, options[i], AttemptsOn(chunk[i], inputs[i]), chunk[i].elapsed) == Err(r.error)
  {
    var results: seq<ExtendedResult> := [];
    for i := 0 to |chunk|
      invariant |results| == i
      invariant forall j :: 0 <= j < i ==> Outcome(chunk[j].nodeId, options[j], AttemptsOn(chunk[j], inputs[j]), chunk[j].elapsed) == Ok(results[j])
    {
      var one, _ := Execute(chunk[i].nodeId, options[i], AttemptsOn(chunk[i], inputs[i]), chunk[i].elapsed);
      if one.Err? {
        return Err(one.error);
      }
      results := results + [one.value];
    }
    r := Ok(results);
  }

  /**
   * `executeBatch(executions, maxParallel)`: chunks of `maxParallel` run
   * one after another; the results come back one per execution, in input
   * order, or the batch throws an error that one of the executions threw.
   */
  method ExecuteBatch(jobs: seq<Job>, inputs: seq<Payload>, options: seq<Option<ExecutionOptions>>, maxParallel: Option<int>)
    returns (r: Result<seq<ExtendedResult>, Thrown>)
    requires |inputs| == |jobs| == |options|
    ensures r.Ok? ==> |r.value| == |jobs|
    ensures r.Ok? ==> forall i :: 0 <= i < |jobs| ==>
      Outcome(jobs[i].nodeId, options[i], AttemptsOn(jobs[i], inputs[i]), jobs[i].elapsed) == Ok(r.value[i])
    ensures r.Err? ==> exists i :: 0 <= i < |jobs| && Outcome(jobs[i].nodeId, options[i], AttemptsOn(jobs[i], inputs[i]), jobs[i].elapsed) == Err(r.error)
  {
    var size := ChunkSize(maxParallel, |jobs|);
    var results: seq<ExtendedResult> := [];
    var done := 0;
    while done < |jobs|
      invariant done <= |jobs| && |results| == done
      invariant forall j :: 0 <= j < done ==> Outcome(jobs[j].nodeId, options[j], AttemptsOn(jobs[j], inputs[j]), jobs[j].elapsed) == Ok(results[j])
      decreases |jobs| - done
    {
      var n := if size < |jobs| - done then size else |jobs| - done;
      var chunk := RunChunk(jobs[done..done + n], inputs[done..done + n], options[done..done + n]);
      if chunk.Err? {
        ghost var i :| 0 <= i < n && Outcome(jobs[done..done + n][i].nodeId, options[done..done + n][i],
          AttemptsOn(jobs[done..done + n][i], inputs[done..done + n][i]), jobs[done..done + n][i].elapsed) == Err(chunk.error);
        assert jobs[done + i] == jobs[done..done + n][i];
        return Err(chunk.error);
      }
      forall j | done <= j < done + n
        ensures Outcome(jobs[j].nodeId, options[j], AttemptsOn(jobs[j], inputs[j]), jobs[j].elapsed) == Ok((results + chunk.value)[j])
      {
        assert jobs[j] == jobs[done..done + n][j - done];
        assert inputs[j] == inputs[done..done + n][j - done];
        assert options[j] == options[done..done + n][j - done];
      }
      results := results + chunk.value;
      done := done + n;
    }
    r := Ok(results);
  }

  /**
   * `executeChain(nodes, initialInput, context, options)` from the node
   * list `nodes` on, with `last` the latest result: each node runs on the
   * previous output, an unsuccessful result stops the chain, and an empty
   * list with no result throws.
   */
  function Chain(nodes: seq<Job>, input: Payload, options: Option<ExecutionOptions>, last: Option<ExtendedResult>): Result<ExtendedResult, Thrown>
  {
    if nodes == [] then
      if last.None? then Err(Error("No nodes to execute")) else Ok(last.value)
    else
      match Outcome(nodes[0].nodeId, options, AttemptsOn(nodes[0], input), nodes[0].elapsed)
      case Err(e) => Err(e)
      case Ok(x) =>
        if !x.result.success then Ok(x)
        else Chain(nodes[1..], x.result.output, options, Some(x))
  }

  /**
   * Chains compose: when the first part of a list ends in success, the
   * whole list runs as the rest started on that part's final output.
   */
  lemma {:induction false} ChainAppend(a: seq<Job>, b: seq<Job>, input: Payload, options: Option<ExecutionOptions>, last: Option<ExtendedResult>)
    requires Chain(a, input, options, last).Ok? && Chain(a, input, options, last).value.result.success
    requires a != []
    ensures var x := Chain(a, input, options, last).value;
      Chain(a + b, input, options, last) == Chain(b, x.result.output, options, Some(x))
  {
    assert (a + b)[1..] == a[1..] + b;
    var x := Outcome(a[0].nodeId, options, AttemptsOn(a[0], input), a[0].elapsed).value;
    if a[1..] != [] {
      ChainAppend(a[1..], b, x.result.output, options, Some(x));
    }
  }

  /**
   * `executeChain(nodes, initialInput, context, options)`: the loop with
   * `break`, returning or throwing what `Chain` says.
   */
  method ExecuteChain(nodes: seq<Job>, initialInput: Payload, options: Option<ExecutionOptions>)
    returns (r: Result<ExtendedResult, Thrown>)
    ensures r == Chain(nodes, initialInput, options, None)
    ensures nodes == [] ==> r == Err(Error("No nodes to execute"))
  {
    var currentInput := initialInput;
    var lastResult: Option<ExtendedResult> := None;
    var i := 0;
    while i < |nodes|
      invariant i <= |nodes|
      invariant Chain(nodes, initialInput, options, None) == Chain(nodes[i..], currentInput, options, lastResult)
      decreases |nodes| - i
    {
      var one, _ := Execute(nodes[i].nodeId, options, AttemptsOn(nodes[i], currentInput), nodes[i].elapsed);
      assert nodes[i..][1..] == nodes[i + 1..];
      if one.Err? {
        return Err(one.error);
      }
      lastResult := Some(one.value);
      if !one.value.result.success {
        return one;
      }
      currentInput := one.value.result.output;
      i := i + 1;
    }
    if lastResult.None? {
      return Err(Error("No nodes to execute"));
    }
    r := Ok(lastResult.value);
  }
}

/**
 * The MCP test connection: a bounded retry loop with exponential backoff and
 * an extra delay on resource contention, and `test_mcp_configuration`, which
 * splits the tool command, overlays the tool's environment and reports what the
 * server offers as a fixed four-part result.
 *
 * Time is integer milliseconds. What each connection attempt does, and what the
 * connected session yields, are inputs: the MCP client library is not modelled.
 */
module McpTool {
  import opened Text
  import opened Wrappers

  /** `MAX_RETRIES`: the number of connection attempts. */
  const MaxRetries: nat := 3

  /** `BASE_DELAY` (0.5 s) in milliseconds. */
  const BaseDelayMs: nat := 500

  /** The texts that mark a failure as resource contention. */
  const ContentionText: string := "Resource temporarily unavailable"
  const BlockingText: string := "BlockingIOError"

  /** 2 to the power n. */
  function Pow2(n: nat): (p: nat)
    ensures p >= 1
  {
    if n == 0 then 1 else 2 * Pow2(n - 1)
  }

  /** The sleep before attempt k (k >= 1): `BASE_DELAY * 2 ** (k - 1)`. */
  function Backoff(k: nat): (ms: nat)
    requires k >= 1
    ensures ms >= BaseDelayMs
  {
    BaseDelayMs * Pow2(k - 1)
  }

  /** The additional sleep after a contention failure of attempt k: `1.0 * (k + 1)` seconds. */
  function ExtraDelay(k: nat): (ms: nat)
    ensures ms >= 1000
  {
    1000 * (k + 1)
  }

  /**
   * The schedule the two delays follow: the backoff starts at the base delay
   * and doubles with each retry; the contention delay starts at one second and
   * grows by one second with each attempt.
   */
  lemma DelaySchedule(k: nat)
    requires k >= 1
    ensures Backoff(1) == BaseDelayMs && Backoff(k + 1) == 2 * Backoff(k)
    ensures ExtraDelay(0) == 1000 && ExtraDelay(k) == ExtraDelay(k - 1) + 1000
  {
  }

  /** A failure message that signals contention for an OS resource. */
  predicate IsContention(msg: string) {
    Contains(msg, ContentionText) || Contains(msg, BlockingText)
  }

  /** What one connection attempt does: it returns the client, or raises with a message. */
  datatype Attempt = Connects | Fails(message: string)

  /** How `_create_test_connection_with_retry` ends. */
  datatype RetryResult =
    | Connection(attempt: nat)   // returned the client made by this attempt
    | Raised(message: string)    // re-raised the final failure
    | NoneReturned               // the loop ran zero times and the function fell off its end

  /** What happened, in order: each sleep and each attempt. */
  datatype Event = Wait(ms: nat) | Try(attempt: nat)

  datatype Retry = Retry(result: RetryResult, trace: seq<Event>)

  /** The sleep logged before attempt k: none before the first attempt. */
  function WaitBefore(k: nat): seq<Event> {
    if k > 0 then [Wait(Backoff(k))] else []
  }

  /** The extra sleep after a non-final failure of attempt k, if it was contention. */
  function ExtraWait(msg: string, k: nat): seq<Event> {
    if IsContention(msg) then [Wait(ExtraDelay(k))] else []
  }

  /** The retry loop from attempt k on: the specification of `ConnectWithRetry`. */
  function RetryFrom(outcomes: seq<Attempt>, maxRetries: nat, k: nat): (r: Retry)
    requires k <= maxRetries <= |outcomes|
    decreases maxRetries - k
  {
    if k == maxRetries then Retry(NoneReturned, [])
    else
      var head := WaitBefore(k) + [Try(k)];
      match outcomes[k]
      case Connects => Retry(Connection(k), head)
      case Fails(msg) =>
        if k == maxRetries - 1 then Retry(Raised(msg), head)
        else
          var rest := RetryFrom(outcomes, maxRetries, k + 1);
          Retry(rest.result, head + ExtraWait(msg, k) + rest.trace)
  }

  /** The trace of the loop so far, followed by the rest of the run, is the whole run. */
  ghost predicate RetryPrefix(outcomes: seq<Attempt>, maxRetries: nat, k: nat, trace: seq<Event>)
    requires k <= maxRetries <= |outcomes|
  {
    RetryFrom(outcomes, maxRetries, 0) ==
    Retry(RetryFrom(outcomes, maxRetries, k).result, trace + RetryFrom(outcomes, maxRetries, k).trace)
  }

  /** A non-final failure of attempt k extends the prefix by its waits and its try. */
  lemma RetryPrefixStep(outcomes: seq<Attempt>, maxRetries: nat, k: nat, trace: seq<Event>)
    requires k + 1 < maxRetries <= |outcomes| && outcomes[k].Fails?
    requires RetryPrefix(outcomes, maxRetries, k, trace)
    ensures RetryPrefix(outcomes, maxRetries, k + 1,
                        trace + (WaitBefore(k) + [Try(k)] + ExtraWait(outcomes[k].message, k)))
  {
    var step := WaitBefore(k) + [Try(k)] + ExtraWait(outcomes[k].message, k);
    var rest := RetryFrom(outcomes, maxRetries, k + 1);
    RunFrom(outcomes, maxRetries, k);
    assert RetryFrom(outcomes, maxRetries, k) == Retry(rest.result, step + rest.trace);
    assert trace + (step + rest.trace) == trace + step + rest.trace;
  }

  /** `_create_test_connection_with_retry`: the outcome of attempt k is `outcomes[k]`. */
  method ConnectWithRetry(outcomes: seq<Attempt>, maxRetries: nat) returns (r: Retry)
    requires maxRetries <= |outcomes|
    ensures r == RetryFrom(outcomes, maxRetries, 0)
  {
    var trace: seq<Event> := [];
    for attempt := 0 to maxRetries
      invariant RetryPrefix(outcomes, maxRetries, attempt, trace)
    {
      ghost var before := trace;
      if attempt > 0 {
        trace := trace + [Wait(Backoff(attempt))];
      }
      trace := trace + [Try(attempt)];
      assert trace == before + (WaitBefore(attempt) + [Try(attempt)]);
      if outcomes[attempt].Connects? {
        return Retry(Connection(attempt), trace);
      }
      var msg := outcomes[attempt].message;
      if attempt == maxRetries - 1 {
        return Retry(Raised(msg), trace);
      }
      if IsContention(msg) {
        trace := trace + [Wait(ExtraDelay(attempt))];
      }
      assert trace == before + (WaitBefore(attempt) + [Try(attempt)] + ExtraWait(msg, attempt));
      RetryPrefixStep(outcomes, maxRetries, attempt, before);
    }
    return Retry(NoneReturned, trace);
  }

  /** Attempts lo, lo + 1, ..., hi - 1. */
  function Range(lo: nat, hi: nat): (r: seq<nat>)
    ensures |r| == if lo < hi then hi - lo else 0
    ensures forall i :: 0 <= i < |r| ==> r[i] == lo + i
    decreases hi - lo
  {
    if lo >= hi then [] else [lo] + Range(lo + 1, hi)
  }

  /** The attempt numbers in a trace, in order. */
  function Tries(trace: seq<Event>): seq<nat> {
    if trace == [] then []
    else (if trace[0].Try? then [trace[0].attempt] else []) + Tries(trace[1..])
  }

  lemma {:induction false} TriesAppend(a: seq<Event>, b: seq<Event>)
    ensures Tries(a + b) == Tries(a) + Tries(b)
    decreases |a|
  {
    if a != [] {
      assert (a + b)[1..] == a[1..] + b;
      TriesAppend(a[1..], b);
    } else {
      assert a + b == b;
    }
  }

  /** How many attempts a run that ended this way made, given the bound. */
  function AttemptsMade(result: RetryResult, maxRetries: nat): nat {
    match result
    case Connection(a) => a + 1
    case Raised(_) => maxRetries
    case NoneReturned => 0
  }

  /**
   * How the retry loop ends: with the first attempt that connects, else by
   * re-raising the last attempt's failure; it returns `None` only when it is
   * allowed no attempt at all. Attempts k, k + 1, ... are made in order, one
   * each, up to the one that ends the loop, so never more than `maxRetries`.
   */
  lemma RetryOutcome(outcomes: seq<Attempt>, maxRetries: nat, k: nat)
    requires k <= maxRetries <= |outcomes|
    ensures var r := RetryFrom(outcomes, maxRetries, k);
      && (r.result.Connection? ==>
            && k <= r.result.attempt < maxRetries
            && outcomes[r.result.attempt].Connects?
            && forall j :: k <= j < r.result.attempt ==> outcomes[j].Fails?)
      && (r.result.Raised? ==>
            && k < maxRetries
            && (forall j :: k <= j < maxRetries ==> outcomes[j].Fails?)
            && r.result.message == outcomes[maxRetries - 1].message)
      && (r.result.NoneReturned? <==> k == maxRetries)
      && Tries(r.trace) == Range(k, AttemptsMade(r.result, maxRetries))
      && AttemptsMade(r.result, maxRetries) <= maxRetries
  {
    RetryEnds(outcomes, maxRetries, k);
    RetryTries(outcomes, maxRetries, k);
  }

  /** The result part of `RetryOutcome`. */
  lemma {:induction false} RetryEnds(outcomes: seq<Attempt>, maxRetries: nat, k: nat)
    requires k <= maxRetries <= |outcomes|
    ensures var r := RetryFrom(outcomes, maxRetries, k).result;
      && (r.Connection? ==>
            && k <= r.attempt < maxRetries
            && outcomes[r.attempt].Connects?
            && forall j :: k <= j < r.attempt ==> outcomes[j].Fails?)
      && (r.Raised? ==>
            && k < maxRetries
            && (forall j :: k <= j < maxRetries ==> outcomes[j].Fails?)
            && r.message == outcomes[maxRetries - 1].message)
      && (r.NoneReturned? <==> k == maxRetries)
    decreases maxRetries - k
  {
    if k < maxRetries && outcomes[k].Fails? && k < maxRetries - 1 {
      RetryEnds(outcomes, maxRetries, k + 1);
    }
  }

  /** The trace part of `RetryOutcome`: the attempts are k, k + 1, ... up to the last one made. */
  lemma {:induction false} RetryTries(outcomes: seq<Attempt>, maxRetries: nat, k: nat)
    requires k <= maxRetries <= |outcomes|
    ensures var r := RetryFrom(outcomes, maxRetries, k);
      && Tries(r.trace) == Range(k, AttemptsMade(r.result, maxRetries))
      && (k < maxRetries ==> k < AttemptsMade(r.result, maxRetries))
      && AttemptsMade(r.result, maxRetries) <= maxRetries
    decreases maxRetries - k
  {
    if k < maxRetries {
      var head := WaitBefore(k) + [Try(k)];
      RunFrom(outcomes, maxRetries, k);
      assert Tries(head) == [k] by {
        TriesAppend(WaitBefore(k), [Try(k)]);
        assert Tries([Try(k)]) == [k];
        assert Tries(WaitBefore(k)) == [];
      }
      if outcomes[k].Fails? && k < maxRetries - 1 {
        var extra := ExtraWait(outcomes[k].message, k);
        var rest := RetryFrom(outcomes, maxRetries, k + 1);
        RetryTries(outcomes, maxRetries, k + 1);
        TriesAppend(head, extra);
        TriesAppend(head + extra, rest.trace);
        assert Tries(extra) == [];
        assert Range(k, AttemptsMade(rest.result, maxRetries)) == [k] + Range(k + 1, AttemptsMade(rest.result, maxRetries));
      } else {
        assert Range(k, k + 1) == [k];
      }
    }
  }

  /** Total milliseconds of the waits in a trace. */
  function WaitTotal(trace: seq<Event>): nat {
    if trace == [] then 0
    else (if trace[0].Wait? then trace[0].ms else 0) + WaitTotal(trace[1..])
  }

  lemma {:induction false} WaitTotalAppend(a: seq<Event>, b: seq<Event>)
    ensures WaitTotal(a + b) == WaitTotal(a) + WaitTotal(b)
    decreases |a|
  {
    if a != [] {
      assert (a + b)[1..] == a[1..] + b;
      WaitTotalAppend(a[1..], b);
    } else {
      assert a + b == b;
    }
  }

  /** The backoff sleeps that precede attempts lo..hi (attempt 0 has none). */
  function BackoffSum(lo: nat, hi: nat): nat
    decreases hi + 1 - lo
  {
    if lo > hi then 0 else (if lo > 0 then Backoff(lo) else 0) + BackoffSum(lo + 1, hi)
  }

  /** The backoffs before attempts 1..j add up to `BASE_DELAY * (2 ** j - 1)`. */
  lemma {:induction false} BackoffSumClosed(lo: nat, hi: nat)
    requires 1 <= lo <= hi + 1
    ensures BackoffSum(lo, hi) == BaseDelayMs * (Pow2(hi) - Pow2(lo - 1))
    decreases hi + 1 - lo
  {
    if lo <= hi {
      BackoffSumClosed(lo + 1, hi);
      assert Pow2(lo) == 2 * Pow2(lo - 1);
    }
  }

  /**
   * Where each attempt sits in the run from attempt k: there is no sleep before
   * the first attempt, attempt j >= 1 comes right after a sleep of
   * `Backoff(j)`, and the sleeps before it add up to at least the backoffs of
   * the attempts from k to j.
   */
  lemma {:induction false} TryPlacement(outcomes: seq<Attempt>, maxRetries: nat, k: nat, p: nat)
    requires k <= maxRetries <= |outcomes|
    requires p < |RetryFrom(outcomes, maxRetries, k).trace|
    requires RetryFrom(outcomes, maxRetries, k).trace[p].Try?
    ensures var t := RetryFrom(outcomes, maxRetries, k).trace; var j := t[p].attempt;
      && k <= j < maxRetries
      && (j == k <==> p == |WaitBefore(k)|)
      && (j > 0 ==> p > 0 && t[p - 1] == Wait(Backoff(j)))
      && WaitTotal(t[..p]) >= BackoffSum(k, j)
    decreases maxRetries - k
  {
    var t := RetryFrom(outcomes, maxRetries, k).trace;
    var head := WaitBefore(k) + [Try(k)];
    if p < |head| {
      assert t[..p] == WaitBefore(k)[..p];
      assert BackoffSum(k, k) == (if k > 0 then Backoff(k) else 0) + BackoffSum(k + 1, k);
    } else {
      var extra := ExtraWait(outcomes[k].message, k);
      var rest := RetryFrom(outcomes, maxRetries, k + 1);
      assert t == head + extra + rest.trace;
      var q := p - |head| - |extra|;
      assert t[p] == rest.trace[q];
      TryPlacement(outcomes, maxRetries, k + 1, q);
      var j := t[p].attempt;
      assert q > 0 ==> t[p - 1] == rest.trace[q - 1];
      assert t[..p] == head + extra + rest.trace[..q];
      WaitTotalAppend(head + extra, rest.trace[..q]);
      WaitTotalAppend(head, extra);
      WaitTotalAppend(WaitBefore(k), [Try(k)]);
    }
  }

  /**
   * What the loop logs right after attempt j: nothing when it connected or was
   * the final attempt, otherwise the extra sleep `ExtraDelay(j)` when the
   * failure was contention, and otherwise straight away the backoff of the
   * next attempt.
   */
  function FollowUp(outcomes: seq<Attempt>, maxRetries: nat, j: nat): Option<Event>
    requires j < maxRetries <= |outcomes|
  {
    match outcomes[j]
    case Connects => None
    case Fails(msg) =>
      if j == maxRetries - 1 then None
      else if IsContention(msg) then Some(Wait(ExtraDelay(j)))
      else Some(Wait(Backoff(j + 1)))
  }

  /** What follows attempt k in the run that starts at attempt k. */
  lemma AfterFirstTry(outcomes: seq<Attempt>, maxRetries: nat, k: nat)
    requires k < maxRetries <= |outcomes|
    ensures var t := RetryFrom(outcomes, maxRetries, k).trace; var p := |WaitBefore(k)|;
      && p < |t| && t[p] == Try(k)
      && (p + 1 < |t| <==> FollowUp(outcomes, maxRetries, k).Some?)
      && (p + 1 < |t| ==> t[p + 1] == FollowUp(outcomes, maxRetries, k).value)
  {
    var t := RetryFrom(outcomes, maxRetries, k).trace;
    var head := WaitBefore(k) + [Try(k)];
    if outcomes[k].Fails? && k < maxRetries - 1 {
      var extra := ExtraWait(outcomes[k].message, k);
      var rest := RetryFrom(outcomes, maxRetries, k + 1);
      assert t == head + extra + rest.trace;
      if extra == [] {
        assert rest.trace[0] == Wait(Backoff(k + 1));
      }
    }
  }

  /** Every attempt in the run is followed by exactly what `FollowUp` says, and by nothing else. */
  lemma {:induction false} AfterTry(outcomes: seq<Attempt>, maxRetries: nat, k: nat, p: nat)
    requires k <= maxRetries <= |outcomes|
    requires p < |RetryFrom(outcomes, maxRetries, k).trace|
    requires RetryFrom(outcomes, maxRetries, k).trace[p].Try?
    ensures var t := RetryFrom(outcomes, maxRetries, k).trace; var j := t[p].attempt;
      && j < maxRetries
      && (p + 1 < |t| <==> FollowUp(outcomes, maxRetries, j).Some?)
      && (p + 1 < |t| ==> t[p + 1] == FollowUp(outcomes, maxRetries, j).value)
    decreases maxRetries - k
  {
    var t := RetryFrom(outcomes, maxRetries, k).trace;
    var head := WaitBefore(k) + [Try(k)];
    RunFrom(outcomes, maxRetries, k);
    if p < |head| {
      assert p == |WaitBefore(k)|;
      AfterFirstTry(outcomes, maxRetries, k);
    } else {
      var extra := ExtraWait(outcomes[k].message, k);
      var rest := RetryFrom(outcomes, maxRetries, k + 1);
      assert p >= |head| + |extra|;
      var q := p - |head| - |extra|;
      Shifted(head + extra, rest.trace, q);
      AfterTry(outcomes, maxRetries, k + 1, q);
    }
  }

  /** Position q of the tail of a sequence, and the one after it, seen from the whole sequence. */
  lemma Shifted<T>(front: seq<T>, back: seq<T>, q: nat)
    requires q < |back|
    ensures var s := front + back; var p := |front| + q;
      && s[p] == back[q]
      && (p + 1 == |s| <==> q + 1 == |back|)
      && (q + 1 < |back| ==> s[p + 1] == back[q + 1])
  {
  }

  /** The shape of the run from attempt k: its sleep and try, then, after a non-final failure, the rest. */
  lemma RunFrom(outcomes: seq<Attempt>, maxRetries: nat, k: nat)
    requires k < maxRetries <= |outcomes|
    ensures var t := RetryFrom(outcomes, maxRetries, k).trace; var head := WaitBefore(k) + [Try(k)];
      && |WaitBefore(k)| <= 1 && (forall e :: e in WaitBefore(k) ==> e.Wait?)
      && (outcomes[k].Connects? || k == maxRetries - 1 ==> t == head)
      && (outcomes[k].Fails? && k < maxRetries - 1 ==>
            && |ExtraWait(outcomes[k].message, k)| <= 1
            && (forall e :: e in ExtraWait(outcomes[k].message, k) ==> e.Wait?)
            && t == head + ExtraWait(outcomes[k].message, k) + RetryFrom(outcomes, maxRetries, k + 1).trace)
  {
  }

  /** With the default bound, a third attempt is preceded by at least 500 + 1000 ms of sleep. */
  lemma ThirdAttemptWaits(outcomes: seq<Attempt>, p: nat)
    requires MaxRetries <= |outcomes|
    requires p < |RetryFrom(outcomes, MaxRetries, 0).trace|
    requires RetryFrom(outcomes, MaxRetries, 0).trace[p] == Try(2)
    ensures WaitTotal(RetryFrom(outcomes, MaxRetries, 0).trace[..p]) >= 1500
  {
    TryPlacement(outcomes, MaxRetries, 0, p);
    BackoffSumClosed(1, 2);
    assert BackoffSum(0, 2) == BackoffSum(1, 2);
  }

  /** What `StdioServerParameters` receives: the program, its arguments and its environment. */
  datatype ServerParams = ServerParams(command: string, args: seq<string>, env: map<string, string>)

  /** `env = os.environ.copy(); env.update(over)`: the tool's variables win, every other variable is kept. */
  function Overlay(base: map<string, string>, over: map<string, string>): (env: map<string, string>)
    ensures env.Keys == base.Keys + over.Keys
    ensures forall k :: k in over ==> env[k] == over[k]
    ensures forall k :: k in base && k !in over ==> env[k] == base[k]
  {
    base + over
  }

  /**
   * The preparation part of `test_mcp_configuration`: the stripped command is
   * split on whitespace; no token means no server, otherwise the first token is
   * the program and the remaining tokens, in order, its arguments.
   */
  function PrepareServer(mcpCommand: string, toolEnv: map<string, string>, processEnv: map<string, string>)
    : (p: Option<ServerParams>)
    ensures p.None? <==> AllSpace(mcpCommand)
    ensures p.Some? ==>
      && [p.value.command] + p.value.args == Split(Strip(mcpCommand))
      && IsToken(p.value.command)
      && (forall i :: 0 <= i < |p.value.args| ==> IsToken(p.value.args[i]))
      && p.value.env == Overlay(processEnv, toolEnv)
  {
    var parts := Split(Strip(mcpCommand));
    if parts == [] then None
    else
      assert parts == [parts[0]] + parts[1..];
      Some(ServerParams(parts[0], parts[1..], Overlay(processEnv, toolEnv)))
  }

  /** A command built by joining tokens with single spaces is split back into exactly those tokens. */
  lemma PrepareJoinedCommand(command: string, args: seq<string>, toolEnv: map<string, string>, processEnv: map<string, string>)
    requires IsToken(command) && forall i :: 0 <= i < |args| ==> IsToken(args[i])
    ensures PrepareServer(JoinSpaced([command] + args), toolEnv, processEnv)
            == Some(ServerParams(command, args, Overlay(processEnv, toolEnv)))
  {
    var ts := [command] + args;
    assert forall i :: 0 <= i < |ts| ==> IsToken(ts[i]) by {
      forall i | 0 <= i < |ts| ensures IsToken(ts[i]) {
        if i > 0 { assert ts[i] == args[i - 1]; }
      }
    }
    var joined := JoinSpaced(ts);
    JoinSpacedStripped(ts);
    StripOfStripped(joined);
    SplitJoinSpaced(ts);
    assert Split(Strip(joined)) == ts;
    assert ts[0] == command && ts[1..] == args;
  }

  /** A tool as the MCP session reports it; `description` is `None` when the tool has no such attribute. */
  datatype ToolInfo = ToolInfo(name: string, description: Option<string>)

  /** One entry of the `functions` list: `{"name", "description", "type"}`. */
  datatype FunctionEntry = FunctionEntry(name: string, description: string, kind: string)

  /** The four-part result `(success, function_count, error_message, functions)`. */
  datatype TestResult = TestResult(success: bool, count: nat, error: Option<string>, functions: Option<seq<FunctionEntry>>)

  const EmptyCommandError: string := "Empty MCP command"
  const TestFailurePrefix: string := "Failed to test MCP configuration: "

  /** The entry recorded for one tool. */
  function Describe(t: ToolInfo): (f: FunctionEntry)
    ensures f.name == t.name && f.kind == "function"
    ensures f.description == if t.description.Some? then t.description.value else ""
  {
    FunctionEntry(t.name, if t.description.Some? then t.description.value else "", "function")
  }

  /** The loop that builds the `functions` list, one entry per tool, in the tools' order. */
  method ListFunctions(tools: seq<ToolInfo>) returns (functions: seq<FunctionEntry>)
    ensures |functions| == |tools|
    ensures forall i :: 0 <= i < |tools| ==> functions[i] == Describe(tools[i])
  {
    functions := [];
    for i := 0 to |tools|
      invariant |functions| == i
      invariant forall j :: 0 <= j < i ==> functions[j] == Describe(tools[j])
    {
      functions := functions + [Describe(tools[i])];
    }
  }

  /** With at least one attempt allowed, the retry helper never falls off the end of its loop. */
  lemma RetryReturnsSomething(outcomes: seq<Attempt>)
    requires MaxRetries <= |outcomes|
    ensures !RetryFrom(outcomes, MaxRetries, 0).result.NoneReturned?
  {
    RetryOutcome(outcomes, MaxRetries, 0);
  }

  /**
   * The four-part result of `test_mcp_configuration`, given the prepared
   * parameters, how the retry helper ended and what the opened session yielded.
   */
  function Report(params: Option<ServerParams>, result: RetryResult, session: Result<seq<ToolInfo>, string>)
    : (r: TestResult)
    requires params.Some? ==> !result.NoneReturned?
    ensures params.None? ==> r == TestResult(false, 0, Some(EmptyCommandError), None)
    ensures r.success <==> params.Some? && result.Connection? && session.Ok?
    ensures r.success ==>
      && r.error.None? && r.functions.Some?
      && r.count == |r.functions.value| == |session.value|
      && forall i :: 0 <= i < |session.value| ==> r.functions.value[i] == Describe(session.value[i])
    ensures !r.success ==> r.count == 0 && r.functions.None? && r.error.Some?
    ensures params.Some? && result.Raised? ==> r.error == Some(TestFailurePrefix + result.message)
    ensures params.Some? && result.Connection? && session.Err? ==> r.error == Some(TestFailurePrefix + session.error)
  {
    if params.None? then TestResult(false, 0, Some(EmptyCommandError), None)
    else match result
      case Raised(msg) => TestResult(false, 0, Some(TestFailurePrefix + msg), None)
      case Connection(_) =>
        match session
        case Err(msg) => TestResult(false, 0, Some(TestFailurePrefix + msg), None)
        case Ok(tools) =>
          TestResult(true, |tools|, None, Some(seq(|tools|, i requires 0 <= i < |tools| => Describe(tools[i]))))
  }

  /**
   * The part of `test_mcp_configuration` after the command is prepared: connect
   * with retry, open the session, and list its tools.
   */
  method ProbeServer(outcomes: seq<Attempt>, session: Result<seq<ToolInfo>, string>, params: ServerParams)
    returns (r: TestResult, attempts: seq<Event>)
    requires MaxRetries <= |outcomes|
    ensures attempts == RetryFrom(outcomes, MaxRetries, 0).trace
    ensures !RetryFrom(outcomes, MaxRetries, 0).result.NoneReturned?
    ensures r == Report(Some(params), RetryFrom(outcomes, MaxRetries, 0).result, session)
  {
    RetryReturnsSomething(outcomes);
    var retry := ConnectWithRetry(outcomes, MaxRetries);
    attempts := retry.trace;
    match retry.result
    case Raised(msg) =>
      r := TestResult(false, 0, Some(TestFailurePrefix + msg), None);
    case Connection(_) =>
      match session
      case Err(msg) =>
        r := TestResult(false, 0, Some(TestFailurePrefix + msg), None);
      case Ok(tools) =>
        var functions := ListFunctions(tools);
        assert functions == seq(|tools|, i requires 0 <= i < |tools| => Describe(tools[i]));
        r := TestResult(true, |tools|, None, Some(functions));
  }

  /**
   * `test_mcp_configuration`. `outcomes` says what each connection attempt
   * does, and `session` what the initialized session yields: the loaded tools,
   * or the message of the exception raised while opening it or loading them.
   * Besides the result it returns the server parameters it prepared and the
   * retry trace (empty when no connection was attempted).
   */
  method TestMcpConfiguration(
    mcpCommand: string, toolEnv: map<string, string>, processEnv: map<string, string>,
    outcomes: seq<Attempt>, session: Result<seq<ToolInfo>, string>)
    returns (r: TestResult, params: Option<ServerParams>, attempts: seq<Event>)
    requires MaxRetries <= |outcomes|
    ensures params == PrepareServer(mcpCommand, toolEnv, processEnv)
    ensures params.None? ==> attempts == []
    ensures params.Some? ==> attempts == RetryFrom(outcomes, MaxRetries, 0).trace
    ensures !RetryFrom(outcomes, MaxRetries, 0).result.NoneReturned?
    ensures r == Report(params, RetryFrom(outcomes, MaxRetries, 0).result, session)
  {
    RetryReturnsSomething(outcomes);
    params := PrepareServer(mcpCommand, toolEnv, processEnv);
    if params.None? {
      assert Report(params, RetryFrom(outcomes, MaxRetries, 0).result, session)
        == TestResult(false, 0, Some(EmptyCommandError), None);
      return TestResult(false, 0, Some(EmptyCommandError), None), params, [];
    }
    r, attempts := ProbeServer(outcomes, session, params.value);
  }
}

/**
 * The task resource: the body `submit` posts, the paths of `get` and of the status
 * projection, the query `list` builds, and `waitForReview`, the polling loop that waits
 * for a task to reach the terminal state with a capped, growing interval.
 */
module Tasks {
  import opened Wrappers
  import opened Js
  import opened Http
  import opened Errors

  const DefaultWaitTimeout := 300000
  const DefaultPollInterval: real := 2000.0
  const DefaultMaxPollInterval: real := 30000.0

  /** The state `waitForReview` treats as terminal. */
  const ReviewedState := "reviewed"

  /** A JSON value, for the caller-defined `data`, `context` and `metadata` payloads. */
  datatype Value =
    | Null
    | Bool(b: bool)
    | Number(n: real)
    | Text(s: string)
    | List(items: seq<Value>)
    | Object(fields: map<string, Value>)

  type Record = map<string, Value>

  /**
   * A task as the API returns it, reduced to the fields this model reads or passes on.
   * The state is a plain string: the declared states are `pending`, `queued` and
   * `completed`, but the polling loop tests for `reviewed`.
   */
  datatype Task = Task(
    id: string,
    queueId: string,
    state: string,
    data: Record,
    completedAt: Option<string>)

  /** The states the task type declares. */
  predicate IsDeclaredState(s: string) {
    s == "pending" || s == "queued" || s == "completed"
  }

  datatype SubmitTaskInput = SubmitTaskInput(
    queueKey: string,
    data: Record,
    context: Option<Record>,
    metadata: Option<Record>,
    summary: Option<string>,
    externalId: Option<string>)

  /**
   * The JSON body `submit` posts to `/task`: `context` and `metadata` default to `{}`,
   * and the optional `summary` and `external_id` are present only when given
   * (serialisation drops undefined properties).
   */
  function SubmitBody(input: SubmitTaskInput): (body: Record)
    ensures body.Keys == {"queue_key", "data", "context", "metadata"}
                         + (if input.summary.Some? then {"summary"} else {})
                         + (if input.externalId.Some? then {"external_id"} else {})
    ensures body["queue_key"] == Text(input.queueKey) && body["data"] == Object(input.data)
    ensures input.context.None? ==> body["context"] == Object(map[])
    ensures input.context.Some? ==> body["context"] == Object(input.context.value)
    ensures input.metadata.None? ==> body["metadata"] == Object(map[])
    ensures input.metadata.Some? ==> body["metadata"] == Object(input.metadata.value)
    ensures input.summary.Some? ==> body["summary"] == Text(input.summary.value)
    ensures input.externalId.Some? ==> body["external_id"] == Text(input.externalId.value)
  {
    var required := map[
      "queue_key" := Text(input.queueKey),
      "data" := Object(input.data),
      "context" := Object(input.context.GetOr(map[])),
      "metadata" := Object(input.metadata.GetOr(map[]))];
    var withSummary := if input.summary.Some? then required["summary" := Text(input.summary.value)] else required;
    if input.externalId.Some? then withSummary["external_id" := Text(input.externalId.value)] else withSummary
  }

  /** The path of `get(taskId)`. */
  function TaskPath(taskId: string): string {
    "/task/" + taskId
  }

  /** The path of the lightweight status projection the loop polls. */
  function StatusPath(taskId: string): string {
    "/task/" + taskId + "/status"
  }

  /** `n` status requests for the same task. */
  function StatusRequests(taskId: string, n: nat): (r: seq<string>)
    ensures |r| == n && forall k :: 0 <= k < n ==> r[k] == StatusPath(taskId)
  {
    seq(n, _ => StatusPath(taskId))
  }

  datatype TaskFilters = TaskFilters(queueId: Option<string>, state: Option<string>)

  /** The `(key, value)` candidates of `list`, in append order. */
  function TaskCandidates(filters: Option<TaskFilters>): seq<(string, Option<string>)> {
    var f := filters.GetOr(TaskFilters(None, None));
    [("queue_id", f.queueId), ("state", f.state)]
  }

  /**
   * The path `list` requests: `queue_id` then `state`, each only when truthy, and no `?`
   * at all when neither is.
   */
  method ListPath(filters: Option<TaskFilters>) returns (path: string)
    ensures path == PathWithQuery("/task", KeepTruthy(TaskCandidates(filters)))
    ensures path == "/task" <==>
              filters.None? || (!TruthyString(filters.value.queueId) && !TruthyString(filters.value.state))
  {
    var f := filters.GetOr(TaskFilters(None, None));
    var params := new SearchParams();
    params.AppendIfTruthy("queue_id", f.queueId);
    params.AppendIfTruthy("state", f.state);
    var query := params.ToString();
    path := "/task" + (if query != "" then "?" + query else "");
    ghost var c := TaskCandidates(filters);
    assert c == [] + [c[0]] + [c[1]];
    KeepTruthySnoc([] + [c[0]], c[1]);
    KeepTruthySnoc([], c[0]);
    BareQueryPath("/task", c);
    assert c[0].1 == f.queueId && c[1].1 == f.state;
    if !TruthyString(f.queueId) && !TruthyString(f.state) {
      forall i | 0 <= i < |c| ensures !TruthyString(c[i].1) {
        assert i == 0 || i == 1;
      }
    }
  }

  /** The options after `{ ...DEFAULT_WAIT_OPTIONS, ...options }`. */
  datatype WaitSettings = WaitSettings(timeout: int, pollInterval: real, maxPollInterval: real)

  datatype WaitOptions = WaitOptions(timeout: Option<int>, pollInterval: Option<real>, maxPollInterval: Option<real>)

  function Settings(options: Option<WaitOptions>): (s: WaitSettings)
    ensures options.None? ==> s == WaitSettings(DefaultWaitTimeout, DefaultPollInterval, DefaultMaxPollInterval)
    ensures options.Some? ==>
              && s.timeout == (if options.value.timeout.Some? then options.value.timeout.value else 300000)
              && s.pollInterval == (if options.value.pollInterval.Some? then options.value.pollInterval.value else 2000.0)
              && s.maxPollInterval == (if options.value.maxPollInterval.Some? then options.value.maxPollInterval.value else 30000.0)
  {
    if options.None? then WaitSettings(DefaultWaitTimeout, DefaultPollInterval, DefaultMaxPollInterval)
    else WaitSettings(
      options.value.timeout.GetOr(DefaultWaitTimeout),
      options.value.pollInterval.GetOr(DefaultPollInterval),
      options.value.maxPollInterval.GetOr(DefaultMaxPollInterval))
  }

  function Min(a: real, b: real): real {
    if a <= b then a else b
  }

  /** The interval slept after the k-th unsuccessful poll (k from 0). */
  function IntervalAt(pollInterval: real, maxPollInterval: real, k: nat): (r: real)
    ensures k == 0 ==> r == pollInterval
  {
    if k == 0 then pollInterval
    else Min(IntervalAt(pollInterval, maxPollInterval, k - 1) * 1.5, maxPollInterval)
  }

  /** After the first update the interval never exceeds the cap. */
  lemma IntervalCapped(pollInterval: real, maxPollInterval: real, k: nat)
    requires k >= 1
    ensures IntervalAt(pollInterval, maxPollInterval, k) <= maxPollInterval
  {
  }

  lemma {:induction false} IntervalNonNegative(pollInterval: real, maxPollInterval: real, k: nat)
    requires 0.0 <= pollInterval && 0.0 <= maxPollInterval
    ensures 0.0 <= IntervalAt(pollInterval, maxPollInterval, k)
  {
    if k > 0 { IntervalNonNegative(pollInterval, maxPollInterval, k - 1); }
  }

  /** With a non-negative interval that starts within the cap, the intervals never shrink. */
  lemma IntervalNonDecreasing(pollInterval: real, maxPollInterval: real, k: nat)
    requires 0.0 <= pollInterval <= maxPollInterval
    ensures IntervalAt(pollInterval, maxPollInterval, k) <= IntervalAt(pollInterval, maxPollInterval, k + 1)
  {
    IntervalNonNegative(pollInterval, maxPollInterval, k);
    if k > 0 { IntervalCapped(pollInterval, maxPollInterval, k); }
  }

  /** A negative interval shrinks instead: non-negativity is needed above. */
  lemma NegativeIntervalShrinks()
    ensures IntervalAt(-2.0, 30000.0, 1) < IntervalAt(-2.0, 30000.0, 0)
  {
  }

  /** Once the interval reaches a non-negative cap it stays there. */
  lemma {:induction false} IntervalStaysAtCap(pollInterval: real, maxPollInterval: real, k: nat, j: nat)
    requires 0.0 <= maxPollInterval && k <= j
    requires IntervalAt(pollInterval, maxPollInterval, k) == maxPollInterval
    ensures IntervalAt(pollInterval, maxPollInterval, j) == maxPollInterval
    decreases j - k
  {
    if k < j {
      IntervalStaysAtCap(pollInterval, maxPollInterval, k, j - 1);
    }
  }

  /** With the defaults the sleeps are 2000, 3000, 4500, ..., and 30000 from the eighth on. */
  lemma DefaultIntervals(k: nat)
    ensures IntervalAt(DefaultPollInterval, DefaultMaxPollInterval, 0) == 2000.0
    ensures IntervalAt(DefaultPollInterval, DefaultMaxPollInterval, 1) == 3000.0
    ensures IntervalAt(DefaultPollInterval, DefaultMaxPollInterval, 2) == 4500.0
    ensures k >= 7 ==> IntervalAt(DefaultPollInterval, DefaultMaxPollInterval, k) == 30000.0
  {
    var p, m := DefaultPollInterval, DefaultMaxPollInterval;
    assert IntervalAt(p, m, 3) == 6750.0;
    assert IntervalAt(p, m, 4) == 10125.0;
    assert IntervalAt(p, m, 5) == 15187.5;
    assert IntervalAt(p, m, 6) == 22781.25;
    assert IntervalAt(p, m, 7) == 30000.0;
    if k >= 7 { IntervalStaysAtCap(p, m, 7, k); }
  }

  /** The message of the timeout error: names the task and the timeout in milliseconds. */
  function TimeoutMessage(taskId: string, timeout: int): (m: string)
    ensures |m| == 5 + |taskId| + 25 + |DecimalString(timeout)| + 2
    ensures m[..5 + |taskId|] == "Task " + taskId
    ensures m[|m| - 2..] == "ms"
    ensures m[|m| - 2 - |DecimalString(timeout)|..|m| - 2] == DecimalString(timeout)
  {
    "Task " + taskId + " was not reviewed within " + DecimalString(timeout) + "ms"
  }

  /**
   * The polling loop of `waitForReview`: while the clock reads below the timeout, poll the
   * status; stop at the first `reviewed`, otherwise sleep the current interval and grow it.
   * Returns how many polls found the task unreviewed, whether the last poll found it
   * reviewed, the status requests made and the sleeps taken.
   */
  method PollUntilReviewed(taskId: string, opts: WaitSettings, clock: seq<nat>, states: seq<string>)
    returns (i: nat, reviewed: bool, requests: seq<string>, sleeps: seq<real>)
    requires |clock| == |states| + 1
    requires clock[|states|] >= opts.timeout
    ensures i <= |states|
    ensures forall k :: 0 <= k < i ==> clock[k] < opts.timeout && states[k] != ReviewedState
    ensures reviewed ==> i < |states| && clock[i] < opts.timeout && states[i] == ReviewedState
    ensures !reviewed ==> clock[i] >= opts.timeout
    ensures requests == StatusRequests(taskId, if reviewed then i + 1 else i)
    ensures |sleeps| == i
    ensures forall k :: 0 <= k < i ==> sleeps[k] == IntervalAt(opts.pollInterval, opts.maxPollInterval, k)
  {
    var currentInterval := opts.pollInterval;
    i, reviewed := 0, false;
    requests, sleeps := [], [];
    while clock[i] < opts.timeout
      invariant 0 <= i <= |states|
      invariant forall k :: 0 <= k < i ==> clock[k] < opts.timeout && states[k] != ReviewedState
      invariant requests == StatusRequests(taskId, i)
      invariant |sleeps| == i
      invariant forall k :: 0 <= k < i ==> sleeps[k] == IntervalAt(opts.pollInterval, opts.maxPollInterval, k)
      invariant currentInterval == IntervalAt(opts.pollInterval, opts.maxPollInterval, i)
      decreases |states| - i
    {
      requests := requests + [StatusPath(taskId)];
      if states[i] == ReviewedState {
        reviewed := true;
        break;
      }
      sleeps := sleeps + [currentInterval];
      assert IntervalAt(opts.pollInterval, opts.maxPollInterval, i + 1) == Min(currentInterval * 1.5, opts.maxPollInterval);
      currentInterval := Min(currentInterval * 1.5, opts.maxPollInterval);
      i := i + 1;
    }
  }

  /**
   * `waitForReview`. `clock[i]` is the elapsed time the loop guard reads the i-th time,
   * `states[i]` the state the i-th status poll returns and `full` what the final `get`
   * returns; the clock is assumed to pass the timeout by its last reading. Returns the
   * outcome, the number of status polls, the requested paths in order and the sleeps.
   */
  method WaitForReview(taskId: string, options: Option<WaitOptions>, clock: seq<nat>, states: seq<string>, full: Task)
    returns (r: Result<Task, DatashiftError>, polls: nat, requests: seq<string>, sleeps: seq<real>)
    requires |clock| == |states| + 1
    requires clock[|states|] >= Settings(options).timeout
    ensures polls <= |states|
    ensures forall k :: 0 <= k < polls ==> clock[k] < Settings(options).timeout
    ensures forall k :: 0 <= k < polls - 1 ==> states[k] != ReviewedState
    ensures r.Success? <==> polls > 0 && states[polls - 1] == ReviewedState
    ensures r.Success? ==>
              && r.value == full && |sleeps| == polls - 1
              && requests == StatusRequests(taskId, polls) + [TaskPath(taskId)]
    ensures r.Failure? ==>
              && clock[polls] >= Settings(options).timeout
              && |sleeps| == polls && requests == StatusRequests(taskId, polls)
              && r.error.kind == Timeout && r.error.status == Some(408)
              && r.error.message == TimeoutMessage(taskId, Settings(options).timeout)
    ensures forall k :: 0 <= k < |sleeps| ==>
              sleeps[k] == IntervalAt(Settings(options).pollInterval, Settings(options).maxPollInterval, k)
    ensures clock[0] >= Settings(options).timeout ==> requests == [] && r.Failure?
    ensures Settings(options).timeout <= 0 ==> requests == [] && r.Failure?
    ensures (forall k :: 0 <= k < |states| ==> IsDeclaredState(states[k])) ==> r.Failure?
  {
    var opts := Settings(options);
    var i, reviewed;
    i, reviewed, requests, sleeps := PollUntilReviewed(taskId, opts, clock, states);
    assert i > 0 ==> clock[0] < opts.timeout;
    if reviewed {
      assert !IsDeclaredState(states[i]);
      requests := requests + [TaskPath(taskId)];
      r, polls := Success(full), i + 1;
    } else {
      r := Failure(NewTimeoutError(Some(TimeoutMessage(taskId, opts.timeout))));
      polls := i;
    }
  }

}

/**
 * The operation poller `Progress.complete` (app/docspace/client/client.js;
 * app/docspase/client/client.js holds the same code): it turns a long-running
 * server operation into one awaited result by listing the tracked operations
 * until the one it follows reports an error or completion, or until the retry
 * budget runs out.
 *
 * The "list operations" endpoint is an oracle: `endpoint(k)` is what its
 * (k+1)-th call yields, a listing or a thrown error. The delay between polls
 * has no effect besides ordering and is not modelled.
 */
module Poller {
  import opened Outcomes

  /**
   * One tracked operation as a listing reports it. `progress` and `percents`
   * are `None` when the listing entry has no such own field.
   */
  datatype ProgressData = ProgressData(
    id: string,
    operation: int,
    progress: Option<int>,
    error: string,
    processed: string,
    finished: bool,
    percents: Option<int>)

  /** The operation reports an error (its `error` is truthy). */
  predicate Failed(p: ProgressData) {
    p.error != ""
  }

  /** An own `progress` or own `percents` field equals 100. */
  predicate Done(p: ProgressData) {
    p.progress == Some(100) || p.percents == Some(100)
  }

  /** A state after which the poller stops. */
  predicate Terminal(p: ProgressData) {
    Failed(p) || Done(p)
  }

  /** `operations.findIndex(item => item.id === id)`, with `None` for -1. */
  function FindIndex(ops: seq<ProgressData>, id: string): (r: Option<nat>)
    ensures r.Some? ==> r.value < |ops| && ops[r.value].id == id
    ensures r.Some? ==> forall j :: 0 <= j < r.value ==> ops[j].id != id
    ensures r.None? ==> forall j :: 0 <= j < |ops| ==> ops[j].id != id
  {
    if ops == [] then None
    else if ops[0].id == id then Some(0)
    else match FindIndex(ops[1..], id)
      case None => None
      case Some(k) => Some(k + 1)
  }

  /** `operations.find(item => item.id === id)`. */
  function Find(ops: seq<ProgressData>, id: string): Option<ProgressData> {
    match FindIndex(ops, id)
    case None => None
    case Some(k) => Some(ops[k])
  }

  /** What the k-th call of the "list operations" callback yields. */
  type Endpoint = nat -> Result<seq<ProgressData>>

  /** The poller's state after reading one listing: the matching entry, else unchanged. */
  function Observe(target: string, listing: seq<ProgressData>, current: ProgressData): ProgressData {
    match Find(listing, target)
    case None => current
    case Some(p) => p
  }

  /** A poll that neither throws nor shows the followed operation in a terminal state. */
  predicate Quiet(target: string, reply: Result<seq<ProgressData>>) {
    reply.Ok? && (Find(reply.value, target).None? || !Terminal(Find(reply.value, target).value))
  }

  /** The outcome of polling and the number of endpoint calls made. */
  datatype Polled = Polled(outcome: Result<ProgressData>, calls: nat)

  /**
   * The polling loop from call number `calls` on, with `remaining` polls left
   * and `current` the last state seen.
   */
  function Poll(target: string, endpoint: Endpoint, current: ProgressData, calls: nat, remaining: nat): (r: Polled)
    // a state returned is the last one seen or an entry about the followed operation
    ensures r.outcome.Ok? ==> r.outcome.value == current || r.outcome.value.id == target
    // polling ends before the budget is spent only with an error or a terminal state
    ensures r.outcome.Ok? && r.calls < calls + remaining ==> Terminal(r.outcome.value)
    decreases remaining
  {
    if remaining == 0 then Polled(Ok(current), calls)
    else match endpoint(calls)
      case Err(e) => Polled(Err(e), calls + 1)
      case Ok(listing) =>
        var next := Observe(target, listing, current);
        if Find(listing, target).Some? && Terminal(next) then Polled(Ok(next), calls + 1)
        else Poll(target, endpoint, next, calls + 1, remaining - 1)
  }

  /** `complete(delay, limit)` on a poller built from `operation`. */
  function CompleteSpec(operation: ProgressData, endpoint: Endpoint, limit: int): (r: Polled)
    ensures r.outcome.Ok? ==> limit > 0 && (r.outcome.value == operation || r.outcome.value.id == operation.id)
    ensures r.outcome.Ok? && r.calls < limit ==> Terminal(r.outcome.value)
  {
    if limit <= 0 then Polled(Err(Error("todo")), 0)
    else Poll(operation.id, endpoint, operation, 0, limit)
  }

  /** The state after `n` polls from call number `from` on, none of them stopping. */
  function StateAfter(target: string, endpoint: Endpoint, current: ProgressData, from: nat, n: nat): ProgressData
    decreases n
  {
    if n == 0 then current
    else
      var next := if endpoint(from).Ok? then Observe(target, endpoint(from).value, current) else current;
      StateAfter(target, endpoint, next, from + 1, n - 1)
  }

  class Progress {
    const endpoint: Endpoint
    const operation: ProgressData

    constructor(endpoint: Endpoint, operation: ProgressData)
      ensures this.endpoint == endpoint && this.operation == operation
    {
      this.endpoint := endpoint;
      this.operation := operation;
    }

    /**
     * Polls until the followed operation fails or completes, at most `limit`
     * times; returns the last state seen. `calls` counts the endpoint calls.
     */
    method Complete(delay: int, limit: int) returns (r: Result<ProgressData>, calls: nat)
      ensures Polled(r, calls) == CompleteSpec(operation, endpoint, limit)
      ensures limit <= 0 ==> r == Err(Error("todo")) && calls == 0
      ensures limit > 0 ==> 1 <= calls <= limit
    {
      if limit <= 0 {
        return Err(Error("todo")), 0;
      }
      PollCallBound(operation.id, endpoint, operation, 0, limit);
      var progress := operation;
      var remaining := limit;
      calls := 0;
      while remaining > 0
        invariant 0 <= remaining && calls + remaining == limit
        invariant Poll(operation.id, endpoint, progress, calls, remaining) == CompleteSpec(operation, endpoint, limit)
      {
        var listing := endpoint(calls);
        calls := calls + 1;
        if listing.Err? {
          return Err(listing.error), calls;
        }
        var found := Find(listing.value, operation.id);
        if found.Some? {
          progress := found.value;
          if Failed(progress) || remaining == 0 {
            return Ok(progress), calls;
          }
          if progress.progress.Some? && progress.progress.value == 100 {
            return Ok(progress), calls;
          }
          if progress.percents.Some? && progress.percents.value == 100 {
            return Ok(progress), calls;
          }
        }
        remaining := remaining - 1;
      }
      r := Ok(progress);
    }
  }

  /** A poll run makes at least one call when it has budget, and never more than its budget. */
  lemma {:induction false} PollCallBound(target: string, endpoint: Endpoint, current: ProgressData, calls: nat, remaining: nat)
    ensures calls + (if remaining > 0 then 1 else 0) <= Poll(target, endpoint, current, calls, remaining).calls <= calls + remaining
    decreases remaining
  {
    if remaining > 0 && endpoint(calls).Ok? {
      var listing := endpoint(calls).value;
      var next := Observe(target, listing, current);
      if !(Find(listing, target).Some? && Terminal(next)) {
        PollCallBound(target, endpoint, next, calls + 1, remaining - 1);
      }
    }
  }

  /**
   * When no poll in the budget throws or shows a terminal state, the whole
   * budget is spent and the last state seen is returned.
   */
  lemma {:induction false} PollExhaustsBudget(target: string, endpoint: Endpoint, current: ProgressData, calls: nat, remaining: nat)
    requires forall j :: calls <= j < calls + remaining ==> Quiet(target, endpoint(j))
    ensures Poll(target, endpoint, current, calls, remaining)
         == Polled(Ok(StateAfter(target, endpoint, current, calls, remaining)), calls + remaining)
    decreases remaining
  {
    if remaining > 0 {
      assert Quiet(target, endpoint(calls));
      var next := Observe(target, endpoint(calls).value, current);
      PollExhaustsBudget(target, endpoint, next, calls + 1, remaining - 1);
    }
  }

  /**
   * The first poll that throws or shows a terminal state ends the run: the
   * number of calls is its position, and its error or state is the outcome.
   */
  lemma {:induction false} PollStopsAtFirstTerminal(target: string, endpoint: Endpoint, current: ProgressData, calls: nat, remaining: nat, k: nat)
    requires k < remaining
    requires forall j :: calls <= j < calls + k ==> Quiet(target, endpoint(j))
    requires !Quiet(target, endpoint(calls + k))
    ensures Poll(target, endpoint, current, calls, remaining).calls == calls + k + 1
    ensures endpoint(calls + k).Err? ==>
      Poll(target, endpoint, current, calls, remaining).outcome == Err(endpoint(calls + k).error)
    ensures endpoint(calls + k).Ok? ==>
      var seen := Find(endpoint(calls + k).value, target);
      seen.Some? && Terminal(seen.value) &&
      Poll(target, endpoint, current, calls, remaining).outcome == Ok(seen.value)
    decreases k
  {
    if k > 0 {
      assert Quiet(target, endpoint(calls));
      var next := Observe(target, endpoint(calls).value, current);
      PollStopsAtFirstTerminal(target, endpoint, next, calls + 1, remaining - 1, k - 1);
    }
  }

  /** Every listing from call `lo` up to call `hi` (excluded) came back. */
  predicate AllListed(endpoint: Endpoint, lo: nat, hi: nat) {
    forall j :: lo <= j < hi ==> endpoint(j).Ok?
  }

  /** No listing from call `lo` up to call `hi` (excluded) matched `target`. */
  predicate NoneMatch(target: string, endpoint: Endpoint, lo: nat, hi: nat)
    requires AllListed(endpoint, lo, hi)
  {
    forall j :: lo <= j < hi ==> Find(endpoint(j).value, target).None?
  }

  /** Call `j`'s listing matched `target` with `p`, and no later one up to `hi` matched. */
  predicate LastMatchAt(target: string, endpoint: Endpoint, j: nat, hi: nat, p: ProgressData)
    requires j < hi && AllListed(endpoint, j, hi)
  {
    Find(endpoint(j).value, target) == Some(p) && NoneMatch(target, endpoint, j + 1, hi)
  }

  /** The last-match property of polls from `calls + 1` on, extended back to call `calls`. */
  lemma LastMatchBeforeOneMoreCall(target: string, endpoint: Endpoint, current: ProgressData, calls: nat, hi: nat, v: ProgressData)
    requires calls < hi && endpoint(calls).Ok? && AllListed(endpoint, calls + 1, hi)
    requires var next := Observe(target, endpoint(calls).value, current);
      (v == next && NoneMatch(target, endpoint, calls + 1, hi)) ||
      (exists j :: calls + 1 <= j < hi && LastMatchAt(target, endpoint, j, hi, v))
    ensures AllListed(endpoint, calls, hi)
    ensures (v == current && NoneMatch(target, endpoint, calls, hi)) ||
      (exists j :: calls <= j < hi && LastMatchAt(target, endpoint, j, hi, v))
  {
    var listing := endpoint(calls).value;
    var next := Observe(target, listing, current);
    assert AllListed(endpoint, calls, hi);
    if v == next && NoneMatch(target, endpoint, calls + 1, hi) {
      if Find(listing, target).None? {
        assert NoneMatch(target, endpoint, calls, hi);
      } else {
        assert LastMatchAt(target, endpoint, calls, hi, v);
      }
    } else {
      var j :| calls + 1 <= j < hi && LastMatchAt(target, endpoint, j, hi, v);
      assert calls <= j;
    }
  }

  /**
   * A returned state is the initial one when no listing matched, and otherwise
   * the entry matched by the last listing that had one.
   */
  lemma {:induction false} PollReturnsLastMatch(target: string, endpoint: Endpoint, current: ProgressData, calls: nat, remaining: nat)
    ensures
      var r := Poll(target, endpoint, current, calls, remaining);
      r.outcome.Ok? ==>
        AllListed(endpoint, calls, r.calls) &&
        ((r.outcome.value == current && NoneMatch(target, endpoint, calls, r.calls)) ||
         (exists j :: calls <= j < r.calls && LastMatchAt(target, endpoint, j, r.calls, r.outcome.value)))
    decreases remaining
  {
    var r := Poll(target, endpoint, current, calls, remaining);
    if remaining > 0 && endpoint(calls).Ok? {
      var listing := endpoint(calls).value;
      var next := Observe(target, listing, current);
      if Find(listing, target).Some? && Terminal(next) {
        assert LastMatchAt(target, endpoint, calls, r.calls, r.outcome.value);
      } else {
        PollReturnsLastMatch(target, endpoint, next, calls + 1, remaining - 1);
        PollCallBound(target, endpoint, next, calls + 1, remaining - 1);
        assert r == Poll(target, endpoint, next, calls + 1, remaining - 1);
        if r.outcome.Ok? {
          LastMatchBeforeOneMoreCall(target, endpoint, current, calls, r.calls, r.outcome.value);
        }
      }
    }
  }

  /**
   * An operation listed unchanged and never terminal uses the whole budget:
   * exactly `limit` calls (20 by default, 10 with a limit of 10), and the
   * operation itself is returned.
   */
  lemma SteadyOperationUsesWholeBudget(op: ProgressData, limit: int)
    requires limit > 0 && !Terminal(op)
    ensures CompleteSpec(op, _ => Ok([op]), limit) == Polled(Ok(op), limit)
  {
    var endpoint: Endpoint := _ => Ok([op]);
    assert forall j :: 0 <= j < limit ==> Quiet(op.id, endpoint(j));
    PollExhaustsBudget(op.id, endpoint, op, 0, limit);
    PollReturnsLastMatch(op.id, endpoint, op, 0, limit);
  }

  /** An error reported on the first poll ends polling after that one call. */
  lemma ErrorOnFirstPollStops(op: ProgressData, failed: ProgressData, endpoint: Endpoint, limit: int)
    requires limit > 0 && failed.id == op.id && Failed(failed)
    requires endpoint(0) == Ok([failed])
    ensures CompleteSpec(op, endpoint, limit) == Polled(Ok(failed), 1)
  {
    PollStopsAtFirstTerminal(op.id, endpoint, op, 0, limit, 0);
  }

  /** `progress` rising by 50 per poll reaches 100, and polling stops, on the second call. */
  lemma RisingProgressStopsOnSecondPoll(op: ProgressData, limit: int)
    requires limit >= 2 && op.error == "" && op.percents != Some(100)
    ensures CompleteSpec(op, (j: nat) => Ok([op.(progress := Some(50 * (j + 1)))]), limit)
         == Polled(Ok(op.(progress := Some(100))), 2)
  {
    var endpoint: Endpoint := (j: nat) => Ok([op.(progress := Some(50 * (j + 1)))]);
    assert Quiet(op.id, endpoint(0));
    assert !Quiet(op.id, endpoint(1));
    PollStopsAtFirstTerminal(op.id, endpoint, op, 0, limit, 1);
  }

  /** `percents` rising by 50 per poll reaches 100, and polling stops, on the second call. */
  lemma RisingPercentsStopsOnSecondPoll(op: ProgressData, limit: int)
    requires limit >= 2 && op.error == "" && op.progress != Some(100)
    ensures CompleteSpec(op, (j: nat) => Ok([op.(percents := Some(50 * (j + 1)))]), limit)
         == Polled(Ok(op.(percents := Some(100))), 2)
  {
    var endpoint: Endpoint := (j: nat) => Ok([op.(percents := Some(50 * (j + 1)))]);
    assert Quiet(op.id, endpoint(0));
    assert !Quiet(op.id, endpoint(1));
    PollStopsAtFirstTerminal(op.id, endpoint, op, 0, limit, 1);
  }
}

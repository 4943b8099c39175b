/**
 * The older API client (app/client.js): `Client.request`, which checks the
 * response envelope and wraps any response that carries a `finished` field
 * into a `Progress` object, and the self-recursive `Progress.finish`, which
 * re-issues the same request until a finished result comes back.
 */
module LegacyClient {
  import opened Outcomes

  /** The API version prefix. */
  const Version := "/api/2.0"

  /** The request URL: the base URL, the version prefix and the path, concatenated as text. */
  function RequestUrl(baseUrl: string, path: string): (url: string)
    ensures |url| == |baseUrl| + |Version| + |path|
    ensures url[..|baseUrl|] == baseUrl
    ensures url[|baseUrl|..|baseUrl| + |Version|] == Version
    ensures url[|baseUrl| + |Version|..] == path
  {
    baseUrl + Version + path
  }

  /** The six fields a `Progress` object carries. */
  datatype ProgressState = ProgressState(
    id: string,
    operation: int,
    progress: int,
    error: string,
    processed: string,
    finished: bool)

  /** The state of a newly constructed `Progress`. */
  function Initial(): ProgressState {
    ProgressState("", 0, 0, "", "", false)
  }

  /**
   * The `response` member of an envelope: an object with an own `finished`
   * field (and the other progress fields), or any other value.
   */
  datatype Response<T> = Tracked(state: ProgressState) | Plain(value: T)

  /** The `data` object of a response. */
  datatype LegacyEnvelope<T> = LegacyEnvelope(status: Option<int>, response: Option<Response<T>>)

  /** Reading `hasOwnProperty` of a missing `response`. */
  const MissingResponse := TypeError("Cannot read properties of undefined (reading 'hasOwnProperty')")

  /**
   * What `request` makes of the response data: it throws when `data` is
   * missing or its status is not 0, fails on a missing `response`, and
   * otherwise yields the response (as a progress snapshot when it is tracked).
   */
  function RequestSpec<T>(data: Option<LegacyEnvelope<T>>): (r: Result<Response<T>>)
    ensures r.Ok? <==> data.Some? && data.value.status == Some(0) && data.value.response.Some?
    ensures data.None? || data.value.status != Some(0) ==> r == Err(Error("TODO"))
    ensures data.Some? && data.value.status == Some(0) && data.value.response.None? ==> r == Err(MissingResponse)
    ensures r.Ok? ==> r.value == data.value.response.value
  {
    match data
    case None => Err(Error("TODO"))
    case Some(envelope) =>
      if envelope.status != Some(0) then Err(Error("TODO"))
      else match envelope.response
        case None => Err(MissingResponse)
        case Some(response) => Ok(response)
  }

  class Progress {
    var id: string
    var operation: int
    var progress: int
    var error: string
    var processed: string
    var finished: bool

    function State(): ProgressState
      reads this
    {
      ProgressState(id, operation, progress, error, processed, finished)
    }

    /** A new progress object starts empty and unfinished. */
    constructor()
      ensures State() == Initial()
    {
      id := "";
      operation := 0;
      progress := 0;
      error := "";
      processed := "";
      finished := false;
    }
  }

  /** What `request` resolves to: a new `Progress` object, or the plain response. */
  datatype Reply<T> = ProgressReply(progress: Progress) | PlainReply(value: T)

  /**
   * `request(method, path, body)`; `zrequest` gives the response data the
   * platform returns for a URL, or the failure it rejects with.
   */
  method Request<T>(baseUrl: string, path: string, zrequest: string -> Result<Option<LegacyEnvelope<T>>>)
    returns (r: Result<Reply<T>>)
    // a rejected platform request propagates unchanged
    ensures zrequest(RequestUrl(baseUrl, path)).Err? ==> r == Err(zrequest(RequestUrl(baseUrl, path)).error)
    ensures zrequest(RequestUrl(baseUrl, path)).Ok? ==>
      var spec := RequestSpec(zrequest(RequestUrl(baseUrl, path)).value);
      (spec.Err? ==> r == Err(spec.error)) &&
      (spec.Ok? && spec.value.Plain? ==> r == Ok(PlainReply(spec.value.value))) &&
      (spec.Ok? && spec.value.Tracked? ==>
        r.Ok? && r.value.ProgressReply? && fresh(r.value.progress) &&
        r.value.progress.State() == spec.value.state)
  {
    var url := baseUrl + Version + path;
    var response := zrequest(url);
    if response.Err? {
      return Err(response.error);
    }
    var data := response.value;
    if data.None? {
      return Err(Error("TODO"));
    }
    if data.value.status != Some(0) {
      return Err(Error("TODO"));
    }
    match data.value.response {
      case None =>
        return Err(MissingResponse);
      case Some(response) =>
        match response {
          case Tracked(state) =>
            var p := new Progress();
            p.id := state.id;
            p.operation := state.operation;
            p.progress := state.progress;
            p.error := state.error;
            p.processed := state.processed;
            p.finished := state.finished;
            return Ok(ProgressReply(p));
          case Plain(value) =>
            return Ok(PlainReply(value));
        }
    }
  }

  /** What the k-th `next()` call, a re-issue of the original request, resolves to. */
  type Next<T> = nat -> Result<Response<T>>

  /** A polled result that is finished. */
  predicate IsFinished<T>(reply: Result<Response<T>>) {
    reply.Ok? && reply.value.Tracked? && reply.value.state.finished
  }

  /** The outcome of `finish` and the number of `next` calls made. */
  datatype Finished = Finished(outcome: Result<ProgressState>, calls: nat)

  /** `self.finish(delay, limit)`, from call number `calls` on. */
  function Finish<T>(self: ProgressState, limit: int, next: Next<T>, calls: nat): (r: Finished)
    // what `finish` returns is the original object or a finished result
    ensures r.outcome.Ok? ==> r.outcome.value == self || r.outcome.value.finished
    ensures r.calls >= calls
    decreases if limit <= 0 then 0 else limit
  {
    if self.finished || limit <= 0 then Finished(Ok(self), calls)
    else match next(calls)
      case Err(e) => Finished(Err(e), calls + 1)
      case Ok(reply) =>
        if reply.Tracked? && reply.state.finished then Finished(Ok(reply.state), calls + 1)
        else Finish(self, limit - 1, next, calls + 1)
  }

  /**
   * `finish` returns `self` without polling when `self` is finished or the
   * budget is not positive, and otherwise calls `next` at least once and at
   * most `limit` times.
   */
  lemma {:induction false} FinishCallBound<T>(self: ProgressState, limit: int, next: Next<T>, calls: nat)
    ensures self.finished || limit <= 0 ==> Finish(self, limit, next, calls) == Finished(Ok(self), calls)
    ensures !self.finished && limit > 0 ==> calls + 1 <= Finish(self, limit, next, calls).calls <= calls + limit
    decreases if limit <= 0 then 0 else limit
  {
    if !self.finished && limit > 0 && next(calls).Ok? && !IsFinished(next(calls)) {
      FinishCallBound(self, limit - 1, next, calls + 1);
    }
  }

  /**
   * When no polled result within the budget is finished or throws, `finish`
   * spends the whole budget and returns the original `self`, not the last result.
   */
  lemma {:induction false} FinishExhaustedReturnsSelf<T>(self: ProgressState, limit: int, next: Next<T>, calls: nat)
    requires !self.finished && limit > 0
    requires forall j :: calls <= j < calls + limit ==> next(j).Ok? && !IsFinished(next(j))
    ensures Finish(self, limit, next, calls) == Finished(Ok(self), calls + limit)
    decreases limit
  {
    assert next(calls).Ok? && !IsFinished(next(calls));
    if limit > 1 {
      FinishExhaustedReturnsSelf(self, limit - 1, next, calls + 1);
    }
  }

  /**
   * The first polled result that is finished, or the first call that throws,
   * ends `finish`: that result is returned after exactly `k + 1` calls.
   */
  lemma {:induction false} FinishReturnsFirstFinished<T>(self: ProgressState, limit: int, next: Next<T>, calls: nat, k: nat)
    requires !self.finished && k < limit
    requires forall j :: calls <= j < calls + k ==> next(j).Ok? && !IsFinished(next(j))
    requires next(calls + k).Err? || IsFinished(next(calls + k))
    ensures Finish(self, limit, next, calls).calls == calls + k + 1
    ensures next(calls + k).Err? ==> Finish(self, limit, next, calls).outcome == Err(next(calls + k).error)
    ensures IsFinished(next(calls + k)) ==>
      Finish(self, limit, next, calls).outcome == Ok(next(calls + k).value.state) &&
      next(calls + k).value.state.finished
    decreases k
  {
    if k > 0 {
      assert next(calls).Ok? && !IsFinished(next(calls));
      FinishReturnsFirstFinished(self, limit - 1, next, calls + 1, k - 1);
    }
  }

  /**
   * A new, unfinished progress object polled with the default budget of 20
   * against results that never finish is returned unchanged after 20 calls.
   */
  lemma NewProgressDefaultBudget<T>(next: Next<T>)
    requires forall j :: 0 <= j < 20 ==> next(j).Ok? && !IsFinished(next(j))
    ensures Finish(Initial(), 20, next, 0) == Finished(Ok(Initial()), 20)
  {
    FinishExhaustedReturnsSelf(Initial(), 20, next, 0);
  }
}

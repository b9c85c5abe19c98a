/**
 * A Ticket stands for one command sent to the command socket: it is BUSY
 * until the receiver routes the matching reply to it, and its final state
 * decides what `wait` returns or raises.
 */
module Tickets {
  import opened Wire

  /** Ticket.State: BUSY, DONE, HTTP_ERROR and KEBA_ERROR. */
  datatype State = Busy | Done | HttpFailed | KebaFailed

  /**
   * The state a matching reply with `status` leaves: 200, 400 and 900 select
   * a final state, any other status leaves the state as it was.
   */
  function Transition(st: State, status: int): (r: State)
    ensures status == 200 ==> r == Done
    ensures status == 400 ==> r == HttpFailed
    ensures status == 900 ==> r == KebaFailed
    ensures status != 200 && status != 400 && status != 900 ==> r == st
    ensures r == Busy <==> st == Busy && status != 200 && status != 400 && status != 900
  {
    if status == 200 then Done
    else if status == 400 then HttpFailed
    else if status == 900 then KebaFailed
    else st
  }

  /** What a call of `wait` ends in: a return value, an exception, or no end yet. */
  datatype WaitOutcome = Returned(value: Json) | Raised(error: Error) | StillBlocked

  /**
   * The outcome of `wait` once its condition wait is over, from the ticket's
   * state and stored reply. `hasTimeout` is whether a timeout was given: a
   * ticket still BUSY then times out, and without one the caller stays
   * blocked. `noResult` is what a DONE ticket without `result` yields
   * (None, or the legacy sentinel string).
   */
  function Outcome(st: State, response: Option<Reply>, hasTimeout: bool, noResult: Json): (r: WaitOutcome)
    ensures r.StillBlocked? <==> st == Busy && !hasTimeout
    ensures r == Raised(TimeoutError(TimeoutMessage)) <==> st == Busy && hasTimeout
    ensures st != Busy && response.None? ==> r == Raised(TypeError)
    ensures r.Returned? <==> st == Done && response.Some?
    ensures r.Returned? ==>
              r.value == if response.value.result.Some? then response.value.result.value else noResult
    ensures (st == HttpFailed || st == KebaFailed) && response.Some? ==>
              r == match response.value.error
                   case None => Raised(KeyError("error"))
                   case Some(e) =>
                     if st == HttpFailed then Raised(HttpError("Request Error: " + e))
                     else Raised(KebaError("Keba Error: " + e))
  {
    if st == Busy then
      (if hasTimeout then Raised(TimeoutError(TimeoutMessage)) else StillBlocked)
    else if response.None? then
      Raised(TypeError)     // subscripting None
    else if st == HttpFailed then
      (match response.value.error
       case Some(e) => Raised(HttpError("Request Error: " + e))
       case None => Raised(KeyError("error")))
    else if st == KebaFailed then
      (match response.value.error
       case Some(e) => Raised(KebaError("Keba Error: " + e))
       case None => Raised(KeyError("error")))
    else
      assert st == Done;
      (match response.value.result
       case Some(v) => Returned(v)
       case None => Returned(noResult))
  }

  class Ticket {
    /** The request id; `requestid()` reads it without the lock because it never changes. */
    const id: nat
    var state: State
    var response: Option<Reply>

    constructor (id: nat)
      ensures this.id == id && state == Busy && response == None
    {
      this.id := id;
      state := Busy;
      response := None;
    }

    /**
     * `_route_mux_locked`: a reply whose `response` is this ticket's id is
     * stored and selects the new state, and the call reports a match; any
     * other reply is not a match and changes nothing. A missing key raises
     * before anything changes.
     */
    method RouteMux(f: Reply) returns (r: Result<bool>)
      modifies this
      ensures f.response.None? ==> r == Err(KeyError("response")) && unchanged(this)
      ensures f.response.Some? && f.response.value != id ==> r == Ok(false) && unchanged(this)
      ensures f.response == Some(id) && f.status.None? ==> r == Err(KeyError("status")) && unchanged(this)
      ensures f.response == Some(id) && f.status.Some? ==>
                r == Ok(true) && state == Transition(old(state), f.status.value) && response == Some(f)
    {
      if f.response.None? {
        return Err(KeyError("response"));
      }
      if f.response.value != id {
        return Ok(false);
      }
      if f.status.None? {
        return Err(KeyError("status"));
      }
      var status := f.status.value;
      if status == 200 {
        state := Done;
      } else if status == 400 {
        state := HttpFailed;
      } else if status == 900 {
        state := KebaFailed;
      }
      response := Some(f);
      return Ok(true);
    }

    /** `wait` (keapi): a DONE ticket without `result` returns None. */
    method Wait(hasTimeout: bool) returns (o: WaitOutcome)
      ensures o == Outcome(state, response, hasTimeout, JNull)
    {
      o := Outcome(state, response, hasTimeout, JNull);
    }
  }

  /** `wait` ends without a result (timeout, or still blocked) exactly when the ticket is BUSY. */
  lemma UnfinishedIffBusy(st: State, response: Option<Reply>, hasTimeout: bool, noResult: Json)
    ensures var o := Outcome(st, response, hasTimeout, noResult);
            (o.StillBlocked? || o == Raised(TimeoutError(TimeoutMessage))) <==> st == Busy
  {
  }

  /**
   * Routing a reply to a BUSY ticket and then waiting: 200 returns the
   * result (or `noResult`), 400 and 900 raise the matching error carrying
   * the reply's `error` text, and any other status leaves the ticket
   * unfinished.
   */
  lemma RoutedOutcome(f: Reply, s: int, hasTimeout: bool, noResult: Json)
    requires f.status == Some(s)
    ensures var o := Outcome(Transition(Busy, s), Some(f), hasTimeout, noResult);
      && (s == 200 ==> o == Returned(if f.result.Some? then f.result.value else noResult))
      && (s == 400 && f.error.Some? ==> o == Raised(HttpError("Request Error: " + f.error.value)))
      && (s == 900 && f.error.Some? ==> o == Raised(KebaError("Keba Error: " + f.error.value)))
      && (s != 200 && s != 400 && s != 900 ==>
            o == (if hasTimeout then Raised(TimeoutError(TimeoutMessage)) else StillBlocked))
  {
  }
}

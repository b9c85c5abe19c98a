/**
 * The command correlation engine of keapi/_command_server.py. Each block the
 * source runs under `self._lock` is one atomic method here; the socket's
 * `send` appends to `sent`, and the receiver thread's loop body is
 * `ReceiverPass`, applied to one already decoded reply.
 */
module Commands {
  import opened Wire
  import opened Tickets
  import Lists

  /** Where the receiver's scan of `ts` stops for a reply to request `r`: the first ticket with that id. */
  function FirstMatch(ts: seq<Ticket>, r: int): (k: Option<nat>)
    ensures k.Some? ==> k.value < |ts| && ts[k.value].id == r
    ensures k.Some? ==> forall j :: 0 <= j < k.value ==> ts[j].id != r
    ensures k.None? ==> forall j :: 0 <= j < |ts| ==> ts[j].id != r
  {
    if |ts| == 0 then None
    else if ts[0].id == r then Some(0)
    else
      match FirstMatch(ts[1..], r)
      case None => None
      case Some(j) => Some(j + 1)
  }

  /** Ticket ids strictly increase along the list, so no id is listed twice. */
  ghost predicate Increasing(ts: seq<Ticket>)
  {
    forall i, j :: 0 <= i < j < |ts| ==> ts[i].id < ts[j].id
  }

  /** `inbound[k]` is the first reply in `inbound` addressed to request `id`. */
  ghost predicate FirstReplyFor(inbound: seq<Reply>, k: nat, id: int)
  {
    k < |inbound| && inbound[k].response == Some(id) &&
    forall j :: 0 <= j < k ==> inbound[j].response != Some(id)
  }

  /** Every reply in `inbound` carries both `response` and `status`, so none of them ends the receiver. */
  ghost predicate WellFormed(inbound: seq<Reply>)
  {
    forall j :: 0 <= j < |inbound| ==> inbound[j].response.Some? && inbound[j].status.Some?
  }

  /** Some reply in `inbound` is addressed to request `id`. */
  ghost predicate Addressed(inbound: seq<Reply>, id: int)
  {
    exists j :: 0 <= j < |inbound| && inbound[j].response == Some(id)
  }

  /** No ticket object is listed twice. */
  ghost predicate Distinct(ts: seq<Ticket>)
  {
    forall i, j :: 0 <= i < j < |ts| ==> ts[i] != ts[j]
  }

  /**
   * Dropping the element at `k` keeps the others in their order, keeps the
   * list free of repeats and keeps ids increasing.
   */
  lemma RemoveAt(ts: seq<Ticket>, k: nat)
    requires k < |ts|
    ensures var r := ts[..k] + ts[k + 1..];
      && |r| == |ts| - 1
      && (forall i :: 0 <= i < |r| ==> r[i] == if i < k then ts[i] else ts[i + 1])
      && (forall u :: u in r ==> u in ts)
      && (Distinct(ts) ==> Distinct(r) && ts[k] !in r)
      && (Increasing(ts) ==> Increasing(r))
  {
    var r := ts[..k] + ts[k + 1..];
    assert forall i :: 0 <= i < |r| ==> r[i] == if i < k then ts[i] else ts[i + 1];
    forall u | u in r ensures u in ts {
      var i :| 0 <= i < |r| && r[i] == u;
      assert u == if i < k then ts[i] else ts[i + 1];
    }
  }

  /** Removing the element at `k` keeps every other element of the list. */
  lemma RemovedKeepsOthers(ts: seq<Ticket>, k: nat, t: Ticket)
    requires k < |ts| && t in ts && t != ts[k]
    ensures t in ts[..k] + ts[k + 1..]
  {
    var m :| 0 <= m < |ts| && ts[m] == t;
    if m < k {
      assert (ts[..k] + ts[k + 1..])[m] == t;
    } else {
      assert (ts[..k] + ts[k + 1..])[m - 1] == t;
    }
  }

  /**
   * Removing the ticket at `k`, the one listed with id `id`, from a list
   * with increasing ids removes exactly the ticket with that id and keeps
   * every other one.
   */
  lemma PassEffect(ts: seq<Ticket>, k: nat, t: Ticket, id: int)
    requires k < |ts| && ts[k].id == id && Increasing(ts) && t in ts
    ensures t.id == id ==> t == ts[k]
    ensures t in ts[..k] + ts[k + 1..] <==> t.id != id
    ensures forall u :: u in ts && u.id != id ==> u in ts[..k] + ts[k + 1..]
  {
    RemoveAt(ts, k);
    if t.id == id {
      var m :| 0 <= m < |ts| && ts[m] == t;
      assert m == k;
    } else {
      RemovedKeepsOthers(ts, k, t);
    }
    forall u | u in ts && u.id != id
      ensures u in ts[..k] + ts[k + 1..]
    {
      RemovedKeepsOthers(ts, k, u);
    }
  }

  class CommandServer {
    /** `_rec_id_counter`: the last request id handed out. */
    var counter: nat
    /** `_ticket_list`: the pending tickets, oldest first. */
    var tickets: seq<Ticket>
    /** Every frame handed to the socket's `send`, in order. */
    var sent: seq<Request>
    /** The receiver thread is running. */
    var running: bool

    /**
     * Each ticket is listed once, and every listed ticket is still BUSY and
     * has no reply: a resolved ticket leaves the list at once.
     */
    ghost predicate AllPending()
      reads this, tickets
    {
      && Distinct(tickets)
      && forall i :: 0 <= i < |tickets| ==> tickets[i].state == Busy && tickets[i].response.None?
    }

    /** The table invariant on one connection: ids increase, lie in 1..counter, and all are pending. */
    ghost predicate Valid()
      reads this, tickets
    {
      && Increasing(tickets)
      && (forall i :: 0 <= i < |tickets| ==> 1 <= tickets[i].id <= counter)
      && AllPending()
    }

    /** `__init__`. */
    constructor ()
      ensures Valid() && counter == 0 && tickets == [] && sent == [] && !running
    {
      counter := 0;
      tickets := [];
      sent := [];
      running := false;
    }

    /**
     * `_connect` (and the legacy `connect`): the counter is reset before the
     * handshake reply is read; a status other than 200 raises and leaves the
     * receiver as it was, 200 starts it. The ticket list is not cleared, so
     * the invariant holds afterwards only when nothing was pending.
     */
    method Connect(handshake: Reply) returns (r: Option<Error>)
      modifies this
      ensures counter == 0 && tickets == old(tickets) && sent == old(sent)
      ensures handshake.status.None? ==> r == Some(KeyError("status")) && running == old(running)
      ensures handshake.status.Some? && handshake.status.value != 200 ==>
                r == Some(HttpError(HandshakeMessage)) && running == old(running)
      ensures handshake.status == Some(200) ==> r == None && running
      ensures old(AllPending()) ==> AllPending()
      ensures old(tickets) == [] ==> Valid()
    {
      counter := 0;
      if handshake.status.None? {
        return Some(KeyError("status"));
      }
      if handshake.status.value != 200 {
        return Some(HttpError(HandshakeMessage));
      }
      running := true;
      return None;
    }

    /** `disconnect`: the receiver stops; pending tickets stay listed and are never resolved. */
    method Disconnect()
      modifies this
      ensures !running && counter == old(counter) && tickets == old(tickets) && sent == old(sent)
    {
      running := false;
    }

    /**
     * `start` (and the legacy `exec_async`): the next id is allocated, a BUSY
     * ticket with that id is appended, and the request `{request, cmd,
     * args?}` is sent, with `args` only when keyword arguments were given.
     */
    method Start(cmd: string, args: map<string, Json>) returns (t: Ticket)
      modifies this
      ensures counter == old(counter) + 1
      ensures fresh(t) && t.id == counter && t.state == Busy && t.response.None?
      ensures tickets == old(tickets) + [t]
      ensures sent == old(sent) + [CommandRequest(counter, cmd, if |args| > 0 then Some(args) else None)]
      ensures running == old(running)
      ensures old(AllPending()) ==> AllPending()
      ensures old(Valid()) ==> Valid()
    {
      counter := counter + 1;
      t := new Ticket(counter);
      tickets := tickets + [t];
      var data := CommandRequest(counter, cmd, if |args| > 0 then Some(args) else None);
      sent := sent + [data];
    }

    /**
     * The scan of one receiver pass: `_route_mux_locked` is tried on each
     * listed ticket in order until one reports a match. The result is the
     * matched position, whose ticket has taken the reply, or no match, or
     * the KeyError that a missing key raises before anything changes.
     */
    method Scan(f: Reply) returns (r: Result<Option<nat>>)
      requires AllPending()
      modifies tickets
      ensures r.Err? ==>
                && tickets != []
                && AllPending()
                && (if f.response.None? then r.error == KeyError("response")
                    else FirstMatch(tickets, f.response.value).Some? && f.status.None? && r.error == KeyError("status"))
      ensures r == Ok(None) ==>
                AllPending() && (tickets == [] || (f.response.Some? && FirstMatch(tickets, f.response.value).None?))
      ensures r.Ok? && r.value.Some? ==>
                var k := r.value.value;
                && f.response.Some? && FirstMatch(tickets, f.response.value) == Some(k) && f.status.Some?
                && tickets[k].state == Transition(Busy, f.status.value) && tickets[k].response == Some(f)
                && Distinct(tickets)
                && forall j :: 0 <= j < |tickets| && j != k ==> tickets[j].state == Busy && tickets[j].response.None?
    {
      var i := 0;
      while i < |tickets|
        invariant 0 <= i <= |tickets|
        invariant i > 0 ==> f.response.Some?
        invariant f.response.Some? ==> forall j :: 0 <= j < i ==> tickets[j].id != f.response.value
        invariant AllPending()
        decreases |tickets| - i
      {
        var m := tickets[i].RouteMux(f);
        if m.Err? {
          return Err(m.error);
        }
        if m.value {
          return Ok(Some(i));
        }
        i := i + 1;
      }
      return Ok(None);
    }

    /**
     * One pass of the receiver loop `_thread_fun` for reply `f`: the first
     * listed ticket whose id is `f.response` takes the reply and leaves the
     * list, whatever state the reply left it in; the other tickets keep
     * their order and are untouched. A reply that matches no ticket changes
     * nothing. A missing key raises inside the thread, which ends it.
     */
    method ReceiverPass(f: Reply) returns (r: Result<bool>)
      requires AllPending() && running
      modifies this, tickets
      ensures AllPending()
      ensures counter == old(counter) && sent == old(sent)
      ensures forall u :: u in tickets ==> u in old(tickets)
      ensures r == Ok(true) <==>
                f.response.Some? && FirstMatch(old(tickets), f.response.value).Some? && f.status.Some?
      ensures r.Err? <==>
                old(tickets) != [] &&
                (f.response.None? || (FirstMatch(old(tickets), f.response.value).Some? && f.status.None?))
      ensures r.Err? ==> r.error == if f.response.None? then KeyError("response") else KeyError("status")
      ensures running == !r.Err?
      ensures r != Ok(true) ==> tickets == old(tickets)
      ensures r == Ok(true) ==>
                var k := FirstMatch(old(tickets), f.response.value).value;
                && tickets == old(tickets)[..k] + old(tickets)[k + 1..]
                && old(tickets)[k].state == Transition(Busy, f.status.value)
                && old(tickets)[k].response == Some(f)
    {
      var s := Scan(f);
      if s.Err? {
        running := false;
        return Err(s.error);
      }
      if s.value.None? {
        return Ok(false);
      }
      Drop(s.value.value);
      return Ok(true);
    }

    /**
     * `self._ticket_list.remove(t)` for the ticket at `k`, the first listed
     * ticket with its id: the other tickets keep their order.
     */
    method Drop(k: nat)
      requires k < |tickets| && Distinct(tickets)
      requires forall j :: 0 <= j < |tickets| && j != k ==> tickets[j].state == Busy && tickets[j].response.None?
      modifies this
      ensures tickets == old(tickets)[..k] + old(tickets)[k + 1..]
      ensures counter == old(counter) && sent == old(sent) && running == old(running)
      ensures AllPending()
      ensures forall u :: u in tickets ==> u in old(tickets)
      ensures Increasing(old(tickets)) ==> Increasing(tickets)
    {
      var t := tickets[k];
      Lists.RemoveFirstAt(tickets, k);
      RemoveAt(tickets, k);
      tickets := Lists.RemoveFirst(tickets, t);
      assert forall i :: 0 <= i < |tickets| ==> tickets[i] == if i < k then old(tickets)[i] else old(tickets)[i + 1];
    }

    /**
     * One receiver pass as a caller blocked on `t` sees it: `t` leaves the
     * list, resolved by `f`, exactly when `f` is a reply to `t` that has a
     * status; a reply to `t` without one ends the receiver instead.
     */
    method PassFor(t: Ticket, f: Reply)
      requires Valid() && running && t in tickets
      modifies this, set u | u in tickets
      ensures Valid() && counter == old(counter) && sent == old(sent)
      ensures forall u :: u in tickets ==> u in old(tickets)
      ensures t in tickets <==> !(f.response == Some(t.id) && f.status.Some?)
      ensures t !in tickets ==> t.response == Some(f) && t.state == Transition(Busy, f.status.value)
      ensures f.response == Some(t.id) && t in tickets ==> !running
      ensures forall u :: u in old(tickets) && Some(u.id) != f.response ==> u in tickets
      ensures f.response.Some? && f.status.Some? ==> running
    {
      ghost var before := tickets;
      var r := ReceiverPass(f);
      if r == Ok(true) {
        var k := FirstMatch(before, f.response.value).value;
        PassEffect(before, k, t, f.response.value);
        RemoveAt(before, k);
      } else {
        assert tickets == before;
      }
    }

    /**
     * The receiver routing `inbound`, in order, while a caller of `exec` is
     * blocked on `t`; it stops once `t` has left the list or the receiver has
     * died. `t` is resolved, if at all, by the first reply addressed to it;
     * an immediate well-formed reply for `t` does resolve it, and so does a
     * later one when no earlier reply lacked `response` or `status`.
     */
    method Drain(t: Ticket, inbound: seq<Reply>)
      requires Valid() && t in tickets
      modifies this, set u | u in tickets
      ensures Valid() && counter == old(counter) && sent == old(sent)
      ensures t in tickets ==> t.state == Busy && t.response.None?
      ensures t !in tickets ==>
                exists k: nat :: FirstReplyFor(inbound, k, t.id) && inbound[k].status.Some? &&
                            t.response == Some(inbound[k]) && t.state == Transition(Busy, inbound[k].status.value)
      ensures old(running) && |inbound| > 0 && inbound[0].response == Some(t.id) && inbound[0].status.Some? ==>
                t !in tickets
      ensures old(running) && WellFormed(inbound) && Addressed(inbound, t.id) ==> t !in tickets
    {
      var i := 0;
      while i < |inbound| && running && t in tickets
        invariant 0 <= i <= |inbound|
        invariant Valid() && counter == old(counter) && sent == old(sent)
        invariant forall u :: u in tickets ==> u in old(tickets)
        invariant t in tickets && running ==> forall j :: 0 <= j < i ==> inbound[j].response != Some(t.id)
        invariant t !in tickets ==>
                    exists k: nat :: FirstReplyFor(inbound, k, t.id) && inbound[k].status.Some? &&
                                t.response == Some(inbound[k]) && t.state == Transition(Busy, inbound[k].status.value)
        invariant i == 0 ==> t in tickets && running == old(running)
        invariant old(running) && |inbound| > 0 && inbound[0].response == Some(t.id) && inbound[0].status.Some? && i > 0 ==>
                    t !in tickets
        invariant old(running) && WellFormed(inbound) ==> running
        decreases |inbound| - i
      {
        PassFor(t, inbound[i]);
        if t !in tickets {
          assert FirstReplyFor(inbound, i, t.id);
        }
        i := i + 1;
      }
    }

    /**
     * `exec`: `start` followed by a `wait` without timeout, while the
     * receiver routes `inbound`. The outcome is that of the first reply
     * addressed to the new request, or the caller is still blocked.
     */
    method Exec(cmd: string, args: map<string, Json>, inbound: seq<Reply>) returns (o: WaitOutcome)
      requires Valid()
      modifies this, set u | u in tickets
      ensures Valid() && counter == old(counter) + 1
      ensures sent == old(sent) + [CommandRequest(counter, cmd, if |args| > 0 then Some(args) else None)]
      ensures o.StillBlocked? ||
              exists k: nat :: FirstReplyFor(inbound, k, counter) && inbound[k].status.Some? &&
                          o == Outcome(Transition(Busy, inbound[k].status.value), Some(inbound[k]), false, JNull)
      ensures old(running) && |inbound| > 0 && inbound[0].response == Some(counter) && inbound[0].status.Some? ==>
                o == Outcome(Transition(Busy, inbound[0].status.value), Some(inbound[0]), false, JNull)
      ensures old(running) && WellFormed(inbound) && Addressed(inbound, counter) ==>
                exists k: nat :: FirstReplyFor(inbound, k, counter) &&
                            o == Outcome(Transition(Busy, inbound[k].status.value), Some(inbound[k]), false, JNull)
    {
      var t := Start(cmd, args);
      Drain(t, inbound);
      o := t.Wait(false);
    }
  }

  // Round trips through a freshly connected server, one per documented outcome.

  /** A new server whose handshake reply had status 200. */
  method Connected() returns (s: CommandServer)
    ensures fresh(s) && s.Valid() && s.running && s.counter == 0 && s.tickets == [] && s.sent == []
  {
    s := new CommandServer();
    var _ := s.Connect(Reply(None, Some(200), None, None));
  }

  /** A reply with status 200 and a result makes `exec` return that result. */
  method ExecReturnsResult(cmd: string, v: Json) returns (o: WaitOutcome)
    ensures o == Returned(v)
  {
    var s := Connected();
    var reply := Reply(Some(1), Some(200), Some(v), None);
    o := s.Exec(cmd, map[], [reply]);
    RoutedOutcome(reply, 200, false, JNull);
  }

  /** A reply with status 400 makes `exec` raise HttpError with the reply's error text. */
  method ExecRaisesHttpError(cmd: string, msg: string) returns (o: WaitOutcome)
    ensures o == Raised(HttpError("Request Error: " + msg))
  {
    var s := Connected();
    var reply := Reply(Some(1), Some(400), None, Some(msg));
    o := s.Exec(cmd, map[], [reply]);
    RoutedOutcome(reply, 400, false, JNull);
  }

  /** A reply with status 900 makes `exec` raise KebaError with the reply's error text. */
  method ExecRaisesKebaError(cmd: string, msg: string) returns (o: WaitOutcome)
    ensures o == Raised(KebaError("Keba Error: " + msg))
  {
    var s := Connected();
    var reply := Reply(Some(1), Some(900), None, Some(msg));
    o := s.Exec(cmd, map[], [reply]);
    RoutedOutcome(reply, 900, false, JNull);
  }

  /**
   * A reply to another request ahead of the one for the new request is
   * passed over: `exec` still returns the result addressed to it.
   */
  method ExecSkipsForeignReply(cmd: string, u: Json, v: Json) returns (o: WaitOutcome)
    ensures o == Returned(v)
  {
    var s := Connected();
    var foreign := Reply(Some(7), Some(200), Some(u), None);
    var reply := Reply(Some(1), Some(200), Some(v), None);
    o := s.Exec(cmd, map[], [foreign, reply]);
    assert [foreign, reply][1] == reply;
    RoutedOutcome(reply, 200, false, JNull);
  }

  /** `wait` with a timeout on a ticket that no reply has reached raises TimeoutError. */
  method WaitTimesOut(cmd: string) returns (o: WaitOutcome)
    ensures o == Raised(TimeoutError(TimeoutMessage))
  {
    var s := Connected();
    var t := s.Start(cmd, map[]);
    o := t.Wait(true);
  }

  /** A connected server with two requests in flight, ids 1 and 2. */
  method TwoPending() returns (s: CommandServer, t1: Ticket, t2: Ticket)
    ensures fresh(s) && fresh(t1) && fresh(t2)
    ensures s.Valid() && s.running && s.tickets == [t1, t2] && t1.id == 1 && t2.id == 2
  {
    s := Connected();
    t1 := s.Start("first", map[]);
    t2 := s.Start("second", map[]);
  }

  /**
   * Two requests answered in reverse order: each waiter, woken after the
   * pass that routes its reply, gets the result of its own request id.
   */
  method RepliesOutOfOrder(a: Json, b: Json) returns (first: WaitOutcome, second: WaitOutcome)
    ensures first == Returned(a) && second == Returned(b)
  {
    var s, t1, t2 := TwoPending();
    s.PassFor(t2, Reply(Some(2), Some(200), Some(b), None));
    second := t2.Wait(true);
    s.PassFor(t1, Reply(Some(1), Some(200), Some(a), None));
    first := t1.Wait(true);
  }

  /**
   * A reply with a status other than 200, 400 and 900 counts as a match:
   * the ticket leaves the list still BUSY, so no later reply can reach it
   * and every `wait` on it times out (or, without timeout, never returns).
   */
  method UnknownStatusStrandsTicket(status: int, v: Json) returns (matched: Result<bool>, listed: bool, o: WaitOutcome, late: Result<bool>, lateWait: WaitOutcome)
    requires status != 200 && status != 400 && status != 900
    ensures matched == Ok(true) && !listed
    ensures o == Raised(TimeoutError(TimeoutMessage))
    ensures late == Ok(false)
    ensures lateWait == o
  {
    var s := Connected();
    var t := s.Start("cmd", map[]);
    assert s.tickets == [t];
    assert FirstMatch(s.tickets, 1) == Some(0);
    matched := s.ReceiverPass(Reply(Some(1), Some(status), None, None));
    assert s.tickets == [];
    listed := t in s.tickets;
    o := t.Wait(true);
    assert FirstMatch(s.tickets, 1) == None;
    late := s.ReceiverPass(Reply(Some(1), Some(200), Some(v), None));
    assert late.Ok? && !late.value;
    lateWait := t.Wait(true);
  }

  /**
   * Disconnecting and connecting again resets the counter but keeps pending
   * tickets, so a new request reuses a pending id and its reply resolves
   * the older ticket.
   */
  method ReconnectMisroutes(v: Json) returns (sameId: bool, older: WaitOutcome, newer: WaitOutcome)
    ensures sameId
    ensures older == Returned(v) && newer == Raised(TimeoutError(TimeoutMessage))
  {
    var s := Connected();
    var t1 := s.Start("before", map[]);
    s.Disconnect();
    var _ := s.Connect(Reply(None, Some(200), None, None));
    var t2 := s.Start("after", map[]);
    sameId := t1.id == t2.id;
    assert s.tickets == [t1, t2] && t1 != t2;
    assert FirstMatch(s.tickets, t2.id) == Some(0);
    var _ := s.ReceiverPass(Reply(Some(t2.id), Some(200), Some(v), None));
    assert s.tickets == [t2];
    assert t1.state == Done && t2.state == Busy;
    older := t1.Wait(true);
    newer := t2.Wait(true);
  }
}

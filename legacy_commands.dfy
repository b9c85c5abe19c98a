/**
 * The older command_server.py. Its CommandServer and Ticket run the same
 * locked blocks as keapi/_command_server.py (`connect`, `exec_async` and the
 * receiver loop are `Connect`, `Start` and `ReceiverPass` of
 * Commands.CommandServer); what differs is modelled here: `wait` returns a
 * sentinel string for a finished command without result, and the class
 * attribute `instance` allows only one server per process.
 */
module LegacyCommands {
  import opened Wire
  import opened Tickets
  import opened Commands

  /** What the legacy `wait` returns for a DONE ticket whose reply has no `result`. */
  const Sentinel := "DONE... Schau ma mal"

  /** Legacy `Ticket.wait`. */
  method Wait(t: Ticket, hasTimeout: bool) returns (o: WaitOutcome)
    ensures o == Outcome(t.state, t.response, hasTimeout, JStr(Sentinel))
    ensures t.state == Done && t.response.Some? && t.response.value.result.None? ==>
              o == Returned(JStr(Sentinel))
  {
    o := Outcome(t.state, t.response, hasTimeout, JStr(Sentinel));
  }

  /** The two versions of `wait` differ only for a DONE ticket whose reply lacks `result`. */
  lemma WaitVersionsDiffer(st: State, response: Option<Reply>, hasTimeout: bool)
    ensures (Outcome(st, response, hasTimeout, JNull) != Outcome(st, response, hasTimeout, JStr(Sentinel)))
            <==> st == Done && response.Some? && response.value.result.None?
  {
  }

  /**
   * `exec_sync`: `exec_async` followed by a `wait` without timeout while the
   * receiver routes `inbound`; the outcome is that of the first reply to
   * the new request id, with the sentinel for a success without result.
   */
  method ExecSync(s: CommandServer, cmd: string, args: map<string, Json>, inbound: seq<Reply>) returns (o: WaitOutcome)
    requires s.Valid()
    modifies s, set u | u in s.tickets
    ensures s.Valid() && s.counter == old(s.counter) + 1
    ensures s.sent == old(s.sent) + [CommandRequest(s.counter, cmd, if |args| > 0 then Some(args) else None)]
    ensures o.StillBlocked? ||
            exists k: nat :: FirstReplyFor(inbound, k, s.counter) && inbound[k].status.Some? &&
                        o == Outcome(Transition(Busy, inbound[k].status.value), Some(inbound[k]), false, JStr(Sentinel))
    ensures old(s.running) && |inbound| > 0 && inbound[0].response == Some(s.counter) && inbound[0].status.Some? ==>
              o == Outcome(Transition(Busy, inbound[0].status.value), Some(inbound[0]), false, JStr(Sentinel))
    ensures old(s.running) && WellFormed(inbound) && Addressed(inbound, s.counter) ==>
              exists k: nat :: FirstReplyFor(inbound, k, s.counter) &&
                          o == Outcome(Transition(Busy, inbound[k].status.value), Some(inbound[k]), false, JStr(Sentinel))
  {
    var t := s.Start(cmd, args);
    s.Drain(t, inbound);
    o := Wait(t, false);
  }

  /** A success reply without `result` makes `exec_sync` return the sentinel. */
  method ExecSyncWithoutResult(cmd: string) returns (o: WaitOutcome)
    ensures o == Returned(JStr(Sentinel))
  {
    var s := new CommandServer();
    var _ := s.Connect(Reply(None, Some(200), None, None));
    var t := s.Start(cmd, map[]);
    assert s.tickets == [t] && FirstMatch(s.tickets, 1) == Some(0);
    var _ := s.ReceiverPass(Reply(Some(1), Some(200), None, None));
    o := Wait(t, true);
  }

  /** The class `CommandServer` itself, holding the class attribute `instance`. */
  class ServerClass {
    var instance: CommandServer?

    constructor ()
      ensures instance == null
    {
      instance := null;
    }

    /**
     * `CommandServer()`: the constructor asserts that no server exists yet
     * and records the new one as `instance`; a second construction fails.
     */
    method Construct() returns (r: Result<CommandServer>)
      modifies this
      ensures old(instance) == null ==>
                r.Ok? && fresh(r.value) && instance == r.value &&
                r.value.Valid() && r.value.counter == 0 && r.value.tickets == [] && r.value.sent == []
      ensures old(instance) != null ==> r == Err(AssertionError) && instance == old(instance)
    {
      if instance != null {
        return Err(AssertionError);
      }
      var s := new CommandServer();
      instance := s;
      return Ok(s);
    }
  }

  /** Constructing a second server raises AssertionError and keeps the first one. */
  method SecondServerFails() returns (first: Result<CommandServer>, second: Result<CommandServer>)
    ensures first.Ok? && second == Err(AssertionError)
  {
    var cls := new ServerClass();
    first := cls.Construct();
    second := cls.Construct();
  }
}

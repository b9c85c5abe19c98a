/**
 * The older subscribe_server.py. Its SubscribeServer runs the same locked
 * `subscribe`, `unsubscribe` and `disconnect` blocks as
 * keapi/_subscribe_server.py (modelled by Subscribe.SubscribeServer); what
 * differs is modelled here: dispatch looks the topic up without checking
 * it, the class keeps a single `_instance`, and module-level functions
 * guard each operation on the connected flag.
 */
module LegacySubscribe {
  import opened Wire
  import opened Subscriptions
  import opened Subscribe

  const AlreadyConnected := "Already connected. Can not connect twice"
  const AlreadyDisconnected := "Already disconnected"
  const NotConnected := "No connection to server established"

  /**
   * Legacy `_message_handler`: a push with a registered topic calls each of
   * its callbacks once, in order; a push without a topic calls nothing; a
   * push for an unregistered topic raises KeyError before calling anything.
   */
  method MessageHandler(s: SubscribeServer, p: Push) returns (r: Result<seq<Call>>)
    ensures p.topic.None? ==> r == Ok([])
    ensures p.topic.Some? && p.topic.value !in s.subs ==> r == Err(KeyError(p.topic.value))
    ensures p.topic.Some? && p.topic.value in s.subs ==> r == Ok(Calls(s.subs[p.topic.value], p))
  {
    if p.topic.None? {
      return Ok([]);
    }
    var topic := p.topic.value;
    if topic !in s.subs {
      return Err(KeyError(topic));
    }
    var cbs := s.subs[topic];
    var calls := [];
    var i := 0;
    while i < |cbs|
      invariant 0 <= i <= |cbs|
      invariant |calls| == i
      invariant forall j :: 0 <= j < i ==> calls[j] == Call(cbs[j], p)
    {
      calls := calls + [Call(cbs[i], p)];
      i := i + 1;
    }
    assert calls == Calls(cbs, p);
    return Ok(calls);
  }

  /** Both dispatchers make the same calls whenever the legacy one does not raise. */
  lemma DispatchersAgree(t: Table, p: Push)
    ensures p.topic.None? || p.topic.value in t ==>
              Fanout(t, p) == (if p.topic.None? then [] else Calls(t[p.topic.value], p))
    ensures p.topic.Some? && p.topic.value !in t ==> Fanout(t, p) == []
  {
  }

  /** The class `SubscribeServer` itself, holding the class attribute `_instance`. */
  class ServerClass {
    var instance: SubscribeServer?

    constructor ()
      ensures instance == null
    {
      instance := null;
    }

    /** `SubscribeServer()`: asserts no server exists yet and records the new one. */
    method Construct() returns (r: Result<SubscribeServer>)
      modifies this
      ensures old(instance) == null ==>
                r.Ok? && fresh(r.value) && instance == r.value &&
                r.value.Valid() && r.value.subs == map[] && r.value.sent == [] && !r.value.connected && !r.value.running
      ensures old(instance) != null ==> r == Err(AssertionError) && instance == old(instance)
    {
      if instance != null {
        return Err(AssertionError);
      }
      var s := new SubscribeServer();
      instance := s;
      return Ok(s);
    }

    /** `instance()`: the one server, constructed on first use. */
    method Instance() returns (s: SubscribeServer)
      modifies this
      ensures s == instance
      ensures old(instance) != null ==> s == old(instance)
      ensures old(instance) == null ==>
                fresh(s) && s.Valid() && s.subs == map[] && s.sent == [] && !s.connected && !s.running
    {
      if instance == null {
        var r := Construct();
      }
      return instance;
    }

    /** `connect_to_socket`: refuses when the server already reports a connection. */
    method ConnectToSocket() returns (e: Option<Error>)
      modifies this, instance
      ensures instance != null
      ensures old(instance) != null ==> instance == old(instance)
      ensures old(instance) == null ==> fresh(instance)
      ensures old(instance) != null && old(instance.connected) ==>
                e == Some(SocketError(AlreadyConnected)) && instance.running == old(instance.running)
      ensures old(instance) == null || !old(instance.connected) ==> e == None && instance.running
      ensures instance.subs == (if old(instance) == null then map[] else old(instance.subs))
      ensures instance.connected == (old(instance) != null && old(instance.connected))
      ensures instance.sent == (if old(instance) == null then [] else old(instance.sent))
    {
      var s := Instance();
      if s.connected {
        return Some(SocketError(AlreadyConnected));
      }
      s.Connect();
      return None;
    }

    /** `disconnect_from_socket`: refuses unless the server reports a connection. */
    method DisconnectFromSocket() returns (e: Option<Error>)
      modifies this, instance
      ensures instance != null
      ensures old(instance) != null ==> instance == old(instance)
      ensures old(instance) == null ==> fresh(instance)
      ensures old(instance) == null || !old(instance.connected) ==>
                e == Some(SocketError(AlreadyDisconnected)) &&
                instance.subs == (if old(instance) == null then map[] else old(instance.subs)) &&
                instance.sent == (if old(instance) == null then [] else old(instance.sent)) &&
                !instance.connected &&
                instance.running == (old(instance) != null && old(instance.running))
      ensures old(instance) != null && old(instance.connected) ==>
                e == None && instance.subs == map[] && !instance.connected && !instance.running &&
                instance.sent == old(instance.sent)
    {
      var s := Instance();
      if !s.connected {
        return Some(SocketError(AlreadyDisconnected));
      }
      s.Disconnect();
      return None;
    }

    /** `subscribe_to_topic`: `subscribe` on the server, refused while it is not connected. */
    method SubscribeToTopic(topic: string, func: Option<Callback>, cycleTime: real) returns (e: Option<Error>)
      modifies this, instance
      ensures instance != null
      ensures old(instance) != null ==> instance == old(instance)
      ensures old(instance) == null ==> fresh(instance)
      ensures old(instance) == null || !old(instance.connected) ==>
                e == Some(SocketError(NotConnected)) &&
                instance.subs == (if old(instance) == null then map[] else old(instance.subs)) &&
                instance.sent == (if old(instance) == null then [] else old(instance.sent)) &&
                !instance.connected &&
                instance.running == (old(instance) != null && old(instance.running))
      ensures old(instance) != null && old(instance.connected) ==>
                var c := Subscribed(old(instance.subs), topic, func, cycleTime);
                && instance.subs == c.table && e == c.raised
                && instance.sent == old(instance.sent) + (if c.frame.Some? then [c.frame.value] else [])
                && instance.connected && instance.running == old(instance.running)
    {
      var s := Instance();
      if !s.connected {
        return Some(SocketError(NotConnected));
      }
      e := s.Subscribe(topic, func, cycleTime);
    }

    /** `unsubscribe_to_topic`: `unsubscribe` on the server, refused while it is not connected. */
    method UnsubscribeToTopic(topic: string, func: Option<Callback>) returns (e: Option<Error>)
      modifies this, instance
      ensures instance != null
      ensures old(instance) != null ==> instance == old(instance)
      ensures old(instance) == null ==> fresh(instance)
      ensures old(instance) == null || !old(instance.connected) ==>
                e == Some(SocketError(NotConnected)) &&
                instance.subs == (if old(instance) == null then map[] else old(instance.subs)) &&
                instance.sent == (if old(instance) == null then [] else old(instance.sent)) &&
                !instance.connected &&
                instance.running == (old(instance) != null && old(instance.running))
      ensures old(instance) != null && old(instance.connected) ==>
                var c := Unsubscribed(old(instance.subs), topic, func);
                && instance.subs == c.table && e == c.raised
                && instance.sent == old(instance.sent) + (if c.frame.Some? then [c.frame.value] else [])
                && instance.connected && instance.running == old(instance.running)
    {
      var s := Instance();
      if !s.connected {
        return Some(SocketError(NotConnected));
      }
      e := s.Unsubscribe(topic, func);
    }
  }

  /** `instance()` hands out the same server every time, and a direct construction then fails. */
  method OneServer() returns (a: SubscribeServer, b: SubscribeServer, direct: Result<SubscribeServer>)
    ensures a == b && direct == Err(AssertionError)
  {
    var cls := new ServerClass();
    a := cls.Instance();
    b := cls.Instance();
    direct := cls.Construct();
  }

  /**
   * Before the open hook has fired every guarded call is refused, and
   * after `disconnect_from_socket` the table is empty and the guards refuse
   * again.
   */
  method GuardsFollowFlag(topic: string, f: Callback) returns (early: Option<Error>, ok: Option<Error>, late: Option<Error>)
    ensures early == Some(SocketError(NotConnected))
    ensures ok == None
    ensures late == Some(SocketError(NotConnected))
  {
    var cls := new ServerClass();
    var _ := cls.ConnectToSocket();
    early := cls.SubscribeToTopic(topic, Some(f), 0.0);
    var s := cls.Instance();
    s.OpenHandler();
    ok := cls.SubscribeToTopic(topic, Some(f), 0.0);
    var _ := cls.DisconnectFromSocket();
    late := cls.UnsubscribeToTopic(topic, None);
  }
}

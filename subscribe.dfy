/**
 * The topic dispatch engine of keapi/_subscribe_server.py. Each block the
 * source runs under `self._lock` is one atomic method; the socket's `send`
 * appends to `sent`, and the callbacks a push reaches are returned as the
 * sequence of calls made.
 */
module Subscribe {
  import opened Wire
  import opened Subscriptions

  class SubscribeServer {
    /** `_subscription_dict`. */
    var subs: Table
    /** Every frame handed to the socket's `send`, in order. */
    var sent: seq<Request>
    /** `_is_connected`: set by the open hook, cleared by `disconnect`. */
    var connected: bool
    /** The receiver thread driving the socket's event loop is running. */
    var running: bool

    ghost predicate Valid()
      reads this
    {
      NoEmptyTopics(subs)
    }

    /** `__init__`. */
    constructor ()
      ensures Valid() && subs == map[] && sent == [] && !connected && !running
    {
      subs := map[];
      sent := [];
      connected := false;
      running := false;
    }

    /** `_connect`: the event loop starts; the connected flag waits for the open hook. */
    method Connect()
      modifies this
      ensures running && subs == old(subs) && sent == old(sent) && connected == old(connected)
    {
      running := true;
    }

    /** `_open_handler`, run by the event loop once the socket is open. */
    method OpenHandler()
      modifies this
      ensures connected && subs == old(subs) && sent == old(sent) && running == old(running)
    {
      connected := true;
    }

    /** `disconnect`: every subscription is forgotten and the flag cleared; no unsubscribe frame is sent. */
    method Disconnect()
      modifies this
      ensures Valid() && subs == map[] && sent == old(sent) && !connected && !running
    {
      subs := map[];
      connected := false;
      running := false;
    }

    /**
     * `subscribe`: a null callback is rejected; a new topic gets the list
     * `[func]` and one subscribe frame; a known topic gets `func` appended
     * and no frame, so its cycle time stays the first subscriber's.
     */
    method Subscribe(topic: string, func: Option<Callback>, cycleTime: real) returns (e: Option<Error>)
      modifies this
      ensures var c := Subscribed(old(subs), topic, func, cycleTime);
        && subs == c.table && e == c.raised
        && sent == old(sent) + (if c.frame.Some? then [c.frame.value] else [])
      ensures connected == old(connected) && running == old(running)
      ensures old(Valid()) ==> Valid()
    {
      if func.None? {
        return Some(AssertionError);
      }
      var req: Option<Request> := None;
      if topic in subs {
        subs := subs[topic := subs[topic] + [func.value]];
      } else {
        subs := subs[topic := [func.value]];
        var args := if cycleTime > 0.0 then Some(cycleTime) else None;
        req := Some(SubscribeRequest(0, topic, args));
      }
      if req.Some? {
        sent := sent + [req.value];
      }
      return None;
    }

    /**
     * `unsubscribe`: drops the whole topic, with one unsubscribe frame, when
     * no callback is given or only one is registered; otherwise removes the
     * first occurrence of `func`. An unknown topic or callback raises and
     * changes nothing.
     */
    method Unsubscribe(topic: string, func: Option<Callback>) returns (e: Option<Error>)
      modifies this
      ensures var c := Unsubscribed(old(subs), topic, func);
        && subs == c.table && e == c.raised
        && sent == old(sent) + (if c.frame.Some? then [c.frame.value] else [])
      ensures connected == old(connected) && running == old(running)
      ensures old(Valid()) ==> Valid()
    {
      if topic !in subs {
        return Some(KeyError(topic));
      }
      if func.None? || |subs[topic]| == 1 {
        subs := subs - {topic};
        sent := sent + [UnsubscribeRequest(0, topic)];
        return None;
      }
      if func.value !in subs[topic] {
        return Some(ValueError(NotInList));
      }
      subs := subs[topic := Lists.RemoveFirst(subs[topic], func.value)];
      return None;
    }

    /**
     * `_message_handler`: a push whose topic is registered calls each of its
     * callbacks once, in registration order, with the whole push; any other
     * push calls nothing. The table is left as it was.
     */
    method MessageHandler(p: Push) returns (calls: seq<Call>)
      ensures p.topic.Some? && p.topic.value in subs ==>
                |calls| == |subs[p.topic.value]| &&
                forall i :: 0 <= i < |calls| ==> calls[i] == Call(subs[p.topic.value][i], p)
      ensures p.topic.None? || p.topic.value !in subs ==> calls == []
    {
      calls := [];
      if p.topic.None? {
        return;
      }
      var topic := p.topic.value;
      if topic !in subs {
        return;
      }
      var cbs := subs[topic];
      var i := 0;
      while i < |cbs|
        invariant 0 <= i <= |cbs|
        invariant |calls| == i
        invariant forall j :: 0 <= j < i ==> calls[j] == Call(cbs[j], p)
      {
        calls := calls + [Call(cbs[i], p)];
        i := i + 1;
      }
    }
  }

  /** The dispatcher makes exactly the calls the table prescribes. */
  method DispatchMatchesFanout(s: SubscribeServer, p: Push) returns (calls: seq<Call>)
    ensures calls == Fanout(s.subs, p)
  {
    calls := s.MessageHandler(p);
  }

  /** A connected server on which `f` and then `g` subscribed to `topic`. */
  method TwoSubscribers(topic: string, f: Callback, g: Callback, c1: real, c2: real) returns (s: SubscribeServer)
    ensures fresh(s) && s.Valid() && s.connected
    ensures s.subs == map[topic := [f, g]] && s.sent == [SubscribeFrame(topic, c1)]
  {
    s := new SubscribeServer();
    s.Connect();
    s.OpenHandler();
    var _ := s.Subscribe(topic, Some(f), c1);
    assert s.subs == map[topic := [f]];
    var _ := s.Subscribe(topic, Some(g), c2);
    assert s.subs[topic] == [f, g];
  }

  /**
   * Two subscribers to one topic with different cycle times: one subscribe
   * frame goes out, with the first cycle time, and a push reaches both in
   * subscription order.
   */
  method SubscribeTwice(topic: string, f: Callback, g: Callback, c1: real, c2: real, p: Push)
    returns (frames: seq<Request>, calls: seq<Call>)
    requires p.topic == Some(topic)
    ensures frames == [SubscribeFrame(topic, c1)]
    ensures calls == [Call(f, p), Call(g, p)]
  {
    var s := TwoSubscribers(topic, f, g, c1, c2);
    frames := s.sent;
    calls := s.MessageHandler(p);
  }

  /**
   * Unsubscribing the first of two callbacks by reference keeps the second
   * receiving pushes; unsubscribing the last sends one unsubscribe frame
   * and stops delivery.
   */
  method UnsubscribeInTurn(topic: string, f: Callback, g: Callback, p: Push)
    returns (between: seq<Call>, after: seq<Call>, frames: seq<Request>)
    requires p.topic == Some(topic) && f != g
    ensures between == [Call(g, p)] && after == []
    ensures frames == [SubscribeFrame(topic, 0.0), UnsubscribeRequest(0, topic)]
  {
    var s := TwoSubscribers(topic, f, g, 0.0, 0.0);
    UnsubscribeOneOfTwo(s.subs, topic, f, g, p);
    var _ := s.Unsubscribe(topic, Some(f));
    between := s.MessageHandler(p);
    var _ := s.Unsubscribe(topic, Some(g));
    after := s.MessageHandler(p);
    frames := s.sent;
  }
}

/**
 * The subscription table of the topic dispatch engine as values: what one
 * `subscribe`, `unsubscribe` or inbound push does to the table, which
 * control frame it sends and what it raises. The server classes run these
 * steps under their lock.
 */
module Subscriptions {
  import opened Wire
  import Lists

  /** A registered callback, as an opaque handle (the source compares functions by identity). */
  type Callback = nat

  /** `_subscription_dict`: each topic's callbacks in registration order. */
  type Table = map<string, seq<Callback>>

  /** One invocation `func(json_msg)` made while dispatching a push. */
  datatype Call = Call(callback: Callback, frame: Push)

  /** The effect of one table operation: the new table, the control frame sent, the exception raised. */
  datatype Change = Change(table: Table, frame: Option<Request>, raised: Option<Error>)

  /** The table invariant: a topic is a key exactly when it has at least one callback. */
  ghost predicate NoEmptyTopics(t: Table)
  {
    forall k :: k in t ==> t[k] != []
  }

  /** `a` and `b` agree on every topic but `topic`. */
  ghost predicate SameElsewhere(a: Table, b: Table, topic: string)
  {
    forall k :: k != topic ==> (k in a <==> k in b) && (k in a ==> a[k] == b[k])
  }

  /** The frame a first subscriber sends; `args.cycle_time_s` only for a positive cycle time. */
  function SubscribeFrame(topic: string, cycleTime: real): Request
  {
    SubscribeRequest(0, topic, if cycleTime > 0.0 then Some(cycleTime) else None)
  }

  /** `subscribe` as its documentation describes it (the table updates of keapi/_subscribe_server.py:79-91). */
  function Subscribed(t: Table, topic: string, func: Option<Callback>, cycleTime: real): (r: Change)
    ensures func.None? <==> r.raised.Some?
    ensures func.None? ==> r == Change(t, None, Some(AssertionError))
    ensures func.Some? ==>
              && topic in r.table
              && r.table[topic] == (if topic in t then t[topic] else []) + [func.value]
              && SameElsewhere(r.table, t, topic)
              && (r.frame.Some? <==> topic !in t)
    ensures r.frame.Some? ==>
              && r.frame.value.SubscribeRequest? && r.frame.value.request == 0
              && r.frame.value.subscribe == topic
              && (r.frame.value.cycleTimeS.Some? <==> cycleTime > 0.0)
              && (r.frame.value.cycleTimeS.Some? ==> r.frame.value.cycleTimeS.value == cycleTime)
    ensures NoEmptyTopics(t) ==> NoEmptyTopics(r.table)
  {
    if func.None? then Change(t, None, Some(AssertionError))
    else if topic in t then Change(t[topic := t[topic] + [func.value]], None, None)
    else Change(t[topic := [func.value]], Some(SubscribeFrame(topic, cycleTime)), None)
  }

  /**
   * `subscribe` as written: on a topic that already has callbacks the
   * append happens, and then `if req:` reads a local that this path never
   * bound, which raises UnboundLocalError.
   */
  function SubscribeAsWritten(t: Table, topic: string, func: Option<Callback>, cycleTime: real): (r: Change)
    ensures var c := Subscribed(t, topic, func, cycleTime);
      && r.table == c.table && r.frame == c.frame
      && (r.raised != c.raised <==> func.Some? && topic in t)
      && (r.raised != c.raised ==> r.raised == Some(UnboundLocalError("req")))
  {
    if func.None? then Change(t, None, Some(AssertionError))
    else if topic in t then Change(t[topic := t[topic] + [func.value]], None, Some(UnboundLocalError("req")))
    else Change(t[topic := [func.value]], Some(SubscribeFrame(topic, cycleTime)), None)
  }

  /** A second subscriber to a topic is appended and no frame is sent, yet the call as written raises. */
  lemma SecondSubscribeRaises(t: Table, topic: string, f: Callback, cycleTime: real)
    requires topic in t
    ensures var w := SubscribeAsWritten(t, topic, Some(f), cycleTime);
            var c := Subscribed(t, topic, Some(f), cycleTime);
      && w.table == c.table && w.frame == c.frame == None
      && c.raised == None && w.raised == Some(UnboundLocalError("req"))
  {
  }

  /** The two versions agree everywhere except on that path. */
  lemma AsWrittenAgreesOnFirstSubscribe(t: Table, topic: string, func: Option<Callback>, cycleTime: real)
    requires func.None? || topic !in t
    ensures SubscribeAsWritten(t, topic, func, cycleTime) == Subscribed(t, topic, func, cycleTime)
  {
  }

  /**
   * `unsubscribe`: without a callback, or when the topic has a single
   * callback (whichever was passed), the topic goes and one unsubscribe
   * frame is sent; otherwise the first occurrence of the callback is
   * removed and the topic stays. An unknown topic raises KeyError, an
   * unregistered callback ValueError, and neither changes the table.
   */
  function Unsubscribed(t: Table, topic: string, func: Option<Callback>): (r: Change)
    ensures r.raised.Some? <==>
              topic !in t || (func.Some? && |t[topic]| != 1 && func.value !in t[topic])
    ensures r.raised.Some? ==>
              r.table == t && r.frame == None &&
              r.raised.value == if topic !in t then KeyError(topic) else ValueError(NotInList)
    ensures r.frame.Some? <==> topic in t && (func.None? || |t[topic]| == 1)
    ensures r.frame.Some? ==>
              r.table == t - {topic} && r.raised == None &&
              r.frame.value == UnsubscribeRequest(0, topic)
    ensures r.raised.None? && r.frame.None? ==>
              && topic in t && func.Some? && func.value in t[topic]
              && topic in r.table
              && |r.table[topic]| == |t[topic]| - 1
              && multiset(r.table[topic]) == multiset(t[topic]) - multiset{func.value}
              && (exists k :: 0 <= k < |t[topic]| && t[topic][k] == func.value &&
                    (forall j :: 0 <= j < k ==> t[topic][j] != func.value) &&
                    r.table[topic] == t[topic][..k] + t[topic][k + 1..])
              && SameElsewhere(r.table, t, topic)
    ensures NoEmptyTopics(t) ==> NoEmptyTopics(r.table)
  {
    if topic !in t then Change(t, None, Some(KeyError(topic)))
    else if func.None? || |t[topic]| == 1 then Change(t - {topic}, Some(UnsubscribeRequest(0, topic)), None)
    else if func.value !in t[topic] then Change(t, None, Some(ValueError(NotInList)))
    else Change(t[topic := Lists.RemoveFirst(t[topic], func.value)], None, None)
  }

  /** The invocations that pushing `p` to each of `cbs` makes, in order. */
  function Calls(cbs: seq<Callback>, p: Push): (r: seq<Call>)
    ensures |r| == |cbs|
    ensures forall i :: 0 <= i < |cbs| ==> r[i] == Call(cbs[i], p)
  {
    if cbs == [] then [] else [Call(cbs[0], p)] + Calls(cbs[1..], p)
  }

  /**
   * `_message_handler` (keapi): a push with a known topic calls every
   * callback of that topic once, in registration order; a push without a
   * topic, or with an unknown one, calls nothing.
   */
  function Fanout(t: Table, p: Push): (r: seq<Call>)
    ensures p.topic.Some? && p.topic.value in t ==>
              |r| == |t[p.topic.value]| &&
              forall i :: 0 <= i < |r| ==> r[i] == Call(t[p.topic.value][i], p)
    ensures p.topic.None? || p.topic.value !in t ==> r == []
  {
    if p.topic.Some? && p.topic.value in t then Calls(t[p.topic.value], p) else []
  }

  /** Replays `subscribe(topic, f, c)` for each `(f, c)` in order, collecting the frames sent. */
  function SubscribeAll(t: Table, topic: string, subs: seq<(Callback, real)>): (Table, seq<Request>)
  {
    if subs == [] then (t, [])
    else
      var (t0, sent) := SubscribeAll(t, topic, subs[..|subs| - 1]);
      var c := Subscribed(t0, topic, Some(subs[|subs| - 1].0), subs[|subs| - 1].1);
      (c.table, sent + if c.frame.Some? then [c.frame.value] else [])
  }

  /** The callbacks of `subs`, in order. */
  function Handles(subs: seq<(Callback, real)>): (r: seq<Callback>)
    ensures |r| == |subs| && forall i :: 0 <= i < |subs| ==> r[i] == subs[i].0
  {
    if subs == [] then [] else Handles(subs[..|subs| - 1]) + [subs[|subs| - 1].0]
  }

  /**
   * First subscriber wins: subscribing several callbacks to a new topic
   * lists them in call order, sends exactly one subscribe frame, and that
   * frame carries the first call's cycle time; other topics are untouched.
   */
  lemma {:induction false} FirstSubscriberWins(t: Table, topic: string, subs: seq<(Callback, real)>)
    requires topic !in t && subs != []
    ensures var (t1, sent) := SubscribeAll(t, topic, subs);
      && topic in t1 && t1[topic] == Handles(subs)
      && sent == [SubscribeFrame(topic, subs[0].1)]
      && SameElsewhere(t1, t, topic)
  {
    var n := |subs|;
    if n > 1 {
      var init := subs[..n - 1];
      FirstSubscriberWins(t, topic, init);
      assert init[0] == subs[0];
      assert Handles(subs) == Handles(init) + [subs[n - 1].0];
    }
  }

  /** Subscribing a new topic and unsubscribing it again restores the table; one frame goes each way. */
  lemma SubscribeUnsubscribeInverse(t: Table, topic: string, f: Callback, cycleTime: real, g: Option<Callback>)
    requires topic !in t
    ensures var s := Subscribed(t, topic, Some(f), cycleTime);
            var u := Unsubscribed(s.table, topic, g);
      && u.table == t && u.raised == None
      && s.frame == Some(SubscribeFrame(topic, cycleTime))
      && u.frame == Some(UnsubscribeRequest(0, topic))
  {
    var s := Subscribed(t, topic, Some(f), cycleTime);
    assert s.table - {topic} == t;
  }

  /**
   * A later subscriber that unsubscribes by reference leaves the table as
   * it found it, and neither call sends a frame.
   */
  lemma SubscribeUnsubscribeLater(t: Table, topic: string, f: Callback, cycleTime: real)
    requires topic in t && t[topic] != [] && f !in t[topic]
    ensures var s := Subscribed(t, topic, Some(f), cycleTime);
            var u := Unsubscribed(s.table, topic, Some(f));
      && s.frame == None && u.frame == None && u.raised == None && u.table == t
  {
    var s := Subscribed(t, topic, Some(f), cycleTime);
    Lists.RemoveAppended(t[topic], f);
    assert s.table[topic := t[topic]] == t;
  }

  /**
   * Two callbacks on one topic: unsubscribing the first by reference keeps
   * the second receiving pushes and sends nothing; unsubscribing the second
   * then drops the topic with exactly one unsubscribe frame.
   */
  lemma UnsubscribeOneOfTwo(t: Table, topic: string, f: Callback, g: Callback, p: Push)
    requires topic in t && t[topic] == [f, g] && p.topic == Some(topic)
    ensures var u1 := Unsubscribed(t, topic, Some(f));
            var u2 := Unsubscribed(u1.table, topic, Some(g));
      && u1.raised == None && u1.frame == None && Fanout(u1.table, p) == [Call(g, p)]
      && u2.raised == None && u2.frame == Some(UnsubscribeRequest(0, topic))
      && topic !in u2.table && Fanout(u2.table, p) == []
  {
    var u1 := Unsubscribed(t, topic, Some(f));
    Lists.RemoveFirstAt([f, g], 0);
    assert [f, g][1..] == [g];
    assert u1.table[topic] == [g];
  }
}

# keapi correlation and dispatch engines in Dafny

This project models the two bookkeeping engines of the keapi client for the
KEBA RcWebApi sockets:

- **Command correlation** (`keapi/_command_server.py`, and the older
  `command_server.py`). A request-id counter and a ticket list. `start`
  hands out the next id, lists a BUSY ticket and sends `{request, cmd, args?}`.
  The receiver loop routes each reply to the first listed ticket with the
  reply's `response` id. The reply's status selects DONE (200), HTTP_ERROR
  (400) or KEBA_ERROR (900), and the ticket leaves the list. `wait` turns the
  final state into a result or an exception.
- **Topic dispatch** (`keapi/_subscribe_server.py`, and the older
  `subscribe_server.py`). A table from topic to its callbacks in
  registration order. The first subscriber to a topic sends the subscribe
  frame; later ones are only appended. `unsubscribe` removes one callback, or
  the whole topic with an unsubscribe frame. A pushed frame is handed to every
  callback of its topic, in order.

Each block the source runs under its lock is one atomic method on a class.
Frames are decoded values (`Wire.Reply`, `Wire.Push`, `Wire.Request`). Every
frame the socket's `send` receives is appended to the server's `sent` log.
Callbacks are opaque handles, and dispatch returns the calls it makes.
Exceptions are `Wire.Error` values, returned as a `Result` or an `Option`.

Files:

- `wire.dfy`: frames, JSON values and errors.
- `lists.dfy`: Python's `list.remove`.
- `tickets.dfy`: the Ticket state machine and `wait`.
- `commands.dfy`: the keapi CommandServer, plus end-to-end scenarios.
- `legacy_commands.dfy`: what `command_server.py` does differently.
- `subscriptions.dfy`: the subscription table operations as values, with
  their lemmas.
- `subscribe.dfy`: the keapi SubscribeServer.
- `legacy_subscribe.dfy`: what `subscribe_server.py` does differently.

The legacy files share their locked blocks line for line with the keapi
versions, so the keapi classes model both. Only the differences get
members of their own:

- the sentinel returned by `wait`;
- the singleton assertion;
- dispatch without the unknown-topic check;
- the connected-flag guards.

Three behaviours of the code are easy to miss, and the model keeps them:

- A matched reply whose status is not 200, 400 or 900 is stored and the
  ticket leaves the list, but its state stays BUSY. Every later `wait` on it
  therefore times out, or without a timeout never returns
  (`Commands.UnknownStatusStrandsTicket`).
- The counter is reset on connect, but the ticket list is not cleared. A
  ticket left over from before a disconnect and reconnect can therefore share an id with a
  new one and take its reply (`Commands.ReconnectMisroutes`).
- A second `subscribe` to a known topic appends the callback and then
  raises UnboundLocalError (see Findings). The server class models the
  behaviour the method's docstring promises: the append, with no
  exception.

## Model

| member | source | states |
|---|---|---|
| `Tickets.Ticket.constructor` | keapi/_command_server.py:28-32 | a new ticket carries its id, is BUSY and has no reply |
| `Tickets.Ticket.RouteMux` | keapi/_command_server.py:91-103 | a reply for this id is stored and reported as a match. 200/400/900 select DONE/HTTP_ERROR/KEBA_ERROR, and any other status keeps the old state. A reply for another id is no match and changes nothing. A missing `response` or `status` key raises KeyError before any change |
| `Tickets.Ticket.Wait` | keapi/_command_server.py:38-70 | BUSY gives TimeoutError with a timeout, or stays blocked without one. HTTP_ERROR/KEBA_ERROR raise HttpError/KebaError carrying the reply's `error` text. DONE returns `result`, or None when it is absent |
| `Tickets.Transition` | keapi/_command_server.py:94-99 | status 200, 400 and 900 select DONE, HTTP_ERROR and KEBA_ERROR; any other status keeps the state. A ticket stays BUSY exactly when it was BUSY and the status is none of the three |
| `Tickets.Outcome` | keapi/_command_server.py:49-70 | `wait` stays blocked exactly when the ticket is BUSY and no timeout was given, and times out exactly when BUSY with a timeout. It returns exactly when the ticket is DONE with a stored reply: the `result`, or the no-result value when it is absent. HTTP_ERROR/KEBA_ERROR raise HttpError/KebaError with the `error` text, or KeyError without one. A finished ticket without a reply raises TypeError |
| `Tickets.UnfinishedIffBusy` | keapi/_command_server.py:49-58 | `wait` ends without a result (timeout or still blocked) exactly when the ticket is BUSY |
| `Tickets.RoutedOutcome` | keapi/_command_server.py:57-70 | after a BUSY ticket takes a reply: 200 returns the result or the no-result value; 400/900 raise with the `error` text; any other status leaves `wait` unfinished |
| `Commands.FirstMatch` | keapi/_command_server.py:212-215 | the position where the receiver's scan stops: the first listed ticket with the reply's id, or none when no ticket has it |
| `Commands.CommandServer.constructor` | keapi/_command_server.py:130-137 | counter 0, no tickets, nothing sent, receiver stopped |
| `Commands.CommandServer.Connect` | keapi/_command_server.py:195-206 | the counter is reset to 0. A handshake status other than 200 raises HttpError, and a missing one raises KeyError; either way the receiver is not started. 200 starts it. Tickets are kept |
| `Commands.CommandServer.Disconnect` | keapi/_command_server.py:139-146 | the receiver stops; pending tickets stay listed, unresolved |
| `Commands.CommandServer.Start` | keapi/_command_server.py:160-179 | the counter grows by exactly 1. A fresh BUSY ticket with id = counter is appended and the others are unchanged. The request sent is `{request: id, cmd}`, with `args` iff keyword arguments were given. The table invariant is kept. `exec_async` at command_server.py:129-142 is the same code |
| `Commands.CommandServer.Scan` | keapi/_command_server.py:211-215 | routing tries the listed tickets in order and stops at the first match, which takes the reply; the other tickets stay BUSY without reply |
| `Commands.CommandServer.ReceiverPass` | keapi/_command_server.py:208-216 | a reply for a listed id removes exactly the first such ticket, resolved by the reply whatever its status, and keeps the others in order. An unmatched reply changes nothing. A missing key ends the receiver. The invariant that listed tickets are distinct, BUSY and reply-less is kept. The receiver loop at command_server.py:148-156 is the same code |
| `Commands.CommandServer.Drop` | keapi/_command_server.py:214 | `list.remove` of the matched ticket deletes exactly its position and keeps ids increasing |
| `Commands.CommandServer.PassFor` | keapi/_command_server.py:211-216 | seen by a waiter on `t`: `t` leaves the list, resolved by `f`, exactly when `f` is a reply for `t` with a status. Ids stay increasing, within 1..counter |
| `Commands.CommandServer.Drain` | keapi/_command_server.py:208-216 | while a caller waits on `t`, `t` is resolved, if at all, by the first reply addressed to it. It is resolved when the receiver was running, every inbound reply has `response` and `status`, and one of them is addressed to `t`, wherever it comes in the sequence |
| `Commands.CommandServer.Exec` | keapi/_command_server.py:181-193 | `start` plus an untimed `wait`: the outcome is that of the first reply to the new id, or the caller stays blocked. When the receiver was running, every reply is well formed and one is addressed to the new id, the outcome is that of the first such reply |
| `Commands.ExecSkipsForeignReply` | keapi/_command_server.py:211-216 | a reply to another id ahead of the new request's own reply is passed over, and `exec` returns the result addressed to it |
| `Commands.ExecReturnsResult` | keapi/_command_server.py:66-68 | a 200 reply with `result` v makes `exec` return v |
| `Commands.ExecRaisesHttpError` | keapi/_command_server.py:60-62 | a 400 reply makes `exec` raise HttpError with the reply's error text |
| `Commands.ExecRaisesKebaError` | keapi/_command_server.py:63-65 | a 900 reply makes `exec` raise KebaError with the reply's error text |
| `Commands.WaitTimesOut` | keapi/_command_server.py:57-58 | a timed `wait` on an unanswered ticket raises TimeoutError |
| `Commands.RepliesOutOfOrder` | keapi/_command_server.py:211-216 | replies arriving in reverse order still reach each waiter's own request |
| `Commands.UnknownStatusStrandsTicket` | keapi/_command_server.py:93-101 | a matched reply with another status removes the ticket while it is BUSY. Its `wait` times out, and a later 200 reply for the same id no longer matches |
| `Commands.ReconnectMisroutes` | keapi/_command_server.py:196 | after `disconnect` and a new connect, a new request reuses a pending id, and its reply resolves the older ticket |
| `LegacyCommands.Wait` | command_server.py:39-63 | as the keapi `wait`, except that DONE without `result` returns the string 'DONE... Schau ma mal' |
| `LegacyCommands.WaitVersionsDiffer` | command_server.py:59-63 | the two `wait`s differ exactly for a DONE ticket whose reply lacks `result` |
| `LegacyCommands.ExecSync` | command_server.py:144-146 | `exec_async` plus an untimed legacy `wait`: the outcome of the first reply to the new id, or still blocked. When the receiver was running, every reply is well formed and one is addressed to the new id, the outcome is that of the first such reply |
| `LegacyCommands.ExecSyncWithoutResult` | command_server.py:60-63 | a 200 reply without `result` makes `exec_sync` return the sentinel |
| `LegacyCommands.ServerClass.constructor` | command_server.py:98 | the class attribute `instance` starts as None |
| `LegacyCommands.ServerClass.Construct` | command_server.py:100-109 | the first construction records the new server as `instance`; any later one raises AssertionError and keeps the first |
| `LegacyCommands.SecondServerFails` | command_server.py:101 | constructing a second CommandServer raises AssertionError |
| `Lists.RemoveFirst` | keapi/_subscribe_server.py:116 | `list.remove` deletes the first occurrence only, keeping the order and the other elements |
| `Subscriptions.Subscribed` | keapi/_subscribe_server.py:59-91 | a null callback raises AssertionError and changes nothing. A new topic gets `[func]` and one frame `{request: 0, subscribe: topic}`, with `cycle_time_s` iff the cycle time is > 0. A known topic gets `func` appended and no frame. Other topics are unchanged, and no key is left with an empty list |
| `Subscriptions.SubscribeAsWritten` | keapi/_subscribe_server.py:79-91 | `subscribe` as written makes the same table change and sends the same frame as the documented one, and raises something different exactly on a topic that already has callbacks, where it raises UnboundLocalError |
| `Subscriptions.SecondSubscribeRaises` | keapi/_subscribe_server.py:81-90 | as written, a second subscribe makes the documented append and sends no frame, but raises UnboundLocalError |
| `Subscriptions.AsWrittenAgreesOnFirstSubscribe` | keapi/_subscribe_server.py:79-91 | the as-written and documented subscribe agree on a null callback and on a new topic |
| `Subscriptions.Unsubscribed` | keapi/_subscribe_server.py:93-116 | with no callback, or a single registered one (whichever is passed), the topic is deleted and one `{request: 0, unsubscribe: topic}` frame is sent. Otherwise the first occurrence of `func` is removed and the others keep their order; the topic stays and nothing is sent. An unknown topic raises KeyError and an unregistered callback ValueError, both without change. No key is left with an empty list |
| `Subscriptions.Calls` | keapi/_subscribe_server.py:134-135 | one call per callback, in list order, each with the whole frame |
| `Subscriptions.Fanout` | keapi/_subscribe_server.py:127-135 | a push with a known topic calls each of its callbacks once, in order; a push without a topic, or with an unknown one, calls nothing |
| `Subscriptions.FirstSubscriberWins` | keapi/_subscribe_server.py:65-67 | any number of subscribes to a new topic list the callbacks in call order and send exactly one frame, with the first call's cycle time |
| `Subscriptions.SubscribeUnsubscribeInverse` | keapi/_subscribe_server.py:81-114 | subscribing a new topic and then unsubscribing it restores the table, with one subscribe and one unsubscribe frame |
| `Subscriptions.SubscribeUnsubscribeLater` | keapi/_subscribe_server.py:81-116 | a later subscriber that then unsubscribes by reference restores the table, and no frame is sent |
| `Subscriptions.UnsubscribeOneOfTwo` | keapi/_subscribe_server.py:93-116 | with two callbacks, removing the first by reference keeps the second receiving pushes. Removing the second then drops the topic with one unsubscribe frame |
| `Subscribe.SubscribeServer.constructor` | keapi/_subscribe_server.py:31-36 | empty table, nothing sent, not connected |
| `Subscribe.SubscribeServer.Connect` | keapi/_subscribe_server.py:118-125 | the event loop starts; the connected flag is left to the open hook |
| `Subscribe.SubscribeServer.OpenHandler` | keapi/_subscribe_server.py:140-141 | the open hook sets the connected flag |
| `Subscribe.SubscribeServer.Disconnect` | keapi/_subscribe_server.py:38-48 | the table is emptied and the flag cleared, with no unsubscribe frame. The subscribe_server.py:62-69 version is the same code |
| `Subscribe.SubscribeServer.Subscribe` | keapi/_subscribe_server.py:59-91 | table and sent log follow `Subscribed`; the no-empty-topic invariant is kept |
| `Subscribe.SubscribeServer.Unsubscribe` | keapi/_subscribe_server.py:93-116 | table and sent log follow `Unsubscribed`; the no-empty-topic invariant is kept |
| `Subscribe.SubscribeServer.MessageHandler` | keapi/_subscribe_server.py:127-135 | a registered topic's callbacks are each called once, in registration order, with the frame; any other push calls nothing |
| `Subscribe.DispatchMatchesFanout` | keapi/_subscribe_server.py:127-135 | the dispatcher's calls are exactly those `Fanout` prescribes |
| `Subscribe.SubscribeTwice` | keapi/_subscribe_server.py:65-67 | two subscribers with different cycle times: one frame with the first cycle time, and pushes reach both in order |
| `Subscribe.UnsubscribeInTurn` | keapi/_subscribe_server.py:106-116 | after unsubscribing the first of two callbacks the second still receives pushes. After unsubscribing the last nothing does, and exactly one unsubscribe frame was sent |
| `LegacySubscribe.MessageHandler` | subscribe_server.py:102-108 | a registered topic's callbacks are called in order; a push without a topic calls nothing; an unregistered topic raises KeyError |
| `LegacySubscribe.DispatchersAgree` | subscribe_server.py:104-108 | the two dispatchers make the same calls where the legacy one does not raise; only keapi drops unknown topics |
| `LegacySubscribe.ServerClass.constructor` | subscribe_server.py:36 | `_instance` starts as None |
| `LegacySubscribe.ServerClass.Construct` | subscribe_server.py:44-51 | the first construction records the server; a second raises AssertionError |
| `LegacySubscribe.ServerClass.Instance` | subscribe_server.py:38-42 | `instance()` constructs the server on first use and returns the same object afterwards |
| `LegacySubscribe.ServerClass.ConnectToSocket` | subscribe_server.py:7-11 | raises SocketError when already connected, otherwise starts the event loop |
| `LegacySubscribe.ServerClass.DisconnectFromSocket` | subscribe_server.py:14-18 | raises SocketError when not connected and changes nothing, otherwise empties the table, clears the flag and stops the event loop, sending nothing |
| `LegacySubscribe.ServerClass.SubscribeToTopic` | subscribe_server.py:21-25 | raises SocketError when not connected and changes nothing, otherwise subscribes as `Subscribed` says; the connected flag and the event loop are left as they were |
| `LegacySubscribe.ServerClass.UnsubscribeToTopic` | subscribe_server.py:28-32 | raises SocketError when not connected and changes nothing, otherwise unsubscribes as `Unsubscribed` says; the connected flag and the event loop are left as they were |
| `LegacySubscribe.OneServer` | subscribe_server.py:38-51 | `instance()` returns the same server twice, and a direct construction then fails |
| `LegacySubscribe.GuardsFollowFlag` | subscribe_server.py:21-32 | guarded calls are refused until the open hook has run, and again after `disconnect_from_socket` |

## Findings

| source | as written | input that shows it | evidently intended | confidence | as-written member | corrected member |
|---|---|---|---|---|---|---|
| keapi/_subscribe_server.py:81-91 (also subscribe_server.py:77-87) | on a topic that is already subscribed, `req` is never bound, so `if req:` raises UnboundLocalError after the callback was appended | `subscribe("t", f)` followed by `subscribe("t", g)` | the docstring at :65-67 promises several subscriptions per topic: append `g`, send nothing, return normally | high; not executed | `Subscriptions.SecondSubscribeRaises` (on `Subscriptions.SubscribeAsWritten`) | `Subscriptions.Subscribed`, with `Subscriptions.FirstSubscriberWins` |

## Left out

- Websocket I/O is not modelled: opening, `send`, `recv`, `close`, `run_forever`, the sub-protocol and the JSON encoding and decoding. Inbound frames arrive as decoded values, and outbound frames are appended to `sent`.
- Calls made before the socket exists, when `_ws` is None, are not modelled. In the source `send` or `close` then raises AttributeError. The model's sends always succeed.
- Threads, the lock, `Condition.wait_for` and `join(5)` are not modelled. Each locked block is one atomic step.
- `wait`'s timeout is a flag, not a duration. A BUSY ticket gives TimeoutError when a timeout was given and stays blocked otherwise.
- Callbacks are opaque handles. Their effects, reentrant calls into the server (which would deadlock on the lock) and exceptions they raise are not modelled.
- `cycle_time` is a real. As in the source, only its sign matters (`cycle_time > 0.0`).
- `_error_handler` re-raises transport errors as SocketError. Transport errors are not modelled.
- `Ticket.state`, `requestid()` and `__str__` are plain reads of a ticket's `state` and `id` fields. The SubscribeServer's `is_connected()` reads its `connected` field.
- The keapi CommandServer's `is_connected()` (keapi/_command_server.py:148-158) asks the socket object whether it is connected. Socket state is not modelled, so this query is left out.
- A reply's `error` is modelled as a string. In the source any JSON value is formatted into the HttpError or KebaError message. The formatting of a non-string `error` is not modelled.
- JSON numbers are integers only. A reply whose `result` is a floating-point number cannot be represented.
- An inbound frame that decodes to something other than a JSON object is not modelled. In the source, subscripting it in `_route_mux_locked` (keapi/_command_server.py:93) raises TypeError in the receiver thread.
- `connect_commands` and `connect_subscriber` only construct a server and call its connect method, which is modelled.
- Inbound frames whose `response` or `status` are not integers are not modelled. Nor are frames whose `topic` is not a string.
- The REST helpers (`keapi/compat/_tc_prog.py`, `keapi/compat/_tc_var.py`, `keapi/_auth_mgr.py`) are not part of this model. Nor are the variable wrappers (`keapi/_ke_var.py`, `ke_var.py`, `ke_command.py`), the packaging files or the interactive `__main__` blocks.

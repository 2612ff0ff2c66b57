/** fastapi_app/realtime/manager.py and the endpoints of api/v1/realtime.py that use it.

    A coroutine runs undisturbed between two awaits, so its steps are what is modelled: `connect` and `disconnect`
    under their lock, a consumer taking a message off its subscription and listing the sockets, the start of a send and
    its end, and the discard after a failed send, which holds no lock. Any interleaving of such steps is a run. */
module Realtime {
  import opened Prelude

  type Channel = string
  type Socket = nat

  /** A consumer coroutine. A cancelled one gets `CancelledError` when it next resumes, so it takes no more steps; a
      crashed one has returned. `sending` is the message being fanned out, `awaited` the socket whose send it awaits and
      `targets` who is still to get it. */
  datatype Consumer = Consumer(
    channel: Channel, cancelled: bool, crashed: bool, inbox: seq<nat>, sending: Option<nat>, awaited: Option<Socket>, targets: seq<Socket>)

  /** The manager's two tables and the consumers it started. */
  datatype Hub = Hub(channels: map<Channel, set<Socket>>, tasks: map<Channel, nat>, consumers: seq<Consumer>)

  // ---------- the manager's steps ----------

  function SocketsOf(h: Hub, c: Channel): set<Socket> {
    if c in h.channels then h.channels[c] else {}
  }

  function Connect(h: Hub, ws: Socket, c: Channel): Hub {
    var h1 := h.(channels := h.channels[c := SocketsOf(h, c) + {ws}]);
    if c in h.tasks then h1
    else h1.(tasks := h.tasks[c := |h.consumers|], consumers := h.consumers + [Consumer(c, false, false, [], None, None, [])])
  }

  function Cancel(consumers: seq<Consumer>, t: nat): seq<Consumer> {
    if t < |consumers| then consumers[t := consumers[t].(cancelled := true)] else consumers
  }

  function Disconnect(h: Hub, ws: Socket, c: Channel): Hub {
    var left := SocketsOf(h, c) - {ws};
    if left != {} then h.(channels := h.channels[c := left])
    else
      Hub(h.channels - {c}, h.tasks - {c}, if c in h.tasks then Cancel(h.consumers, h.tasks[c]) else h.consumers)
  }

  /** `self._channels[channel].discard(ws)`: the table is a defaultdict, so asking for a channel creates it. */
  function Discard(h: Hub, c: Channel, ws: Socket): Hub {
    h.(channels := h.channels[c := SocketsOf(h, c) - {ws}])
  }

  predicate CanStep(h: Hub, t: nat) {
    t < |h.consumers| && !h.consumers[t].cancelled && !h.consumers[t].crashed
  }

  /** Take the next message and list the channel's sockets, in any order. */
  function Receive(h: Hub, t: nat, listing: seq<Socket>): Hub
    requires CanStep(h, t) && h.consumers[t].sending.None? && h.consumers[t].inbox != []
  {
    var k := h.consumers[t];
    h.(consumers := h.consumers[t := k.(inbox := k.inbox[1..], sending := if listing == [] then None else Some(k.inbox[0]), targets := listing)])
  }

  predicate CanSend(h: Hub, t: nat) {
    CanStep(h, t) && h.consumers[t].sending.Some? && h.consumers[t].awaited.None? && h.consumers[t].targets != []
  }

  /** Start sending to the next target. */
  function StartSend(h: Hub, t: nat): Hub
    requires CanSend(h, t)
  {
    var k := h.consumers[t];
    h.(consumers := h.consumers[t := k.(awaited := Some(k.targets[0]), targets := k.targets[1..])])
  }

  /** The awaited send returns, or raises and discards its socket without the lock. */
  function EndSend(h: Hub, t: nat, ok: bool): Hub
    requires CanStep(h, t) && h.consumers[t].awaited.Some?
  {
    var k := h.consumers[t];
    var h1 := if ok then h else Discard(h, k.channel, k.awaited.value);
    h1.(consumers := h.consumers[t := k.(awaited := None, sending := if k.targets == [] then None else k.sending)])
  }

  function Crash(h: Hub, t: nat): Hub
    requires CanStep(h, t)
  {
    h.(consumers := h.consumers[t := h.consumers[t].(crashed := true)])
  }

  // ---------- the world around the manager ----------

  datatype Delivery = Delivery(task: nat, channel: Channel, message: nat, socket: Socket)

  /** A message that a consumer took, and who was registered on its channel then. */
  datatype Taking = Taking(message: nat, sockets: set<Socket>)

  /** What a consumer's subscription was handed, and what the consumer took, oldest first. */
  datatype Past = Past(handed: seq<nat>, taken: seq<Taking>)

  /** Endpoint sessions that connected and have not disconnected yet; those among them whose socket a failed send
      discarded; the number of the next message; every send that was started, whether or not it ended; and the past of
      every consumer. */
  datatype World = World(
    hub: Hub, sessions: set<(Socket, Channel)>, lost: set<(Socket, Channel)>, clock: nat, log: seq<Delivery>, pasts: seq<Past>)

  datatype Step =
    | SessionOpens(socket: Socket, channel: Channel)
    | SessionCloses(socket: Socket, channel: Channel)
    | Publish(channel: Channel, receivers: set<nat>)   // the subscriptions that Redis hands the message to
    | ConsumerReceives(task: nat, listing: seq<Socket>)
    | ConsumerStartsSend(task: nat)
    | ConsumerEndsSend(task: nat, ok: bool)
    | ConsumerCrashes(task: nat)
    | BroadcastFails(channel: Channel, socket: Socket) // a failed send of `broadcast`, whose socket list may be stale

  ghost predicate NoRepeats(s: seq<Socket>) {
    forall i, j :: 0 <= i < j < |s| ==> s[i] != s[j]
  }

  function Inbox(consumers: seq<Consumer>, c: Channel, receivers: set<nat>, message: nat): (r: seq<Consumer>)
    ensures |r| == |consumers|
    ensures forall t :: 0 <= t < |r| ==>
              r[t] == if t in receivers && consumers[t].channel == c then consumers[t].(inbox := consumers[t].inbox + [message]) else consumers[t]
  {
    seq(|consumers|, t requires 0 <= t < |consumers| =>
        if t in receivers && consumers[t].channel == c then consumers[t].(inbox := consumers[t].inbox + [message]) else consumers[t])
  }

  /** The pasts of the consumers, one message handed out. */
  function Handed(pasts: seq<Past>, consumers: seq<Consumer>, c: Channel, receivers: set<nat>, message: nat): (r: seq<Past>)
    ensures |r| == |pasts|
    ensures forall t :: 0 <= t < |r| ==>
              r[t] == if t in receivers && t < |consumers| && consumers[t].channel == c then pasts[t].(handed := pasts[t].handed + [message]) else pasts[t]
  {
    seq(|pasts|, t requires 0 <= t < |pasts| =>
        if t in receivers && t < |consumers| && consumers[t].channel == c then pasts[t].(handed := pasts[t].handed + [message]) else pasts[t])
  }

  function Taken(pasts: seq<Past>, t: nat, taking: Taking): seq<Past> {
    if t < |pasts| then pasts[t := pasts[t].(taken := pasts[t].taken + [taking])] else pasts
  }

  ghost predicate Enabled(w: World, step: Step) {
    match step
    case SessionOpens(ws, c) => (ws, c) !in w.sessions
    case SessionCloses(ws, c) => (ws, c) in w.sessions
    case Publish(_, _) => true
    case ConsumerReceives(t, listing) =>
      && CanStep(w.hub, t) && w.hub.consumers[t].sending.None? && w.hub.consumers[t].inbox != []
      && NoRepeats(listing) && forall ws :: ws in listing <==> ws in SocketsOf(w.hub, w.hub.consumers[t].channel)
    case ConsumerStartsSend(t) => CanSend(w.hub, t)
    case ConsumerEndsSend(t, _) => CanStep(w.hub, t) && w.hub.consumers[t].awaited.Some?
    case ConsumerCrashes(t) => CanStep(w.hub, t)
    case BroadcastFails(_, _) => true
  }

  ghost function Next(w: World, step: Step): World
    requires Enabled(w, step)
  {
    match step
    case SessionOpens(ws, c) =>
      w.(hub := Connect(w.hub, ws, c), sessions := w.sessions + {(ws, c)}, lost := w.lost - {(ws, c)},
         pasts := if c in w.hub.tasks then w.pasts else w.pasts + [Past([], [])])
    case SessionCloses(ws, c) => w.(hub := Disconnect(w.hub, ws, c), sessions := w.sessions - {(ws, c)})
    case Publish(c, receivers) =>
      w.(hub := w.hub.(consumers := Inbox(w.hub.consumers, c, receivers, w.clock)), clock := w.clock + 1,
         pasts := Handed(w.pasts, w.hub.consumers, c, receivers, w.clock))
    case ConsumerReceives(t, listing) =>
      var k := w.hub.consumers[t];
      w.(hub := Receive(w.hub, t, listing),
         pasts := Taken(w.pasts, t, Taking(k.inbox[0], SocketsOf(w.hub, k.channel))))
    case ConsumerStartsSend(t) =>
      var k := w.hub.consumers[t];
      w.(hub := StartSend(w.hub, t), log := w.log + [Delivery(t, k.channel, k.sending.value, k.targets[0])])
    case ConsumerEndsSend(t, ok) =>
      var k := w.hub.consumers[t];
      w.(hub := EndSend(w.hub, t, ok), lost := if ok then w.lost else w.lost + {(k.awaited.value, k.channel)})
    case ConsumerCrashes(t) => w.(hub := Crash(w.hub, t))
    case BroadcastFails(c, ws) => w.(hub := Discard(w.hub, c, ws), lost := w.lost + {(ws, c)})
  }

  /** The worlds of a run, each one step after the other. */
  ghost predicate IsRun(w: World, steps: seq<Step>, w': World)
    decreases |steps|
  {
    if steps == [] then w' == w else Enabled(w, steps[0]) && IsRun(Next(w, steps[0]), steps[1..], w')
  }

  const EMPTY_WORLD := World(Hub(map[], map[], []), {}, {}, 0, [], [])

  // ---------- no consumer leaks ----------

  ghost predicate HasSession(w: World, c: Channel) {
    exists ws :: (ws, c) in w.sessions
  }

  /** Within the manager: a channel with sockets has a task entry, an entry an uncancelled consumer of its channel, and
      there are no other uncancelled consumers. */
  ghost predicate Attended(h: Hub) {
    && (forall c :: c in h.channels && h.channels[c] != {} ==> c in h.tasks)
    && (forall c :: c in h.tasks ==> h.tasks[c] < |h.consumers| && h.consumers[h.tasks[c]].channel == c)
    && (forall t :: 0 <= t < |h.consumers| ==>
          (!h.consumers[t].cancelled <==> h.consumers[t].channel in h.tasks && h.tasks[h.consumers[t].channel] == t))
  }

  /** And around it: registered sockets and task entries have open sessions. */
  ghost predicate Tracked(w: World) {
    && Attended(w.hub)
    && (forall c, ws :: c in w.hub.channels && ws in w.hub.channels[c] ==> (ws, c) in w.sessions)
    && (forall c :: c in w.hub.tasks ==> HasSession(w, c))
  }

  // ---------- who is registered ----------

  /** Connecting registers one socket on one channel and costs no one else a registration. */
  lemma ConnectRegisters(h: Hub, ws: Socket, c: Channel, d: Channel)
    ensures SocketsOf(Connect(h, ws, c), d) == SocketsOf(h, d) + (if d == c then {ws} else {})
  {
  }

  /** Disconnecting and discarding take one socket off one channel. */
  lemma DisconnectUnregisters(h: Hub, ws: Socket, c: Channel, d: Channel)
    ensures SocketsOf(Disconnect(h, ws, c), d) == SocketsOf(h, d) - (if d == c then {ws} else {})
  {
  }

  lemma DiscardUnregisters(h: Hub, ws: Socket, c: Channel, d: Channel)
    ensures SocketsOf(Discard(h, c, ws), d) == SocketsOf(h, d) - (if d == c then {ws} else {})
  {
  }

  // ---------- what a step keeps ----------

  lemma ConnectKeepsAttended(h: Hub, ws: Socket, c: Channel)
    requires Attended(h)
    ensures Attended(Connect(h, ws, c))
  {
  }

  lemma DisconnectKeepsAttended(h: Hub, ws: Socket, c: Channel)
    requires Attended(h)
    ensures Attended(Disconnect(h, ws, c))
  {
  }

  lemma OpeningKeepsTracked(w: World, ws: Socket, c: Channel)
    requires Tracked(w) && (ws, c) !in w.sessions
    ensures Tracked(Next(w, SessionOpens(ws, c)))
  {
    var w' := Next(w, SessionOpens(ws, c));
    ConnectKeepsAttended(w.hub, ws, c);
    forall d | d in w'.hub.tasks ensures HasSession(w', d) {
      if d == c {
        assert (ws, c) in w'.sessions;
      } else {
        var x :| (x, d) in w.sessions;
        assert (x, d) in w'.sessions;
      }
    }
  }

  lemma ClosingKeepsTracked(w: World, ws: Socket, c: Channel)
    requires Tracked(w) && (ws, c) in w.sessions
    ensures Tracked(Next(w, SessionCloses(ws, c)))
  {
    var w' := Next(w, SessionCloses(ws, c));
    DisconnectKeepsAttended(w.hub, ws, c);
    forall d | d in w'.hub.tasks ensures HasSession(w', d) {
      if d == c {
        var x :| x in w'.hub.channels[c];
        assert (x, c) in w'.sessions;
      } else {
        var x :| (x, d) in w.sessions;
        assert (x, d) in w'.sessions;
      }
    }
  }

  lemma StepKeepsTracked(w: World, step: Step)
    requires Tracked(w) && Enabled(w, step)
    ensures Tracked(Next(w, step))
  {
    if step.SessionOpens? {
      OpeningKeepsTracked(w, step.socket, step.channel);
    } else if step.SessionCloses? {
      ClosingKeepsTracked(w, step.socket, step.channel);
    } else {
      assert Next(w, step).sessions == w.sessions && Next(w, step).hub.tasks == w.hub.tasks;
      assert forall c :: HasSession(w, c) ==> HasSession(Next(w, step), c);
    }
  }

  // ---------- no double delivery ----------

  /** A consumer works through ever newer messages, and through distinct sockets. */
  ghost predicate InOrder(k: Consumer, clock: nat) {
    && (forall i, j :: 0 <= i < j < |k.inbox| ==> k.inbox[i] < k.inbox[j])
    && (forall i :: 0 <= i < |k.inbox| ==> k.inbox[i] < clock)
    && (k.sending.Some? ==> k.sending.value < clock && forall i :: 0 <= i < |k.inbox| ==> k.sending.value < k.inbox[i])
    && NoRepeats(k.targets)
    && (k.awaited.Some? ==> k.sending.Some?)
  }

  /** What was delivered on the consumer's channel is older than everything it has yet to do, except that it may itself
      be in the middle of that message. */
  ghost predicate Ahead(k: Consumer, e: Delivery) {
    e.channel == k.channel ==>
      && (forall i :: 0 <= i < |k.inbox| ==> e.message < k.inbox[i])
      && (k.sending.Some? ==>
            e.message < k.sending.value || (e.message == k.sending.value && e.socket !in k.targets))
  }

  ghost predicate Busy(k: Consumer, w: World) {
    InOrder(k, w.clock) && forall e :: e in w.log ==> Ahead(k, e)
  }

  ghost predicate Orderly(w: World) {
    && (forall e :: e in w.log ==> e.message < w.clock)
    && (forall t :: 0 <= t < |w.hub.consumers| && !w.hub.consumers[t].cancelled ==> Busy(w.hub.consumers[t], w))
    && (forall i, j :: 0 <= i < j < |w.log| ==> !SameDelivery(w.log[i], w.log[j]))
  }

  predicate SameDelivery(a: Delivery, b: Delivery) {
    a.channel == b.channel && a.message == b.message && a.socket == b.socket
  }

  lemma ReceivingConsumer(k: Consumer, listing: seq<Socket>, w: World)
    requires Busy(k, w) && k.sending.None? && k.inbox != [] && NoRepeats(listing)
    ensures Busy(k.(inbox := k.inbox[1..], sending := if listing == [] then None else Some(k.inbox[0]), targets := listing), w)
  {
    var k' := k.(inbox := k.inbox[1..], sending := if listing == [] then None else Some(k.inbox[0]), targets := listing);
    forall e | e in w.log ensures Ahead(k', e) {
      assert Ahead(k, e);
    }
  }

  /** A consumer that awaits the send to its next target. */
  function Sent(k: Consumer): Consumer
    requires k.targets != []
  {
    k.(awaited := Some(k.targets[0]), targets := k.targets[1..])
  }

  lemma SendingConsumer(k: Consumer, w: World, e0: Delivery, w': World)
    requires Busy(k, w) && k.sending.Some? && k.targets != []
    requires e0.message == k.sending.value && e0.socket == k.targets[0]
    requires w'.log == w.log + [e0] && w'.clock == w.clock
    ensures Busy(Sent(k), w') && e0.message < w.clock
    ensures e0.channel == k.channel ==> forall e :: e in w.log ==> !SameDelivery(e, e0)
  {
    forall e | e in w'.log ensures Ahead(Sent(k), e) {
      assert e in w.log ==> Ahead(k, e);
    }
    forall e | e in w.log && e0.channel == k.channel ensures !SameDelivery(e, e0) {
      assert Ahead(k, e);
    }
  }

  lemma PublishingConsumer(k: Consumer, w: World, w': World)
    requires Busy(k, w) && w'.log == w.log && w'.clock == w.clock + 1 && forall e :: e in w.log ==> e.message < w.clock
    ensures Busy(k, w') && Busy(k.(inbox := k.inbox + [w.clock]), w')
  {
    var k' := k.(inbox := k.inbox + [w.clock]);
    forall e | e in w'.log ensures Ahead(k', e) {
      assert Ahead(k, e);
    }
  }

  lemma SendingKeepsOrderly(w: World, t: nat)
    requires Tracked(w) && Orderly(w) && Enabled(w, ConsumerStartsSend(t))
    ensures Orderly(Next(w, ConsumerStartsSend(t)))
  {
    var w' := Next(w, ConsumerStartsSend(t));
    var k := w.hub.consumers[t];
    var e0 := w'.log[|w.log|];
    SendingConsumer(k, w, e0, w');
    forall u | 0 <= u < |w'.hub.consumers| && !w'.hub.consumers[u].cancelled ensures Busy(w'.hub.consumers[u], w') {
      if u != t {
        assert w'.hub.consumers[u] == w.hub.consumers[u] && w.hub.consumers[u].channel != k.channel;
        assert Busy(w.hub.consumers[u], w) && Ahead(w.hub.consumers[u], e0);
      }
    }
    assert forall i :: 0 <= i < |w.log| ==> w.log[i] in w.log;
  }

  /** A consumer with no more to do than before. */
  lemma LessToDo(k: Consumer, k': Consumer, w: World, w': World)
    requires Busy(k, w) && w'.log == w.log && w'.clock == w.clock
    requires k'.channel == k.channel && k'.inbox == k.inbox && k'.targets == k.targets
    requires (k'.sending == k.sending || k'.sending.None?) && (k'.awaited == k.awaited || k'.awaited.None?)
    requires k'.awaited.Some? ==> k'.sending.Some?
    ensures Busy(k', w')
  {
    forall e | e in w'.log ensures Ahead(k', e) {
      assert Ahead(k, e);
    }
  }

  /** Sessions coming and going, sends ending, crashes and broadcasts give no consumer anything new to do. */
  lemma OtherStepsKeepOrderly(w: World, step: Step)
    requires Orderly(w) && Enabled(w, step)
    requires step.SessionOpens? || step.SessionCloses? || step.ConsumerEndsSend? || step.ConsumerCrashes? || step.BroadcastFails?
    ensures Orderly(Next(w, step))
  {
    var w' := Next(w, step);
    assert w'.log == w.log && w'.clock == w.clock;
    forall t | 0 <= t < |w'.hub.consumers| && !w'.hub.consumers[t].cancelled ensures Busy(w'.hub.consumers[t], w') {
      var k' := w'.hub.consumers[t];
      if t < |w.hub.consumers| {
        LessToDo(w.hub.consumers[t], k', w, w');
      }
    }
  }

  lemma StepKeepsOrderly(w: World, step: Step)
    requires Tracked(w) && Orderly(w) && Enabled(w, step)
    ensures Orderly(Next(w, step))
  {
    match step
    case ConsumerReceives(t, listing) =>
      ReceivingConsumer(w.hub.consumers[t], listing, w);
    case ConsumerStartsSend(t) =>
      SendingKeepsOrderly(w, t);
    case Publish(c, receivers) =>
      forall t | 0 <= t < |w.hub.consumers| && !w.hub.consumers[t].cancelled
        ensures Busy(Next(w, step).hub.consumers[t], Next(w, step))
      {
        PublishingConsumer(w.hub.consumers[t], w, Next(w, step));
      }
    case _ =>
      OtherStepsKeepOrderly(w, step);
  }

  lemma {:induction false} RunKeepsInvariants(w: World, steps: seq<Step>, w': World)
    requires Tracked(w) && Orderly(w) && IsRun(w, steps, w')
    ensures Tracked(w') && Orderly(w')
    decreases |steps|
  {
    if steps != [] {
      StepKeepsTracked(w, steps[0]);
      StepKeepsOrderly(w, steps[0]);
      RunKeepsInvariants(Next(w, steps[0]), steps[1..], w');
    }
  }

  // ---------- what every run guarantees ----------

  /** No consumer leaks: at any point of any run, a channel with a registered socket has a task entry, a task entry has
      a session that has not disconnected, each channel has at most one uncancelled consumer, and once every session
      is closed there is neither an entry nor an uncancelled consumer. */
  lemma NoConsumerLeaks(steps: seq<Step>, w: World)
    requires IsRun(EMPTY_WORLD, steps, w)
    ensures forall c :: SocketsOf(w.hub, c) != {} ==> c in w.hub.tasks
    ensures forall c :: c in w.hub.tasks ==> HasSession(w, c)
    ensures forall t, u :: 0 <= t < u < |w.hub.consumers| && w.hub.consumers[t].channel == w.hub.consumers[u].channel ==>
              w.hub.consumers[t].cancelled || w.hub.consumers[u].cancelled
    ensures w.sessions == {} ==> w.hub.tasks == map[] && forall t :: 0 <= t < |w.hub.consumers| ==> w.hub.consumers[t].cancelled
  {
    RunKeepsInvariants(EMPTY_WORLD, steps, w);
    forall c | SocketsOf(w.hub, c) != {} ensures c in w.hub.tasks {
      var ws :| ws in SocketsOf(w.hub, c);
    }
    if w.sessions == {} {
      forall c ensures c !in w.hub.tasks {
        assert !HasSession(w, c);
      }
    }
  }

  /** No double delivery: in any run, sending a message of a channel to a socket is started at most once, although
      consumers are replaced, sends never end, sockets come and go in the middle of a fan-out, and listings may be
      stale. */
  lemma NoDoubleDelivery(steps: seq<Step>, w: World)
    requires IsRun(EMPTY_WORLD, steps, w)
    ensures forall i, j :: 0 <= i < j < |w.log| ==> !SameDelivery(w.log[i], w.log[j])
  {
    RunKeepsInvariants(EMPTY_WORLD, steps, w);
  }

  // ---------- what no run repairs ----------

  /** The channel's consumer has crashed, but its entry is still there. */
  predicate Deaf(h: Hub, c: Channel) {
    c in h.tasks && h.tasks[c] < |h.consumers| && h.consumers[h.tasks[c]].crashed
  }

  /** A step that closes the last registered session of the channel. */
  predicate Empties(w: World, step: Step, c: Channel) {
    step.SessionCloses? && step.channel == c && SocketsOf(w.hub, c) - {step.socket} == {}
  }

  ghost predicate NeverEmptied(w: World, steps: seq<Step>, c: Channel)
    decreases |steps|
  {
    steps == [] || (Enabled(w, steps[0]) && !Empties(w, steps[0], c) && NeverEmptied(Next(w, steps[0]), steps[1..], c))
  }

  lemma DeafUntilEmptied(w: World, step: Step, c: Channel)
    requires Tracked(w) && Enabled(w, step) && Deaf(w.hub, c)
    ensures Deaf(Next(w, step).hub, c) <==> !Empties(w, step, c)
    ensures forall e :: e in Next(w, step).log && e.channel == c ==> e in w.log
  {
  }

  /** A crashed consumer is not replaced: whoever connects afterwards hears nothing until the channel has emptied. */
  lemma {:induction false} CrashedChannelStaysSilent(w: World, steps: seq<Step>, w': World, c: Channel)
    requires Tracked(w) && Orderly(w) && Deaf(w.hub, c) && IsRun(w, steps, w') && NeverEmptied(w, steps, c)
    ensures Deaf(w'.hub, c) && forall e :: e in w'.log && e.channel == c ==> e in w.log
    decreases |steps|
  {
    if steps != [] {
      StepKeepsTracked(w, steps[0]);
      StepKeepsOrderly(w, steps[0]);
      DeafUntilEmptied(w, steps[0], c);
      CrashedChannelStaysSilent(Next(w, steps[0]), steps[1..], w', c);
    }
  }

  /** Channel keys never outlive their task entry, except those that a failed broadcast creates anew: for every step,
      exactly when it is not a discard on a channel without an entry. */
  lemma KeysKeptIff(w: World, step: Step)
    requires Tracked(w) && Enabled(w, step) && w.hub.channels.Keys <= w.hub.tasks.Keys
    ensures Next(w, step).hub.channels.Keys <= Next(w, step).hub.tasks.Keys <==>
            !(step.BroadcastFails? && step.channel !in w.hub.tasks)
  {
    if step.BroadcastFails? {
      assert step.channel in Next(w, step).hub.channels;
    }
  }

  /** Both happen: a channel with an open session that nobody consumes, and a channel key left behind without any session. */
  lemma DeafAndStrayKeysHappen(c: Channel)
    ensures exists steps: seq<Step>, w: World :: IsRun(EMPTY_WORLD, steps, w) && Deaf(w.hub, c) && HasSession(w, c)
    ensures exists steps: seq<Step>, w: World :: IsRun(EMPTY_WORLD, steps, w) && w.sessions == {} && c in w.hub.channels
  {
    var joined := Next(EMPTY_WORLD, SessionOpens(0, c));
    var deaf := Next(joined, ConsumerCrashes(0));
    RunOfTwo(EMPTY_WORLD, SessionOpens(0, c), ConsumerCrashes(0));
    assert (0, c) in deaf.sessions;
    assert IsRun(EMPTY_WORLD, [SessionOpens(0, c), ConsumerCrashes(0)], deaf) && Deaf(deaf.hub, c) && HasSession(deaf, c);
    var stray := Next(Next(joined, SessionCloses(0, c)), BroadcastFails(c, 0));
    var steps := [SessionOpens(0, c), SessionCloses(0, c), BroadcastFails(c, 0)];
    assert steps[1..] == [SessionCloses(0, c), BroadcastFails(c, 0)];
    RunOfTwo(joined, SessionCloses(0, c), BroadcastFails(c, 0));
    assert IsRun(EMPTY_WORLD, steps, stray) && stray.sessions == {} && c in stray.hub.channels;
  }

  lemma RunOfTwo(w: World, first: Step, second: Step)
    requires Enabled(w, first) && Enabled(Next(w, first), second)
    ensures IsRun(w, [first, second], Next(Next(w, first), second))
  {
    assert [first, second][1..] == [second] && [second][1..] == [];
    assert IsRun(Next(Next(w, first), second), [], Next(Next(w, first), second));
    assert IsRun(Next(w, first), [second], Next(Next(w, first), second));
  }
}

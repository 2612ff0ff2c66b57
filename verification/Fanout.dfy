/** Nobody is forgotten: who stays registered on a channel, and who is sent what a consumer takes. */
module Fanout {
  import opened Prelude
  import opened Realtime

  // ---------- registered until disconnected or discarded ----------

  /** An open session's socket is registered unless a failed send discarded it since the session opened. */
  ghost predicate Registered(w: World) {
    forall ws, c :: ws in SocketsOf(w.hub, c) <==> (ws, c) in w.sessions && (ws, c) !in w.lost
  }

  lemma StepKeepsRegistered(w: World, step: Step)
    requires Registered(w) && Enabled(w, step)
    ensures Registered(Next(w, step))
  {
    var w' := Next(w, step);
    forall ws, c ensures ws in SocketsOf(w'.hub, c) <==> (ws, c) in w'.sessions && (ws, c) !in w'.lost {
      match step
      case SessionOpens(x, d) => ConnectRegisters(w.hub, x, d, c);
      case SessionCloses(x, d) => DisconnectUnregisters(w.hub, x, d, c);
      case BroadcastFails(d, x) => DiscardUnregisters(w.hub, x, d, c);
      case ConsumerEndsSend(t, ok) => DiscardUnregisters(w.hub, w.hub.consumers[t].awaited.value, w.hub.consumers[t].channel, c);
      case _ =>
    }
  }

  /** In every run, exactly the sockets of open sessions that no failed send discarded are registered. */
  lemma {:induction false} RegisteredUntilDiscarded(w: World, steps: seq<Step>, w': World)
    requires Registered(w) && IsRun(w, steps, w')
    ensures Registered(w')
    decreases |steps|
  {
    if steps != [] {
      StepKeepsRegistered(w, steps[0]);
      RegisteredUntilDiscarded(Next(w, steps[0]), steps[1..], w');
    }
  }

  // ---------- every message, to everyone ----------

  function Messages(taken: seq<Taking>): seq<nat> {
    if taken == [] then [] else Messages(taken[..|taken| - 1]) + [taken[|taken| - 1].message]
  }

  lemma MessagesAppend(taken: seq<Taking>, t: Taking)
    ensures Messages(taken + [t]) == Messages(taken) + [t.message]
  {
    assert (taken + [t])[..|taken|] == taken;
  }

  /** A send to each socket of the taking was started, or is still to come. */
  ghost predicate Served(w: World, t: nat, taking: Taking)
    requires t < |w.hub.consumers|
  {
    var k := w.hub.consumers[t];
    forall ws :: ws in taking.sockets ==>
      Delivery(t, k.channel, taking.message, ws) in w.log || (k.sending == Some(taking.message) && ws in k.targets)
  }

  /** A consumer has taken what it was handed, in order, up to its inbox; it serves everyone who was registered when it
      took a message; and who is still to be served was registered when it took the last one. */
  ghost predicate Diligent(w: World, t: nat)
    requires t < |w.hub.consumers| && t < |w.pasts|
  {
    var k, p := w.hub.consumers[t], w.pasts[t];
    && p.handed == Messages(p.taken) + k.inbox
    && (forall j :: 0 <= j < |p.taken| ==> Served(w, t, p.taken[j]))
    && (k.sending.Some? ==>
          && p.taken != [] && p.taken[|p.taken| - 1].message == k.sending.value
          && forall ws :: ws in k.targets ==> ws in p.taken[|p.taken| - 1].sockets)
  }

  /** Who was sent something was registered when the consumer took it. */
  ghost predicate Meant(w: World, e: Delivery) {
    && e.task < |w.pasts| && e.task < |w.hub.consumers| && w.hub.consumers[e.task].channel == e.channel
    && exists j :: 0 <= j < |w.pasts[e.task].taken| && w.pasts[e.task].taken[j].message == e.message && e.socket in w.pasts[e.task].taken[j].sockets
  }

  ghost predicate AllDiligent(w: World) {
    && |w.pasts| == |w.hub.consumers|
    && (forall t :: 0 <= t < |w.pasts| ==> Diligent(w, t))
    && (forall e :: e in w.log ==> Meant(w, e))
  }

  /** A consumer that a step leaves alone, or only cancels or crashes, stays diligent. */
  lemma SameWork(w: World, w': World, t: nat)
    requires t < |w.hub.consumers| && t < |w.pasts| && t < |w'.hub.consumers| && t < |w'.pasts| && Diligent(w, t)
    requires w'.pasts[t] == w.pasts[t] && w.log <= w'.log
    requires w'.hub.consumers[t] == w.hub.consumers[t].(cancelled := w'.hub.consumers[t].cancelled, crashed := w'.hub.consumers[t].crashed)
    ensures Diligent(w', t)
  {
    forall j | 0 <= j < |w.pasts[t].taken| ensures Served(w', t, w'.pasts[t].taken[j]) {
      assert Served(w, t, w.pasts[t].taken[j]);
    }
  }

  lemma PublishKeepsDiligent(w: World, c: Channel, receivers: set<nat>, t: nat)
    requires AllDiligent(w) && t < |w.pasts| && Enabled(w, Publish(c, receivers))
    ensures Diligent(Next(w, Publish(c, receivers)), t)
  {
    var w' := Next(w, Publish(c, receivers));
    assert Diligent(w, t);
    forall j | 0 <= j < |w.pasts[t].taken| ensures Served(w', t, w'.pasts[t].taken[j]) {
      assert Served(w, t, w.pasts[t].taken[j]);
    }
  }

  lemma ReceiveKeepsDiligent(w: World, t: nat, listing: seq<Socket>)
    requires AllDiligent(w) && Enabled(w, ConsumerReceives(t, listing))
    ensures Diligent(Next(w, ConsumerReceives(t, listing)), t)
  {
    var w' := Next(w, ConsumerReceives(t, listing));
    var k, taken := w.hub.consumers[t], w.pasts[t].taken;
    assert Diligent(w, t);
    MessagesAppend(taken, Taking(k.inbox[0], SocketsOf(w.hub, k.channel)));
    assert k.inbox == [k.inbox[0]] + k.inbox[1..];
    forall j | 0 <= j < |w'.pasts[t].taken| ensures Served(w', t, w'.pasts[t].taken[j]) {
      if j < |taken| {
        assert Served(w, t, taken[j]);
      }
    }
  }

  lemma StartKeepsDiligent(w: World, t: nat)
    requires AllDiligent(w) && Enabled(w, ConsumerStartsSend(t))
    ensures Diligent(Next(w, ConsumerStartsSend(t)), t)
  {
    var w' := Next(w, ConsumerStartsSend(t));
    assert Diligent(w, t);
    assert forall ws :: ws in w'.hub.consumers[t].targets ==> ws in w.hub.consumers[t].targets;
    forall j | 0 <= j < |w.pasts[t].taken| ensures Served(w', t, w'.pasts[t].taken[j]) {
      assert Served(w, t, w.pasts[t].taken[j]);
      assert forall ws :: ws in w.hub.consumers[t].targets ==> ws == w.hub.consumers[t].targets[0] || ws in w'.hub.consumers[t].targets;
    }
  }

  lemma EndKeepsDiligent(w: World, t: nat, ok: bool)
    requires AllDiligent(w) && Enabled(w, ConsumerEndsSend(t, ok))
    ensures Diligent(Next(w, ConsumerEndsSend(t, ok)), t)
  {
    var w' := Next(w, ConsumerEndsSend(t, ok));
    assert Diligent(w, t);
    forall j | 0 <= j < |w.pasts[t].taken| ensures Served(w', t, w'.pasts[t].taken[j]) {
      assert Served(w, t, w.pasts[t].taken[j]);
    }
  }

  /** The consumer whose turn a step is, if it is one's. */
  predicate TurnOf(step: Step, t: nat) {
    (step.ConsumerReceives? || step.ConsumerStartsSend? || step.ConsumerEndsSend?) && step.task == t
  }

  lemma OthersKeepWorking(w: World, step: Step, t: nat)
    requires AllDiligent(w) && Enabled(w, step) && t < |w.pasts| && !step.Publish? && !TurnOf(step, t)
    ensures |Next(w, step).pasts| == |Next(w, step).hub.consumers| > t && Diligent(Next(w, step), t)
  {
    SameWork(w, Next(w, step), t);
  }

  lemma StepKeepsEachDiligent(w: World, step: Step, t: nat)
    requires AllDiligent(w) && Enabled(w, step) && t < |Next(w, step).pasts|
    ensures |Next(w, step).pasts| == |Next(w, step).hub.consumers| && Diligent(Next(w, step), t)
  {
    if t == |w.pasts| {
      assert step.SessionOpens?;
    } else if step.Publish? {
      PublishKeepsDiligent(w, step.channel, step.receivers, t);
    } else if !TurnOf(step, t) {
      OthersKeepWorking(w, step, t);
    } else {
      match step
      case ConsumerReceives(_, listing) => ReceiveKeepsDiligent(w, t, listing);
      case ConsumerStartsSend(_) => StartKeepsDiligent(w, t);
      case ConsumerEndsSend(_, ok) => EndKeepsDiligent(w, t, ok);
    }
  }

  /** What was meant stays so: pasts only grow and channels of consumers do not change. */
  lemma MeantStays(w: World, step: Step, e: Delivery)
    requires Enabled(w, step) && Meant(w, e)
    ensures Meant(Next(w, step), e)
  {
    var w' := Next(w, step);
    var j :| 0 <= j < |w.pasts[e.task].taken| && w.pasts[e.task].taken[j].message == e.message && e.socket in w.pasts[e.task].taken[j].sockets;
    assert w'.pasts[e.task].taken[j] == w.pasts[e.task].taken[j];
  }

  lemma StartedIsMeant(w: World, t: nat)
    requires AllDiligent(w) && Enabled(w, ConsumerStartsSend(t))
    ensures var k := w.hub.consumers[t]; Meant(Next(w, ConsumerStartsSend(t)), Delivery(t, k.channel, k.sending.value, k.targets[0]))
  {
    var k, taken := w.hub.consumers[t], w.pasts[t].taken;
    assert Diligent(w, t);
    assert k.targets[0] in k.targets;
    assert Next(w, ConsumerStartsSend(t)).pasts[t].taken[|taken| - 1].message == k.sending.value;
  }

  lemma StepKeepsDiligent(w: World, step: Step)
    requires AllDiligent(w) && Enabled(w, step)
    ensures AllDiligent(Next(w, step))
  {
    var w' := Next(w, step);
    assert |w'.pasts| == |w'.hub.consumers|;
    forall t | 0 <= t < |w'.pasts| ensures Diligent(w', t) {
      StepKeepsEachDiligent(w, step, t);
    }
    forall e | e in w'.log ensures Meant(w', e) {
      if e in w.log {
        MeantStays(w, step, e);
      } else {
        StartedIsMeant(w, step.task);
      }
    }
  }

  lemma {:induction false} RunKeepsDiligent(w: World, steps: seq<Step>, w': World)
    requires AllDiligent(w) && IsRun(w, steps, w')
    ensures AllDiligent(w')
    decreases |steps|
  {
    if steps != [] {
      StepKeepsDiligent(w, steps[0]);
      RunKeepsDiligent(Next(w, steps[0]), steps[1..], w');
    }
  }

  // ---------- what every run guarantees ----------

  /** In every run: a consumer takes the messages handed to its subscription in their order and skips none. */
  lemma NoMessageSkipped(steps: seq<Step>, w: World, t: nat)
    requires IsRun(EMPTY_WORLD, steps, w) && t < |w.hub.consumers|
    ensures t < |w.pasts| && w.pasts[t].handed == Messages(w.pasts[t].taken) + w.hub.consumers[t].inbox
  {
    RunKeepsDiligent(EMPTY_WORLD, steps, w);
    assert Diligent(w, t);
  }

  /** Once a consumer is done with a message it took, sending it was started to everyone registered when it took it,
      however sends ended and whoever came or went meanwhile. */
  lemma EveryoneIsSent(steps: seq<Step>, w: World, t: nat, j: nat)
    requires IsRun(EMPTY_WORLD, steps, w) && t < |w.hub.consumers| && t < |w.pasts| && j < |w.pasts[t].taken|
    requires w.hub.consumers[t].sending != Some(w.pasts[t].taken[j].message)
    ensures forall ws :: ws in w.pasts[t].taken[j].sockets ==>
              Delivery(t, w.hub.consumers[t].channel, w.pasts[t].taken[j].message, ws) in w.log
  {
    RunKeepsDiligent(EMPTY_WORLD, steps, w);
    assert Diligent(w, t) && Served(w, t, w.pasts[t].taken[j]);
  }

  /** And to nobody else. */
  lemma NobodyElseIsSent(steps: seq<Step>, w: World, e: Delivery)
    requires IsRun(EMPTY_WORLD, steps, w) && e in w.log
    ensures Meant(w, e)
  {
    RunKeepsDiligent(EMPTY_WORLD, steps, w);
  }

  /** In every run from the empty manager, an open session hears its channel unless a failed send discarded it. */
  lemma OpenSessionsAreRegistered(steps: seq<Step>, w: World, ws: Socket, c: Channel)
    requires IsRun(EMPTY_WORLD, steps, w)
    ensures ws in SocketsOf(w.hub, c) <==> (ws, c) in w.sessions && (ws, c) !in w.lost
  {
    RegisteredUntilDiscarded(EMPTY_WORLD, steps, w);
  }
}

/** `ConnectionManager` itself: its two tables, and the event loop's consumers, updated in place by uninterrupted
    stretches of code. */
module RealtimeService {
  import opened Prelude
  import opened Realtime

  class ConnectionManager {
    var channels: map<Channel, set<Socket>>
    var tasks: map<Channel, nat>
    var consumers: seq<Consumer>

    function View(): Hub
      reads this
    {
      Hub(channels, tasks, consumers)
    }

    constructor ()
      ensures View() == EMPTY_WORLD.hub && Valid()
    {
      channels, tasks, consumers := map[], map[], [];
    }

    /** Every channel with sockets is consumed, by one consumer, and no other is. */
    ghost predicate Valid()
      reads this
    {
      Attended(View())
    }

    method Connect(ws: Socket, c: Channel)
      modifies this
      ensures old(Valid()) ==> Valid()
      ensures ws in SocketsOf(View(), c) && c in tasks
      ensures View() == Realtime.Connect(old(View()), ws, c)
    {
      channels := channels[c := (if c in channels then channels[c] else {}) + {ws}];
      if c !in tasks {
        var task := |consumers|;
        consumers := consumers + [Consumer(c, false, false, [], None, None, [])];
        tasks := tasks[c := task];
      }
      assert View() == Realtime.Connect(old(View()), ws, c);
      if old(Valid()) {
        ConnectKeepsAttended(old(View()), ws, c);
      }
    }

    method Disconnect(ws: Socket, c: Channel)
      modifies this
      ensures old(Valid()) ==> Valid()
      ensures ws !in SocketsOf(View(), c) && (SocketsOf(View(), c) == {} ==> c !in tasks)
      ensures View() == Realtime.Disconnect(old(View()), ws, c)
    {
      channels := channels[c := (if c in channels then channels[c] else {}) - {ws}];
      if channels[c] == {} {
        channels := channels - {c};
        if c in tasks {
          var task := tasks[c];
          tasks := tasks - {c};
          if task < |consumers| {
            consumers := consumers[task := consumers[task].(cancelled := true)];
          }
        }
      }
      assert View() == Realtime.Disconnect(old(View()), ws, c) by {
        assert View().channels == Realtime.Disconnect(old(View()), ws, c).channels;
      }
      if old(Valid()) {
        DisconnectKeepsAttended(old(View()), ws, c);
      }
    }

    /** What a failed send of `broadcast` or of a consumer does, without the lock. */
    method DiscardSocket(c: Channel, ws: Socket)
      modifies this
      ensures old(Valid()) ==> Valid()
      ensures ws !in SocketsOf(View(), c) && forall d :: d != c ==> SocketsOf(View(), d) == SocketsOf(old(View()), d)
      ensures View() == Discard(old(View()), c, ws)
    {
      channels := channels[c := (if c in channels then channels[c] else {}) - {ws}];
    }

    /** A consumer resumes with a message and lists the channel's sockets. */
    method ReceiveMessage(t: nat, listing: seq<Socket>)
      requires CanStep(View(), t) && consumers[t].sending.None? && consumers[t].inbox != []
      requires NoRepeats(listing) && forall ws :: ws in listing <==> ws in SocketsOf(View(), consumers[t].channel)
      modifies this
      ensures old(Valid()) ==> Valid()
      ensures View() == Receive(old(View()), t, listing)
    {
      var k := consumers[t];
      var sending := if listing == [] then None else Some(k.inbox[0]);
      consumers := consumers[t := k.(inbox := k.inbox[1..], sending := sending, targets := listing)];
    }

    /** A consumer calls `send_text` for its next target. */
    method StartSendToNext(t: nat)
      requires CanSend(View(), t)
      modifies this
      ensures old(Valid()) ==> Valid()
      ensures View() == StartSend(old(View()), t)
    {
      var k := consumers[t];
      consumers := consumers[t := k.(awaited := Some(k.targets[0]), targets := k.targets[1..])];
    }

    /** The awaited `send_text` returns or raises. */
    method EndAwaitedSend(t: nat, ok: bool)
      requires CanStep(View(), t) && consumers[t].awaited.Some?
      modifies this
      ensures old(Valid()) ==> Valid()
      ensures !ok ==> old(consumers[t].awaited.value) !in SocketsOf(View(), old(consumers[t].channel))
      ensures View() == EndSend(old(View()), t, ok)
    {
      var k := consumers[t];
      if !ok {
        DiscardSocket(k.channel, k.awaited.value);
      }
      var sending := if k.targets == [] then None else k.sending;
      consumers := consumers[t := k.(awaited := None, sending := sending)];
    }
  }
}

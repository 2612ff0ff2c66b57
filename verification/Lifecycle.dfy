/** The life of one order, as its event log tells it. */
module Lifecycle {
  import opened Prelude
  import opened Tables
  import opened Orders

  /** The statuses an order has had, oldest first. */
  function Path(events: seq<Event>): (p: seq<Status>)
    ensures |p| >= 1 && p[0] == Pending
  {
    if events == [] then [Pending]
    else
      var earlier := Path(events[..|events| - 1]);
      match events[|events| - 1]
      case StatusChanged(to) => earlier + [to]
      case _ => earlier
  }

  ghost predicate LegalPath(p: seq<Status>) {
    && |p| >= 1 && p[0] == Pending
    && forall k :: 0 <= k < |p| - 1 ==> p[k + 1] in AllowedTransitions(p[k])
  }

  /** The record agrees with the log: the current status ends a legal path, and each timestamp is set exactly when
      its status is on the path. */
  ghost predicate Consistent(o: Order) {
    var p := Path(o.events);
    && LegalPath(p)
    && p[|p| - 1] == o.status
    && (o.paidAt.Some? <==> Paid in p)
    && (o.cancelledAt.Some? <==> Cancelled in p)
    && (o.refundedAt.Some? <==> Refunded in p)
  }

  function Rank(s: Status): nat {
    match s
    case Pending => 0
    case Paid => 1
    case Packed => 2
    case Shipped => 3
    case Delivered => 4
    case Cancelled => 5
    case Refunded => 5
  }

  lemma {:induction false} RankIncreases(p: seq<Status>, i: nat, j: nat)
    requires LegalPath(p) && i < j < |p|
    ensures Rank(p[i]) + (j - i) <= Rank(p[j])
  {
    if i < j - 1 {
      RankIncreases(p, i, j - 1);
    }
    assert p[(j - 1) + 1] in AllowedTransitions(p[j - 1]);
  }

  /** What a legal path looks like: it never revisits a rank, so it has at most five transitions; an order that left
      PENDING either was paid first or was cancelled for good; CANCELLED and REFUNDED end the path and exclude each
      other; and REFUNDED means it had been paid. */
  lemma LegalPathShape(p: seq<Status>)
    requires LegalPath(p)
    ensures |p| <= 6
    ensures forall i, j :: 0 <= i < j < |p| ==> Rank(p[i]) < Rank(p[j])
    ensures forall i :: 0 <= i < |p| && (p[i] == Cancelled || p[i] == Refunded) ==> i == |p| - 1
    ensures Paid in p <==> |p| > 1 && p[1] == Paid
    ensures p[|p| - 1] == Pending <==> |p| == 1
    ensures Refunded in p ==> Paid in p && Cancelled !in p
    ensures Paid !in p ==> p == [Pending] || p == [Pending, Cancelled]
  {
    forall i, j | 0 <= i < j < |p| ensures Rank(p[i]) + (j - i) <= Rank(p[j]) {
      RankIncreases(p, i, j);
    }
    forall k | 0 <= k < |p| - 1 ensures p[k] != Cancelled && p[k] != Refunded {
      assert p[k + 1] in AllowedTransitions(p[k]);
    }
    if |p| > 1 {
      assert Rank(p[0]) + (|p| - 1) <= Rank(p[|p| - 1]);
      assert p[0 + 1] in AllowedTransitions(p[0]);
    }
  }

  /** The way of an order that nothing goes wrong with. */
  const MAIN_LINE := [Pending, Paid, Packed, Shipped, Delivered]

  /** A stretch of the main line, possibly ended by a refund once paid, or by a cancellation before shipping. */
  predicate IsStory(p: seq<Status>, n: nat) {
    && 1 <= n <= 5
    && (|| p == MAIN_LINE[..n]
        || (n >= 2 && p == MAIN_LINE[..n] + [Refunded])
        || (n <= 3 && p == MAIN_LINE[..n] + [Cancelled]))
  }

  /** These are all the lives that the transition table allows, and it allows them all. */
  lemma LegalPathIff(p: seq<Status>)
    ensures LegalPath(p) <==> exists n :: IsStory(p, n)
  {
    if LegalPath(p) {
      var n := StoryOf(p);
    }
    forall n | IsStory(p, n) ensures LegalPath(p) {
      StoryIsLegal(p, n);
    }
  }

  lemma StoryIsLegal(p: seq<Status>, n: nat)
    requires IsStory(p, n)
    ensures LegalPath(p)
  {
    assert p[0] == MAIN_LINE[0];
    forall k | 0 <= k < |p| - 1 ensures p[k + 1] in AllowedTransitions(p[k]) {
      assert p[k] == MAIN_LINE[k];
      if k + 1 < n {
        assert p[k + 1] == MAIN_LINE[k + 1];
      } else {
        assert k == n - 1 && p[k + 1] in {Refunded, Cancelled};
        assert p[k + 1] == Refunded ==> n >= 2;
        assert p[k + 1] == Cancelled ==> n <= 3;
      }
    }
  }

  lemma {:induction false} StoryOf(p: seq<Status>) returns (n: nat)
    requires LegalPath(p)
    ensures IsStory(p, n)
    decreases |p|
  {
    if |p| == 1 {
      assert p == MAIN_LINE[..1];
      return 1;
    }
    var q, last := p[..|p| - 1], p[|p| - 1];
    assert p == q + [last] && last in AllowedTransitions(q[|q| - 1]);
    var m := StoryOf(q);
    assert |q| == m && q == MAIN_LINE[..m];
    if last == Refunded || last == Cancelled {
      return m;
    }
    assert MAIN_LINE[..m + 1] == MAIN_LINE[..m] + [MAIN_LINE[m]];
    n := m + 1;
  }

  lemma PathAppend(events: seq<Event>, e: Event)
    ensures Path(events + [e]) == Path(events) + if e.StatusChanged? then [e.to] else []
  {
    assert (events + [e])[..|events|] == events;
  }

  /** Advancing a consistent order along an allowed transition keeps it consistent. */
  lemma AdvanceKeepsConsistent(o: Order, to: Status, now: int)
    requires Consistent(o) && CanTransitionTo(o, to)
    ensures Consistent(Advance(o, to, now))
    ensures Path(Advance(o, to, now).events) == Path(o.events) + [to]
    ensures to == Paid ==> Advance(o, to, now).paidAt == Some(now)
  {
    PathAppend(o.events, StatusChanged(to));
    var p := Path(o.events);
    assert forall s :: s in p + [to] <==> s in p || s == to;
  }
}

/** Reading the movement ledger back: replaying it row by row, and adding it up order by order. */
module Ledger {
  import opened Prelude
  import opened Tables

  /** What the ledger says about one row. */
  datatype Level = Level(onHand: int, reserved: int)

  /** A row that does not exist yet starts from nothing, as `get_or_create` creates it. */
  function LevelOf(rows: seq<Stock>, i: nat): Level {
    if i < |rows| then Level(rows[i].onHand, rows[i].reserved) else Level(0, 0)
  }

  function Posted(l: Level, m: Movement): Level {
    match m.reason
    case Reservation => l.(reserved := l.reserved - m.quantity)
    case ReservationRelease => l.(reserved := l.reserved - m.quantity)
    case Sale => Level(l.onHand + m.quantity, l.reserved + m.quantity)
    case Adjustment => l.(onHand := Max(l.onHand + m.quantity, 0))
  }

  /** The movements of row `i`, applied in order. */
  function Replay(l: Level, moves: seq<Movement>, i: nat): Level
    decreases |moves|
  {
    if moves == [] then l
    else Replay(if moves[0].row == i then Posted(l, moves[0]) else l, moves[1..], i)
  }

  lemma {:induction false} ReplayConcat(l: Level, a: seq<Movement>, b: seq<Movement>, i: nat)
    ensures Replay(l, a + b, i) == Replay(Replay(l, a, i), b, i)
    decreases |a|
  {
    if a == [] {
      assert a + b == b;
    } else {
      assert (a + b)[1..] == a[1..] + b;
      ReplayConcat(if a[0].row == i then Posted(l, a[0]) else l, a[1..], b, i);
    }
  }

  /** The signed total of an order's movements of one kind for one variant. */
  function Tally(moves: seq<Movement>, reason: Reason, order: nat, v: VariantId): int {
    if moves == [] then 0
    else TallyOf(moves[0], reason, order, v) + Tally(moves[1..], reason, order, v)
  }

  function TallyOf(m: Movement, reason: Reason, order: nat, v: VariantId): int {
    if m.reason == reason && m.reference == Some(order) && m.variant == v then m.quantity else 0
  }

  lemma TallyCons(m: Movement, moves: seq<Movement>, reason: Reason, order: nat, v: VariantId)
    ensures Tally([m] + moves, reason, order, v) == TallyOf(m, reason, order, v) + Tally(moves, reason, order, v)
  {
    assert ([m] + moves)[1..] == moves;
  }

  lemma {:induction false} TallyConcat(a: seq<Movement>, b: seq<Movement>, reason: Reason, order: nat, v: VariantId)
    ensures Tally(a + b, reason, order, v) == Tally(a, reason, order, v) + Tally(b, reason, order, v)
  {
    if a == [] {
      assert a + b == b;
    } else {
      assert (a + b)[1..] == a[1..] + b;
      TallyConcat(a[1..], b, reason, order, v);
    }
  }
}

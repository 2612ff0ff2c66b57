/** The greedy walk shared by reserving, releasing and committing, and what every walk does. */
module Greedy {
  import opened Prelude
  import opened Tables
  import opened Allocation
  import opened Ledger

  datatype Operation = Reserving | Releasing | Committing

  /** What an operation can take from a row. */
  function Limit(op: Operation): Quantity {
    match op
    case Reserving => Available
    case Releasing => Reserved
    case Committing => Committable
  }

  function Capacity(op: Operation, r: Stock): int {
    QuantityOf(Limit(op), r)
  }

  function OnHandShift(op: Operation, t: int): int {
    if op == Committing then -t else 0
  }

  function ReservedShift(op: Operation, t: int): int {
    if op == Reserving then t else -t
  }

  function Moved(op: Operation, r: Stock, t: int): Stock {
    r.(onHand := r.onHand + OnHandShift(op, t), reserved := r.reserved + ReservedShift(op, t))
  }

  function ReasonFor(op: Operation): Reason {
    match op
    case Reserving => Reservation
    case Releasing => ReservationRelease
    case Committing => Sale
  }

  /** Outflows are logged as negative quantities. */
  function Signed(op: Operation, t: int): int {
    if op == Releasing then t else -t
  }

  datatype Walked = Walked(rows: seq<Stock>, moves: seq<Movement>, left: int)

  /** Take as much as each visited row can give until nothing is wanted any more. */
  function Walk(op: Operation, rows: seq<Stock>, visit: seq<nat>, want: int, ref: Option<nat>): (w: Walked)
    requires Within(visit, |rows|)
    ensures |w.rows| == |rows|
    decreases |visit|
  {
    if visit == [] || want <= 0 then Walked(rows, [], want)
    else
      var i := visit[0];
      var t := Min(Capacity(op, rows[i]), want);
      var rest := Walk(op, rows[i := Moved(op, rows[i], t)], visit[1..], want - t, ref);
      if t == 0 then rest
      else rest.(moves := [Movement(i, rows[i].variant, Signed(op, t), ReasonFor(op), ref)] + rest.moves)
  }

  // ---------- facts about every walk ----------

  ghost predicate Sound(rows: seq<Stock>) {
    forall i :: 0 <= i < |rows| ==> rows[i].onHand >= 0 && rows[i].reserved >= 0
  }

  predicate OnVariant(rows: seq<Stock>, visit: seq<nat>, v: VariantId)
    requires Within(visit, |rows|)
  {
    forall k :: 0 <= k < |visit| ==> rows[visit[k]].variant == v
  }

  /** Same row, possibly with other stock figures. */
  predicate SameRow(a: Stock, b: Stock) {
    a.variant == b.variant && a.warehouse == b.warehouse && a.safetyBuffer == b.safetyBuffer
  }

  ghost predicate SameRows(a: seq<Stock>, b: seq<Stock>) {
    |a| == |b| && forall i :: 0 <= i < |a| ==> SameRow(a[i], b[i])
  }

  lemma {:induction false} WalkKeepsRows(op: Operation, rows: seq<Stock>, visit: seq<nat>, want: int, ref: Option<nat>)
    requires Within(visit, |rows|)
    ensures SameRows(rows, Walk(op, rows, visit, want, ref).rows)
    ensures forall i :: 0 <= i < |rows| && i !in visit ==> Walk(op, rows, visit, want, ref).rows[i] == rows[i]
    decreases |visit|
  {
    if visit != [] && want > 0 {
      var i := visit[0];
      var t := Min(Capacity(op, rows[i]), want);
      WalkKeepsRows(op, rows[i := Moved(op, rows[i], t)], visit[1..], want - t, ref);
    }
  }

  lemma {:induction false} WalkKeepsSound(op: Operation, rows: seq<Stock>, visit: seq<nat>, want: int, ref: Option<nat>)
    requires Within(visit, |rows|) && Sound(rows) && want >= 0
    ensures Sound(Walk(op, rows, visit, want, ref).rows)
    ensures 0 <= Walk(op, rows, visit, want, ref).left <= want
    decreases |visit|
  {
    if visit != [] && want > 0 {
      var i := visit[0];
      var t := Min(Capacity(op, rows[i]), want);
      WalkKeepsSound(op, rows[i := Moved(op, rows[i], t)], visit[1..], want - t, ref);
    }
  }

  /** Taking from the first visited row leaves the later rows what they could give. */
  lemma LeaveStep(op: Operation, rows: seq<Stock>, visit: seq<nat>, want: int, ref: Option<nat>)
    requires Within(visit, |rows|) && Distinct(visit) && Sound(rows) && visit != [] && want > 0
    ensures var here := Capacity(op, rows[visit[0]]);
            var rows' := rows[visit[0] := Moved(op, rows[visit[0]], Min(here, want))];
            && here >= 0 && Distinct(visit[1..]) && Sound(rows')
            && VisitSum(Plain(Limit(op)), rows', visit[1..]) == VisitSum(Plain(Limit(op)), rows, visit) - here
            && Walk(op, rows', visit[1..], want - Min(here, want), ref).left == Walk(op, rows, visit, want, ref).left
  {
    var i := visit[0];
    var rows' := rows[i := Moved(op, rows[i], Min(Capacity(op, rows[i]), want))];
    VisitSumFrame(Plain(Limit(op)), Plain(Limit(op)), rows, rows', visit[1..]);
  }

  lemma {:induction false} WalkLeavesOf(op: Operation, rows: seq<Stock>, visit: seq<nat>, want: int, ref: Option<nat>, total: int, left: int)
    requires Within(visit, |rows|) && Distinct(visit) && Sound(rows) && want >= 0
    requires total == VisitSum(Plain(Limit(op)), rows, visit) && left == Walk(op, rows, visit, want, ref).left
    ensures 0 <= total && left == Max(want - total, 0)
    decreases |visit|
  {
    if visit != [] && want > 0 {
      var here := Capacity(op, rows[visit[0]]);
      var t := Min(here, want);
      LeaveStep(op, rows, visit, want, ref);
      WalkLeavesOf(op, rows[visit[0] := Moved(op, rows[visit[0]], t)], visit[1..], want - t, ref, total - here, left);
      assert t == want || t == here;
    } else {
      VisitSumNonnegative(op, rows, visit);
    }
  }

  /** Greed leaves exactly what the visited rows together cannot give. */
  lemma WalkLeaves(op: Operation, rows: seq<Stock>, visit: seq<nat>, want: int, ref: Option<nat>)
    requires Within(visit, |rows|) && Distinct(visit) && Sound(rows) && want >= 0
    ensures Walk(op, rows, visit, want, ref).left == Max(want - VisitSum(Plain(Limit(op)), rows, visit), 0)
  {
    WalkLeavesOf(op, rows, visit, want, ref, VisitSum(Plain(Limit(op)), rows, visit), Walk(op, rows, visit, want, ref).left);
  }

  lemma {:induction false} VisitSumNonnegative(op: Operation, rows: seq<Stock>, visit: seq<nat>)
    requires Within(visit, |rows|) && Sound(rows)
    ensures VisitSum(Plain(Limit(op)), rows, visit) >= 0
  {
    if visit != [] {
      VisitSumNonnegative(op, rows, visit[1..]);
    }
  }

  function Shift(op: Operation, q: Quantity, t: int): int {
    if q == OnHand then OnHandShift(op, t) else ReservedShift(op, t)
  }

  lemma {:induction false} WalkSum(op: Operation, q: Quantity, rows: seq<Stock>, visit: seq<nat>, want: int, ref: Option<nat>, v: VariantId, u: VariantId)
    requires Within(visit, |rows|) && OnVariant(rows, visit, v) && (q == OnHand || q == Reserved)
    ensures var w := Walk(op, rows, visit, want, ref);
            Sum(Plain(q), u, w.rows) == Sum(Plain(q), u, rows) + Shift(op, q, if u == v then want - w.left else 0)
    decreases |visit|
  {
    if visit != [] && want > 0 {
      var i := visit[0];
      var t := Min(Capacity(op, rows[i]), want);
      var r := Moved(op, rows[i], t);
      WalkSum(op, q, rows[i := r], visit[1..], want - t, ref, v, u);
      SumUpdate(Plain(q), u, rows, i, r);
    }
  }

  /** What left the wanted amount went into, or out of, the variant's totals; other variants keep theirs. */
  lemma WalkSums(op: Operation, rows: seq<Stock>, visit: seq<nat>, want: int, ref: Option<nat>, v: VariantId, u: VariantId)
    requires Within(visit, |rows|) && OnVariant(rows, visit, v)
    ensures var w := Walk(op, rows, visit, want, ref);
            var taken := if u == v then want - w.left else 0;
            && Sum(Plain(OnHand), u, w.rows) == Sum(Plain(OnHand), u, rows) + OnHandShift(op, taken)
            && Sum(Plain(Reserved), u, w.rows) == Sum(Plain(Reserved), u, rows) + ReservedShift(op, taken)
  {
    WalkSum(op, OnHand, rows, visit, want, ref, v, u);
    WalkSum(op, Reserved, rows, visit, want, ref, v, u);
  }

  /** Totals over active warehouses: all that a reservation takes, it takes there. */
  lemma {:induction false} WalkReach(q: Quantity, wh: Warehouses, rows: seq<Stock>, visit: seq<nat>, want: int, ref: Option<nat>, v: VariantId)
    requires Within(visit, |rows|) && OnVariant(rows, visit, v) && (q == OnHand || q == Reserved)
    requires forall k :: 0 <= k < |visit| ==> IsActive(wh, rows[visit[k]])
    ensures var w := Walk(Reserving, rows, visit, want, ref);
            Sum(Reach(q, wh, None), v, w.rows) == Sum(Reach(q, wh, None), v, rows) + Shift(Reserving, q, want - w.left)
    decreases |visit|
  {
    if visit != [] && want > 0 {
      var i := visit[0];
      var t := Min(Capacity(Reserving, rows[i]), want);
      var r := Moved(Reserving, rows[i], t);
      WalkReach(q, wh, rows[i := r], visit[1..], want - t, ref, v);
      SumUpdate(Reach(q, wh, None), v, rows, i, r);
    }
  }

  lemma TakingLowersWeight(op: Operation, m: Measure, row: Stock, t: int, u: VariantId)
    requires m.quantity == Limit(op) && (t == Capacity(op, row) || 0 <= t <= Capacity(op, row))
    requires m.Reach? ==> m.limit == None && IsActive(m.wh, row)
    ensures Weight(m, u, Moved(op, row, t)) == Weight(m, u, row) - if row.variant == u then t else 0
  {
  }

  /** Whatever limits an operation shrinks by what the operation takes. */
  lemma {:induction false} WalkLowers(op: Operation, m: Measure, rows: seq<Stock>, visit: seq<nat>, want: int, ref: Option<nat>, v: VariantId, u: VariantId)
    requires Within(visit, |rows|) && OnVariant(rows, visit, v) && m.quantity == Limit(op)
    requires m.Reach? ==> m.limit == None && forall k :: 0 <= k < |visit| ==> IsActive(m.wh, rows[visit[k]])
    ensures var w := Walk(op, rows, visit, want, ref);
            Sum(m, u, w.rows) == Sum(m, u, rows) - if u == v then want - w.left else 0
    decreases |visit|
  {
    if visit != [] && want > 0 {
      var i := visit[0];
      var t := Min(Capacity(op, rows[i]), want);
      var row := Moved(op, rows[i], t);
      TakingLowersWeight(op, m, rows[i], t, u);
      WalkLowers(op, m, rows[i := row], visit[1..], want - t, ref, v, u);
      SumUpdate(m, u, rows, i, row);
    }
  }

  /** Every walk logs exactly what it did: kind, order and variant are right, and the amounts add up. */
  lemma {:induction false} WalkLogs(op: Operation, rows: seq<Stock>, visit: seq<nat>, want: int, ref: Option<nat>, v: VariantId)
    requires Within(visit, |rows|) && OnVariant(rows, visit, v)
    ensures forall m :: m in Walk(op, rows, visit, want, ref).moves ==>
              m.row in visit && m.variant == v && m.reason == ReasonFor(op) && m.reference == ref
    decreases |visit|
  {
    if visit != [] && want > 0 {
      var i := visit[0];
      var t := Min(Capacity(op, rows[i]), want);
      WalkLogs(op, rows[i := Moved(op, rows[i], t)], visit[1..], want - t, ref, v);
    }
  }

  lemma {:induction false} WalkTally(op: Operation, rows: seq<Stock>, visit: seq<nat>, want: int, ref: Option<nat>, v: VariantId,
                                     reason: Reason, order: nat, u: VariantId)
    requires Within(visit, |rows|) && OnVariant(rows, visit, v)
    ensures var w := Walk(op, rows, visit, want, ref);
            Tally(w.moves, reason, order, u) ==
            if reason == ReasonFor(op) && ref == Some(order) && u == v then Signed(op, want - w.left) else 0
    decreases |visit|
  {
    if visit != [] && want > 0 {
      var i := visit[0];
      var t := Min(Capacity(op, rows[i]), want);
      var rows' := rows[i := Moved(op, rows[i], t)];
      WalkTally(op, rows', visit[1..], want - t, ref, v, reason, order, u);
      TallyCons(Movement(i, rows[i].variant, Signed(op, t), ReasonFor(op), ref), Walk(op, rows', visit[1..], want - t, ref).moves, reason, order, u);
    }
  }

  /** Replaying what a walk logged, row by row, gives the rows it left behind. */
  lemma {:induction false} WalkReplays(op: Operation, rows: seq<Stock>, visit: seq<nat>, want: int, ref: Option<nat>, i: nat)
    requires Within(visit, |rows|)
    ensures var w := Walk(op, rows, visit, want, ref);
            Replay(LevelOf(rows, i), w.moves, i) == LevelOf(w.rows, i)
    decreases |visit|
  {
    if visit != [] && want > 0 {
      var j := visit[0];
      var t := Min(Capacity(op, rows[j]), want);
      var next := rows[j := Moved(op, rows[j], t)];
      var m := Movement(j, rows[j].variant, Signed(op, t), ReasonFor(op), ref);
      var rest := Walk(op, next, visit[1..], want - t, ref);
      WalkReplays(op, next, visit[1..], want - t, ref, i);
      assert LevelOf(next, i) == if j == i then Posted(LevelOf(rows, i), m) else LevelOf(rows, i);
      if t != 0 {
        assert ([m] + rest.moves)[1..] == rest.moves;
        assert Replay(LevelOf(rows, i), [m] + rest.moves, i) == Replay(LevelOf(next, i), rest.moves, i);
      } else {
        assert LevelOf(next, i) == LevelOf(rows, i);
      }
    }
  }
}

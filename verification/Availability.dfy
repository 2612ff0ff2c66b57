/** How each inventory operation moves the quantity that shoppers are told is available. */
module Availability {
  import opened Prelude
  import opened Tables
  import opened Allocation
  import opened Greedy
  import opened Inventory

  /** Not overdrawn: what is reserved, and the safety buffer, are on the shelf. */
  predicate Settled(r: Stock) {
    r.onHand >= r.reserved + r.safetyBuffer
  }

  /** Every row with reservations is settled. An adjustment below `reserved` is what breaks this. */
  ghost predicate Healthy(rows: seq<Stock>) {
    forall i :: 0 <= i < |rows| && rows[i].reserved > 0 ==> Settled(rows[i])
  }

  // ---------- reserving ----------

  /** A successful reservation lowers what is available by exactly its quantity, for its variant only. */
  lemma ReserveLowersAvailable(d: Depot, engine: Engine, v: VariantId, quantity: nat, ref: Option<nat>, u: VariantId)
    requires Sound(d.rows) && Perform(Reserving, d, engine, v, quantity, ref).Success?
    ensures var d' := Perform(Reserving, d, engine, v, quantity, ref).value;
            GetAvailable(d', u) == GetAvailable(d, u) - if u == v then quantity else 0
  {
    var visit := Query(Reserving, d, engine, v);
    WalkLowers(Reserving, Plain(Available), d.rows, visit, quantity, ref, v, u);
    WalkKeepsSound(Reserving, d.rows, visit, quantity, ref);
  }

  // ---------- committing ----------

  /** A sale takes from shelf and reservation alike, so no row's availability moves. */
  lemma {:induction false} CommittingKeepsAvailable(rows: seq<Stock>, visit: seq<nat>, want: nat, ref: Option<nat>, i: nat)
    requires Within(visit, |rows|) && i < |rows|
    ensures Walk(Committing, rows, visit, want, ref).rows[i].Available() == rows[i].Available()
    decreases |visit|
  {
    if visit != [] && want > 0 {
      var j := visit[0];
      var t := Min(Capacity(Committing, rows[j]), want);
      CommittingKeepsAvailable(rows[j := Moved(Committing, rows[j], t)], visit[1..], want - t, ref, i);
    }
  }

  lemma CommitKeepsAvailable(d: Depot, engine: Engine, v: VariantId, quantity: nat, ref: Option<nat>)
    requires Perform(Committing, d, engine, v, quantity, ref).Success?
    ensures var d' := Perform(Committing, d, engine, v, quantity, ref).value;
            && |d'.rows| == |d.rows|
            && (forall i :: 0 <= i < |d.rows| ==> d'.rows[i].Available() == d.rows[i].Available())
            && (forall u :: GetAvailable(d', u) == GetAvailable(d, u))
  {
    var visit := Query(Committing, d, engine, v);
    var d' := Perform(Committing, d, engine, v, quantity, ref).value;
    WalkKeepsRows(Committing, d.rows, visit, quantity, ref);
    forall i | 0 <= i < |d.rows| ensures d'.rows[i].Available() == d.rows[i].Available() {
      CommittingKeepsAvailable(d.rows, visit, quantity, ref, i);
    }
    forall u ensures GetAvailable(d', u) == GetAvailable(d, u) {
      SumSame(Plain(Available), u, d.rows, d'.rows);
    }
  }

  lemma {:induction false} SumSame(m: Measure, v: VariantId, rows: seq<Stock>, rows': seq<Stock>)
    requires |rows| == |rows'|
    requires forall i :: 0 <= i < |rows| ==> Weight(m, v, rows[i]) == Weight(m, v, rows'[i])
    ensures Sum(m, v, rows) == Sum(m, v, rows')
  {
    if rows != [] {
      SumSame(m, v, rows[..|rows| - 1], rows'[..|rows| - 1]);
    }
  }

  // ---------- releasing ----------

  /** Every row that a walk changed was settled before it. */
  ghost predicate ChangedOnlySettled(rows: seq<Stock>, rows': seq<Stock>)
    requires |rows| == |rows'|
  {
    forall i :: 0 <= i < |rows| && rows[i] != rows'[i] ==> Settled(rows[i])
  }

  /** A release only lowers reservations. */
  lemma {:induction false} ReleasingLowersReserved(rows: seq<Stock>, visit: seq<nat>, want: nat, ref: Option<nat>, i: nat)
    requires Within(visit, |rows|) && Sound(rows) && i < |rows|
    ensures var r := Walk(Releasing, rows, visit, want, ref).rows[i];
            r == rows[i].(reserved := r.reserved) && r.reserved <= rows[i].reserved
    decreases |visit|
  {
    if visit != [] && want > 0 {
      var j := visit[0];
      var t := Min(Capacity(Releasing, rows[j]), want);
      ReleasingLowersReserved(rows[j := Moved(Releasing, rows[j], t)], visit[1..], want - t, ref, i);
    }
  }

  /** Lowering reservations raises availability by no more, and by as much if and only if every row that changed was
      settled. */
  lemma {:induction false} LoweringRaises(rows: seq<Stock>, rows': seq<Stock>, v: VariantId)
    requires |rows| == |rows'|
    requires forall i :: 0 <= i < |rows| ==>
               rows'[i] == rows[i].(reserved := rows'[i].reserved) && rows'[i].reserved <= rows[i].reserved
    requires forall i :: 0 <= i < |rows| && rows[i].variant != v ==> rows'[i] == rows[i]
    ensures var rise := Sum(Plain(Available), v, rows') - Sum(Plain(Available), v, rows);
            var released := Sum(Plain(Reserved), v, rows) - Sum(Plain(Reserved), v, rows');
            rise <= released && (rise == released <==> ChangedOnlySettled(rows, rows'))
  {
    if rows != [] {
      var last := |rows| - 1;
      LoweringRaises(rows[..last], rows'[..last], v);
      assert ChangedOnlySettled(rows, rows') <==>
             ChangedOnlySettled(rows[..last], rows'[..last]) && (rows[last] != rows'[last] ==> Settled(rows[last]));
    }
  }

  /** A release raises what is available by at most the units it released, and by exactly those units if and only
      if no row it changed was overdrawn. */
  lemma ReleaseRaisesAvailable(d: Depot, engine: Engine, v: VariantId, quantity: nat, ref: Option<nat>)
    requires Sound(d.rows)
    ensures var d' := Perform(Releasing, d, engine, v, quantity, ref).value;
            var rise := GetAvailable(d', v) - GetAvailable(d, v);
            var released := Min(quantity, Sum(Plain(Reserved), v, d.rows));
            && |d'.rows| == |d.rows|
            && rise <= released && (rise == released <==> ChangedOnlySettled(d.rows, d'.rows))
  {
    var visit := Query(Releasing, d, engine, v);
    var d' := Perform(Releasing, d, engine, v, quantity, ref).value;
    WalkKeepsRows(Releasing, d.rows, visit, quantity, ref);
    forall i | 0 <= i < |d.rows|
      ensures d'.rows[i] == d.rows[i].(reserved := d'.rows[i].reserved) && d'.rows[i].reserved <= d.rows[i].reserved
      ensures d.rows[i].variant != v ==> d'.rows[i] == d.rows[i]
    {
      ReleasingLowersReserved(d.rows, visit, quantity, ref, i);
      assert i in visit ==> d.rows[i].variant == v;
    }
    LoweringRaises(d.rows, d'.rows, v);
    PerformTakes(Releasing, d, engine, v, quantity, ref, v);
  }

  // ---------- health ----------

  lemma {:induction false} WalkKeepsHealthy(op: Operation, rows: seq<Stock>, visit: seq<nat>, want: nat, ref: Option<nat>)
    requires Within(visit, |rows|) && Sound(rows) && Healthy(rows)
    ensures Healthy(Walk(op, rows, visit, want, ref).rows)
    decreases |visit|
  {
    if visit != [] && want > 0 {
      var i := visit[0];
      var t := Min(Capacity(op, rows[i]), want);
      WalkKeepsHealthy(op, rows[i := Moved(op, rows[i], t)], visit[1..], want - t, ref);
    }
  }

  /** Reserving, releasing and committing never break health. */
  lemma PerformKeepsHealthy(op: Operation, d: Depot, engine: Engine, v: VariantId, quantity: nat, ref: Option<nat>)
    requires Sound(d.rows) && Healthy(d.rows) && Perform(op, d, engine, v, quantity, ref).Success?
    ensures Healthy(Perform(op, d, engine, v, quantity, ref).value.rows)
  {
    WalkKeepsHealthy(op, d.rows, Query(op, d, engine, v), quantity, ref);
  }

  /** An adjustment keeps health exactly if the row it adjusts has nothing reserved or still covers its reservations
      and buffer; an adjustment upwards always does. */
  lemma AdjustKeepsHealthyIff(d: Depot, v: VariantId, code: string, delta: int)
    requires Sound(d.rows) && Healthy(d.rows) && Adjust(d, v, code, delta).Success?
    ensures var i := FindRow(d.rows, v, code);
            && (Healthy(Adjust(d, v, code, delta).value.rows) <==>
                (i < |d.rows| && d.rows[i].reserved > 0 ==>
                   Max(d.rows[i].onHand + delta, 0) >= d.rows[i].reserved + d.rows[i].safetyBuffer))
            && (delta >= 0 ==> Healthy(Adjust(d, v, code, delta).value.rows))
  {
    var d', i := Adjust(d, v, code, delta).value, FindRow(d.rows, v, code);
    var rows := WithRow(d.rows, v, code);
    assert d'.rows[i] == rows[i].(onHand := Max(rows[i].onHand + delta, 0));
    forall j | 0 <= j < |d'.rows| && j != i ensures d'.rows[j].reserved > 0 ==> Settled(d'.rows[j]) {
      assert j < |d.rows| && d'.rows[j] == d.rows[j];
    }
  }

  /** On healthy stock, releasing what was just reserved restores what is available, however the two calls ordered
      the rows. */
  lemma ReserveThenRelease(d: Depot, first: Engine, second: Engine, v: VariantId, quantity: nat, ref: Option<nat>)
    requires Sound(d.rows) && Healthy(d.rows) && Perform(Reserving, d, first, v, quantity, ref).Success?
    ensures var d1 := Perform(Reserving, d, first, v, quantity, ref).value;
            var d2 := Perform(Releasing, d1, second, v, quantity, ref).value;
            && GetAvailable(d2, v) == GetAvailable(d, v)
            && Sum(Plain(Reserved), v, d2.rows) == Sum(Plain(Reserved), v, d.rows)
  {
    var d1 := Perform(Reserving, d, first, v, quantity, ref).value;
    var d2 := Perform(Releasing, d1, second, v, quantity, ref).value;
    ReserveLowersAvailable(d, first, v, quantity, ref, v);
    WalkKeepsSound(Reserving, d.rows, Query(Reserving, d, first, v), quantity, ref);
    PerformKeepsHealthy(Reserving, d, first, v, quantity, ref);
    PerformTakes(Reserving, d, first, v, quantity, ref, v);
    PerformTakes(Releasing, d1, second, v, quantity, ref, v);
    ReleaseRaisesAvailable(d1, second, v, quantity, ref);
    SumNonnegative(Reserved, v, d.rows);
    var visit := Query(Releasing, d1, second, v);
    assert ReservedVisit(d1.rows, v, visit);
    WalkKeepsRows(Releasing, d1.rows, visit, quantity, ref);
  }

  lemma {:induction false} SumNonnegative(q: Quantity, v: VariantId, rows: seq<Stock>)
    requires Sound(rows)
    ensures Sum(Plain(q), v, rows) >= 0
  {
    if rows != [] {
      SumNonnegative(q, v, rows[..|rows| - 1]);
    }
  }
}

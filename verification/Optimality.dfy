/** In what sense the greedy walks are the best possible: reserving serves better priorities first and as much
    as can be, releasing and committing touch as few rows as can be. */
module Optimality {
  import opened Prelude
  import opened Tables
  import opened Allocation
  import opened Greedy
  import opened Inventory

  // ---------- reserving is priority-optimal ----------

  /** Units assigned to rows, row by row. */
  type Allotment = seq<int>

  function Total(a: Allotment): int {
    if a == [] then 0 else Total(a[..|a| - 1]) + a[|a| - 1]
  }

  /** The part assigned to active warehouses whose priority number is at most the limit. */
  function TotalWithin(wh: Warehouses, limit: nat, rows: seq<Stock>, a: Allotment): int
    requires |a| == |rows|
  {
    if a == [] then 0
    else
      var last := |a| - 1;
      TotalWithin(wh, limit, rows[..last], a[..last]) + (if InReach(wh, Some(limit), rows[last]) then a[last] else 0)
  }

  /** Any way at all of finding the quantity in what active warehouses have available. */
  ghost predicate Feasible(d: Depot, v: VariantId, quantity: int, a: Allotment) {
    && |a| == |d.rows|
    && (forall i :: 0 <= i < |a| ==>
          0 <= a[i] <= if d.rows[i].variant == v && IsActive(d.warehouses, d.rows[i]) then d.rows[i].Available() else 0)
    && Total(a) == quantity
  }

  /** What a call reserved, row by row. */
  function Granted(rows: seq<Stock>, rows': seq<Stock>): Allotment
    requires |rows| == |rows'|
  {
    seq(|rows|, i requires 0 <= i < |rows| => rows'[i].reserved - rows[i].reserved)
  }

  predicate ByPriority(wh: Warehouses, rows: seq<Stock>, visit: seq<nat>)
    requires Within(visit, |rows|)
  {
    && (forall k :: 0 <= k < |visit| ==> IsActive(wh, rows[visit[k]]))
    && (forall a, b :: 0 <= a < b < |visit| ==>
          wh[rows[visit[a]].warehouse].priority <= wh[rows[visit[b]].warehouse].priority)
  }

  lemma {:induction false} ReachNonnegative(wh: Warehouses, p: nat, rows: seq<Stock>, visit: seq<nat>)
    requires Within(visit, |rows|)
    ensures VisitSum(Reach(Available, wh, Some(p)), rows, visit) >= 0
    ensures (forall k :: 0 <= k < |visit| ==> !InReach(wh, Some(p), rows[visit[k]])) ==>
              VisitSum(Reach(Available, wh, Some(p)), rows, visit) == 0
  {
    if visit != [] {
      ReachNonnegative(wh, p, rows, visit[1..]);
    }
  }

  lemma ByPriorityTail(wh: Warehouses, rows: seq<Stock>, visit: seq<nat>, rows': seq<Stock>)
    requires Within(visit, |rows|) && visit != [] && ByPriority(wh, rows, visit) && SameRows(rows, rows')
    ensures Within(visit[1..], |rows'|) && ByPriority(wh, rows', visit[1..])
    ensures forall p :: !InReach(wh, Some(p), rows[visit[0]]) ==>
              forall k :: 0 <= k < |visit| ==> !InReach(wh, Some(p), rows[visit[k]])
  {
    assert forall i :: 0 <= i < |rows| ==> SameRow(rows[i], rows'[i]);
  }

  /** Taking from the first visited row, as the totals within a priority limit see it. */
  lemma ReachStep(wh: Warehouses, p: nat, rows: seq<Stock>, v: VariantId, visit: seq<nat>, t: int)
    requires visit != [] && Within(visit, |rows|) && Distinct(visit) && OnVariant(rows, visit, v) && ByPriority(wh, rows, visit)
    ensures var rows' := rows[visit[0] := Moved(Reserving, rows[visit[0]], t)];
            var here := InReach(wh, Some(p), rows[visit[0]]);
            var later := VisitSum(Reach(Available, wh, Some(p)), rows', visit[1..]);
            && Within(visit[1..], |rows'|) && OnVariant(rows', visit[1..], v) && ByPriority(wh, rows', visit[1..])
            && Sum(Reach(Reserved, wh, Some(p)), v, rows') ==
               Sum(Reach(Reserved, wh, Some(p)), v, rows) + (if here then t else 0)
            && VisitSum(Reach(Available, wh, Some(p)), rows, visit) ==
               (if here then rows[visit[0]].Available() else 0) + later
            && later >= 0 && (!here ==> later == 0)
  {
    var i := visit[0];
    var row := Moved(Reserving, rows[i], t);
    ByPriorityTail(wh, rows, visit, rows[i := row]);
    ReachNonnegative(wh, p, rows, visit[1..]);
    SumUpdate(Reach(Reserved, wh, Some(p)), v, rows, i, row);
    VisitSumFrame(Reach(Available, wh, Some(p)), Reach(Available, wh, Some(p)), rows, rows[i := row], visit[1..]);
  }

  /** Below any priority limit, the walk takes all that is wanted or all that is there. */
  lemma {:induction false} WalkFillsByPriority(wh: Warehouses, p: nat, rows: seq<Stock>, v: VariantId, visit: seq<nat>, want: nat, ref: Option<nat>)
    requires Within(visit, |rows|) && Distinct(visit) && OnVariant(rows, visit, v) && ByPriority(wh, rows, visit)
    ensures var m := Reach(Reserved, wh, Some(p));
            Sum(m, v, Walk(Reserving, rows, visit, want, ref).rows) ==
            Sum(m, v, rows) + Min(want, VisitSum(Reach(Available, wh, Some(p)), rows, visit))
    decreases |visit|
  {
    ReachNonnegative(wh, p, rows, visit);
    if visit != [] && want > 0 {
      var i := visit[0];
      var t := Min(Capacity(Reserving, rows[i]), want);
      ReachStep(wh, p, rows, v, visit, t);
      WalkFillsByPriority(wh, p, rows[i := Moved(Reserving, rows[i], t)], v, visit[1..], want - t, ref);
    }
  }

  lemma {:induction false} FeasibleBound(d: Depot, v: VariantId, p: nat, rows: seq<Stock>, a: Allotment)
    requires |a| == |rows|
    requires forall i :: 0 <= i < |a| ==>
               0 <= a[i] <= if rows[i].variant == v && IsActive(d.warehouses, rows[i]) then rows[i].Available() else 0
    ensures TotalWithin(d.warehouses, p, rows, a) <= Total(a)
    ensures TotalWithin(d.warehouses, p, rows, a) <= Sum(Reach(Available, d.warehouses, Some(p)), v, rows)
  {
    if a != [] {
      FeasibleBound(d, v, p, rows[..|a| - 1], a[..|a| - 1]);
    }
  }

  /** The granted units add up to the growth of `reserved`, within any limit. */
  lemma {:induction false} GrantedTotals(wh: Warehouses, p: nat, v: VariantId, rows: seq<Stock>, rows': seq<Stock>)
    requires SameRows(rows, rows')
    requires forall i :: 0 <= i < |rows| && rows[i].variant != v ==> rows'[i] == rows[i]
    ensures Total(Granted(rows, rows')) == Sum(Plain(Reserved), v, rows') - Sum(Plain(Reserved), v, rows)
    ensures TotalWithin(wh, p, rows, Granted(rows, rows')) ==
            Sum(Reach(Reserved, wh, Some(p)), v, rows') - Sum(Reach(Reserved, wh, Some(p)), v, rows)
  {
    if rows != [] {
      var last := |rows| - 1;
      GrantedTotals(wh, p, v, rows[..last], rows'[..last]);
      assert Granted(rows, rows')[..last] == Granted(rows[..last], rows'[..last]);
      assert SameRow(rows[last], rows'[last]);
    }
  }

  /** No row gives more than it had available, and none gives anything back. */
  lemma {:induction false} GrantedWithinAvailable(rows: seq<Stock>, visit: seq<nat>, want: nat, ref: Option<nat>, i: nat)
    requires Within(visit, |rows|) && Distinct(visit) && i < |rows|
    ensures var r := Walk(Reserving, rows, visit, want, ref).rows[i].reserved - rows[i].reserved;
            0 <= r <= rows[i].Available()
    decreases |visit|
  {
    if visit != [] && want > 0 {
      var j := visit[0];
      var t := Min(Capacity(Reserving, rows[j]), want);
      var rows' := rows[j := Moved(Reserving, rows[j], t)];
      if i == j {
        WalkKeepsRows(Reserving, rows', visit[1..], want - t, ref);
      } else {
        GrantedWithinAvailable(rows', visit[1..], want - t, ref, i);
      }
    }
  }

  /** What a successful reservation granted is a feasible allotment. */
  lemma ReservationIsFeasible(d: Depot, engine: Engine, v: VariantId, quantity: nat, ref: Option<nat>)
    requires Sound(d.rows) && Perform(Reserving, d, engine, v, quantity, ref).Success?
    ensures var d' := Perform(Reserving, d, engine, v, quantity, ref).value;
            SameRows(d.rows, d'.rows) && Feasible(d, v, quantity, Granted(d.rows, d'.rows))
  {
    var visit := Query(Reserving, d, engine, v);
    assert PriorityVisit(d.warehouses, d.rows, v, visit);
    var d' := Perform(Reserving, d, engine, v, quantity, ref).value;
    WalkKeepsRows(Reserving, d.rows, visit, quantity, ref);
    assert forall i :: 0 <= i < |d.rows| && i in visit ==> d.rows[i].variant == v && IsActive(d.warehouses, d.rows[i]);
    forall i | 0 <= i < |d.rows|
      ensures 0 <= Granted(d.rows, d'.rows)[i] <=
              if d.rows[i].variant == v && IsActive(d.warehouses, d.rows[i]) then d.rows[i].Available() else 0
    {
      GrantedWithinAvailable(d.rows, visit, quantity, ref, i);
    }
    GrantedTotals(d.warehouses, 0, v, d.rows, d'.rows);
    PerformTakes(Reserving, d, engine, v, quantity, ref, v);
  }

  /** Within every priority limit a reservation grants all that is wanted or all that is there. */
  lemma GrantedWithin(d: Depot, engine: Engine, v: VariantId, quantity: nat, ref: Option<nat>, p: nat)
    requires Sound(d.rows) && Perform(Reserving, d, engine, v, quantity, ref).Success?
    ensures var d' := Perform(Reserving, d, engine, v, quantity, ref).value;
            && SameRows(d.rows, d'.rows)
            && TotalWithin(d.warehouses, p, d.rows, Granted(d.rows, d'.rows)) ==
               Min(quantity, Sum(Reach(Available, d.warehouses, Some(p)), v, d.rows))
  {
    var visit := Query(Reserving, d, engine, v);
    assert PriorityVisit(d.warehouses, d.rows, v, visit);
    WalkKeepsRows(Reserving, d.rows, visit, quantity, ref);
    GrantedTotals(d.warehouses, p, v, d.rows, Perform(Reserving, d, engine, v, quantity, ref).value.rows);
    WalkFillsByPriority(d.warehouses, p, d.rows, v, visit, quantity, ref);
    VisitSumIsSum(Reach(Available, d.warehouses, Some(p)), v, d.rows, visit);
  }

  /** The greedy reservation is itself a feasible allotment, and within every priority limit it assigns at least
      as much as any other. */
  lemma ReservationIsPriorityOptimal(d: Depot, engine: Engine, v: VariantId, quantity: nat, ref: Option<nat>, p: nat, other: Allotment)
    requires Sound(d.rows) && Perform(Reserving, d, engine, v, quantity, ref).Success?
    ensures var d' := Perform(Reserving, d, engine, v, quantity, ref).value;
            && |d'.rows| == |d.rows| && Feasible(d, v, quantity, Granted(d.rows, d'.rows))
            && (Feasible(d, v, quantity, other) ==>
                  TotalWithin(d.warehouses, p, d.rows, other) <= TotalWithin(d.warehouses, p, d.rows, Granted(d.rows, d'.rows)))
  {
    ReservationIsFeasible(d, engine, v, quantity, ref);
    GrantedWithin(d, engine, v, quantity, ref, p);
    if Feasible(d, v, quantity, other) {
      FeasibleBound(d, v, p, d.rows, other);
    }
  }

  // ---------- releasing and committing touch fewest rows ----------

  /** The rows whose figures differ. */
  function Changed(rows: seq<Stock>, rows': seq<Stock>): set<nat>
    requires |rows| == |rows'|
  {
    set i: nat | i < |rows| && rows[i] != rows'[i]
  }

  predicate Descending(op: Operation, rows: seq<Stock>, visit: seq<nat>)
    requires Within(visit, |rows|)
  {
    && (forall k :: 0 <= k < |visit| ==> Capacity(op, rows[visit[k]]) > 0)
    && (forall a, b :: 0 <= a < b < |visit| ==> Capacity(op, rows[visit[b]]) <= Capacity(op, rows[visit[a]]))
  }

  /** Some row of the rival that gives no more than the first visited one; preferably that one itself. */
  lemma RivalRow(op: Operation, rows: seq<Stock>, visit: seq<nat>, want: nat, rival: set<nat>) returns (out: nat)
    requires visit != [] && Within(visit, |rows|) && Distinct(visit) && Descending(op, rows, visit) && want > 0
    requires rival <= Visited(visit) && SumOver(Plain(Limit(op)), rows, rival) >= want
    ensures out in rival && rival - {out} <= Visited(visit[1..])
    ensures SumOver(Plain(Limit(op)), rows, rival - {out}) >= Max(want - Capacity(op, rows[visit[0]]), 0)
  {
    if rival == {} {
      NothingChosen(Plain(Limit(op)), rows);
      assert false;
    }
    out := if visit[0] in rival then visit[0] else var x :| x in rival; x;
    assert out in visit;
    SumOverRemove(Plain(Limit(op)), rows, rival, out);
    VisitedTail(visit);
    NonnegativeOver(op, rows, visit, rival - {out});
  }

  /** One more visited row can add only itself to the changed ones. */
  lemma ChangedByStep(rows: seq<Stock>, i: nat, row: Stock, rows': seq<Stock>)
    requires i < |rows| && |rows'| == |rows|
    ensures |Changed(rows, rows')| <= |Changed(rows[i := row], rows')| + 1
  {
    assert Changed(rows, rows') <= Changed(rows[i := row], rows') + {i};
    SubsetSize(Changed(rows, rows'), Changed(rows[i := row], rows') + {i});
  }

  /** After the walk took from its first row, the rest of the rival is still a rival for what is still wanted. */
  lemma RivalStep(op: Operation, rows: seq<Stock>, visit: seq<nat>, want: nat, rival: set<nat>) returns (out: nat)
    requires visit != [] && Within(visit, |rows|) && Distinct(visit) && Descending(op, rows, visit) && want > 0
    requires rival <= Visited(visit) && SumOver(Plain(Limit(op)), rows, rival) >= want
    ensures var t := Min(Capacity(op, rows[visit[0]]), want);
            var rows' := rows[visit[0] := Moved(op, rows[visit[0]], t)];
            && t <= want && Within(visit[1..], |rows'|) && Distinct(visit[1..]) && Descending(op, rows', visit[1..])
            && out in rival && rival - {out} <= Visited(visit[1..])
            && SumOver(Plain(Limit(op)), rows', rival - {out}) >= want - t
  {
    var i := visit[0];
    var row := Moved(op, rows[i], Min(Capacity(op, rows[i]), want));
    out := RivalRow(op, rows, visit, want, rival);
    VisitedTail(visit);
    SumOverSame(Plain(Limit(op)), rows, rows[i := row], rival - {out}, rival - {out});
  }

  /** Swap argument: while something is wanted, the rival either uses the row the walk uses now, or some row that
      gives no more. */
  lemma {:induction false} WalkTouchesFewest(op: Operation, rows: seq<Stock>, visit: seq<nat>, want: nat, ref: Option<nat>, rival: set<nat>, after: seq<Stock>)
    requires op == Releasing || op == Committing
    requires Within(visit, |rows|) && Distinct(visit) && Descending(op, rows, visit)
    requires rival <= Visited(visit) && SumOver(Plain(Limit(op)), rows, rival) >= want
    requires after == Walk(op, rows, visit, want, ref).rows
    ensures |after| == |rows| && |Changed(rows, after)| <= |rival|
    decreases |visit|
  {
    if visit == [] || want == 0 {
      assert Changed(rows, after) == {};
    } else {
      var i := visit[0];
      var t := Min(Capacity(op, rows[i]), want);
      var row := Moved(op, rows[i], t);
      var out := RivalStep(op, rows, visit, want, rival);
      WalkTouchesFewest(op, rows[i := row], visit[1..], want - t, ref, rival - {out}, after);
      ChangedByStep(rows, i, row, after);
    }
  }

  lemma VisitedTail(visit: seq<nat>)
    requires visit != [] && Distinct(visit)
    ensures Visited(visit[1..]) == Visited(visit) - {visit[0]}
  {
    assert visit == [visit[0]] + visit[1..];
  }

  lemma {:induction false} SubsetSize(a: set<nat>, b: set<nat>)
    requires a <= b
    ensures |a| <= |b|
  {
    if a != {} {
      var x :| x in a;
      SubsetSize(a - {x}, b - {x});
    }
  }

  lemma {:induction false} NonnegativeOver(op: Operation, rows: seq<Stock>, visit: seq<nat>, chosen: set<nat>)
    requires Within(visit, |rows|) && Descending(op, rows, visit) && chosen <= Visited(visit)
    ensures SumOver(Plain(Limit(op)), rows, chosen) >= 0
    decreases |chosen|
  {
    if chosen == {} {
      NothingChosen(Plain(Limit(op)), rows);
    } else {
      var x :| x in chosen;
      assert x in visit;
      SumOverRemove(Plain(Limit(op)), rows, chosen, x);
      NonnegativeOver(op, rows, visit, chosen - {x});
    }
  }

  /** A release changes no more rows than any set of the variant's rows that has the quantity reserved. */
  lemma ReleaseTouchesFewest(d: Depot, engine: Engine, v: VariantId, quantity: nat, ref: Option<nat>, rival: set<nat>)
    requires Sound(d.rows)
    requires forall i :: i in rival ==> i < |d.rows| && d.rows[i].variant == v
    requires SumOver(Plain(Reserved), d.rows, rival) >= quantity
    ensures var d' := Perform(Releasing, d, engine, v, quantity, ref).value;
            |d'.rows| == |d.rows| && |Changed(d.rows, d'.rows)| <= |rival|
  {
    FewestRows(Releasing, d, engine, v, quantity, ref, rival);
  }

  /** So does a sale, as long as no row of the variant has more reserved than is there. */
  lemma CommitTouchesFewest(d: Depot, engine: Engine, v: VariantId, quantity: nat, ref: Option<nat>, rival: set<nat>)
    requires Sound(d.rows) && forall i :: 0 <= i < |d.rows| && d.rows[i].variant == v ==> d.rows[i].reserved <= d.rows[i].onHand
    requires forall i :: i in rival ==> i < |d.rows| && d.rows[i].variant == v
    requires SumOver(Plain(Reserved), d.rows, rival) >= quantity
    ensures var r := Perform(Committing, d, engine, v, quantity, ref);
            r.Success? ==> |r.value.rows| == |d.rows| && |Changed(d.rows, r.value.rows)| <= |rival|
  {
    SumOverCommittable(d.rows, rival);
    FewestRows(Committing, d, engine, v, quantity, ref, rival);
  }

  lemma {:induction false} SumOverCommittable(rows: seq<Stock>, chosen: set<nat>)
    requires forall i :: 0 <= i < |rows| && i in chosen ==> rows[i].reserved <= rows[i].onHand
    ensures SumOver(Plain(Committable), rows, chosen) == SumOver(Plain(Reserved), rows, chosen)
  {
    if rows != [] {
      SumOverCommittable(rows[..|rows| - 1], chosen);
    }
  }

  /** The query visits every row there is something to take from, largest first. */
  lemma VisitDescends(op: Operation, d: Depot, engine: Engine, v: VariantId, useful: set<nat>)
    requires op == Releasing || op == Committing
    requires op == Committing ==> forall i :: 0 <= i < |d.rows| && d.rows[i].variant == v ==> d.rows[i].reserved <= d.rows[i].onHand
    requires forall i :: i in useful ==> i < |d.rows| && d.rows[i].variant == v && d.rows[i].reserved > 0
    ensures Descending(op, d.rows, Query(op, d, engine, v)) && useful <= Visited(Query(op, d, engine, v))
  {
    var visit := Query(op, d, engine, v);
    assert ReservedVisit(d.rows, v, visit);
    forall k | 0 <= k < |visit| ensures Capacity(op, d.rows[visit[k]]) == d.rows[visit[k]].reserved > 0 {
    }
  }

  lemma FewestRows(op: Operation, d: Depot, engine: Engine, v: VariantId, quantity: nat, ref: Option<nat>, rival: set<nat>)
    requires op == Releasing || op == Committing
    requires Sound(d.rows)
    requires op == Committing ==> forall i :: 0 <= i < |d.rows| && d.rows[i].variant == v ==> d.rows[i].reserved <= d.rows[i].onHand
    requires forall i :: i in rival ==> i < |d.rows| && d.rows[i].variant == v
    requires SumOver(Plain(Limit(op)), d.rows, rival) >= quantity
    ensures |Changed(d.rows, Walk(op, d.rows, Query(op, d, engine, v), quantity, ref).rows)| <= |rival|
  {
    var useful := set i | i in rival && d.rows[i].reserved > 0;
    VisitDescends(op, d, engine, v, useful);
    SumOverUseful(op, d.rows, rival, useful);
    var visit := Query(op, d, engine, v);
    WalkTouchesFewest(op, d.rows, visit, quantity, ref, useful, Walk(op, d.rows, visit, quantity, ref).rows);
    SubsetSize(useful, rival);
  }

  lemma {:induction false} SumOverUseful(op: Operation, rows: seq<Stock>, rival: set<nat>, useful: set<nat>)
    requires op == Releasing || op == Committing
    requires Sound(rows)
    requires forall i :: 0 <= i < |rows| ==> (i in useful <==> i in rival && rows[i].reserved > 0)
    ensures SumOver(Plain(Limit(op)), rows, useful) == SumOver(Plain(Limit(op)), rows, rival)
  {
    if rows != [] {
      SumOverUseful(op, rows[..|rows| - 1], rival, useful);
    }
  }
}

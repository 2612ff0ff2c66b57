/** How the three allocator loops walk over stock rows: the order in which the database hands rows out, sums
    over rows, and the greedy walk itself. */
module Allocation {
  import opened Prelude
  import opened Tables

  // ---------- what a query returns ----------

  predicate IsActive(wh: Warehouses, r: Stock) {
    r.warehouse in wh && wh[r.warehouse].active
  }

  ghost predicate Distinct(visit: seq<nat>) {
    forall a, b :: 0 <= a < b < |visit| ==> visit[a] != visit[b]
  }

  predicate Within(visit: seq<nat>, n: nat) {
    forall k :: 0 <= k < |visit| ==> visit[k] < n
  }

  /** Every row of the variant in an active warehouse, once each, ascending by priority; ties are free. */
  ghost predicate PriorityVisit(wh: Warehouses, rows: seq<Stock>, v: VariantId, visit: seq<nat>) {
    && Within(visit, |rows|) && Distinct(visit)
    && (forall k :: 0 <= k < |visit| ==> rows[visit[k]].variant == v && IsActive(wh, rows[visit[k]]))
    && (forall i :: 0 <= i < |rows| && rows[i].variant == v && IsActive(wh, rows[i]) ==> i in visit)
    && (forall a, b :: 0 <= a < b < |visit| ==>
          wh[rows[visit[a]].warehouse].priority <= wh[rows[visit[b]].warehouse].priority)
  }

  /** Every row of the variant with something reserved, once each, descending by `reserved`; ties are free. */
  ghost predicate ReservedVisit(rows: seq<Stock>, v: VariantId, visit: seq<nat>) {
    && Within(visit, |rows|) && Distinct(visit)
    && (forall k :: 0 <= k < |visit| ==> rows[visit[k]].variant == v && rows[visit[k]].reserved > 0)
    && (forall i :: 0 <= i < |rows| && rows[i].variant == v && rows[i].reserved > 0 ==> i in visit)
    && (forall a, b :: 0 <= a < b < |visit| ==> rows[visit[b]].reserved <= rows[visit[a]].reserved)
  }

  ghost predicate Ascending(key: nat -> int, visit: seq<nat>) {
    forall a, b :: 0 <= a < b < |visit| ==> key(visit[a]) <= key(visit[b])
  }

  /** Insert `i` behind every index whose key is no greater. */
  function InsertByKey(key: nat -> int, i: nat, visit: seq<nat>): (r: seq<nat>) {
    if visit == [] || key(i) < key(visit[0]) then [i] + visit
    else [visit[0]] + InsertByKey(key, i, visit[1..])
  }

  lemma {:induction false} InsertByKeyIsSorted(key: nat -> int, i: nat, visit: seq<nat>)
    requires i !in visit && Distinct(visit) && Ascending(key, visit)
    ensures forall x :: x in InsertByKey(key, i, visit) <==> x == i || x in visit
    ensures Distinct(InsertByKey(key, i, visit)) && Ascending(key, InsertByKey(key, i, visit))
  {
    if visit == [] || key(i) < key(visit[0]) {
      assert InsertByKey(key, i, visit) == [i] + visit;
    } else {
      InsertByKeyIsSorted(key, i, visit[1..]);
      var rest := InsertByKey(key, i, visit[1..]);
      assert visit == [visit[0]] + visit[1..];
      assert visit[0] !in visit[1..];
      forall b | 0 <= b < |rest| ensures key(visit[0]) <= key(rest[b]) && rest[b] != visit[0] {
        assert rest[b] in rest;
      }
      var r := InsertByKey(key, i, visit);
      assert r == [visit[0]] + rest;
      forall a, b | 0 <= a < b < |r| ensures key(r[a]) <= key(r[b]) {
        assert r[b] == rest[b - 1];
        if a > 0 {
          assert r[a] == rest[a - 1];
        }
      }
    }
  }

  /** A sort of the indices below `n` that pass `keep`: the filter and order_by of a query. */
  function SortIndices(n: nat, keep: nat -> bool, key: nat -> int): (r: seq<nat>) {
    if n == 0 then []
    else if keep(n - 1) then InsertByKey(key, n - 1, SortIndices(n - 1, keep, key))
    else SortIndices(n - 1, keep, key)
  }

  lemma {:induction false} SortIndicesIsQuery(n: nat, keep: nat -> bool, key: nat -> int)
    ensures var r := SortIndices(n, keep, key);
            && (forall i :: i in r <==> 0 <= i < n && keep(i))
            && Distinct(r) && Ascending(key, r)
  {
    if n != 0 {
      SortIndicesIsQuery(n - 1, keep, key);
      if keep(n - 1) {
        InsertByKeyIsSorted(key, n - 1, SortIndices(n - 1, keep, key));
      }
    }
  }

  function SortByPriority(wh: Warehouses, rows: seq<Stock>, v: VariantId): (visit: seq<nat>)
    ensures PriorityVisit(wh, rows, v, visit)
  {
    var keep := (i: nat) => i < |rows| && rows[i].variant == v && IsActive(wh, rows[i]);
    var key := (i: nat) => if i < |rows| && IsActive(wh, rows[i]) then wh[rows[i].warehouse].priority else 0;
    SortIndicesIsQuery(|rows|, keep, key);
    var visit := SortIndices(|rows|, keep, key);
    assert forall k :: 0 <= k < |visit| ==> visit[k] in visit;
    assert forall a, b :: 0 <= a < b < |visit| ==> key(visit[a]) <= key(visit[b]);
    visit
  }

  function SortByReserved(rows: seq<Stock>, v: VariantId): (visit: seq<nat>)
    ensures ReservedVisit(rows, v, visit)
  {
    var keep := (i: nat) => i < |rows| && rows[i].variant == v && rows[i].reserved > 0;
    var key := (i: nat) => if i < |rows| then -rows[i].reserved else 0;
    SortIndicesIsQuery(|rows|, keep, key);
    var visit := SortIndices(|rows|, keep, key);
    assert forall k :: 0 <= k < |visit| ==> visit[k] in visit;
    assert forall a, b :: 0 <= a < b < |visit| ==> key(visit[a]) <= key(visit[b]);
    visit
  }

  /** Any way of answering the two allocation queries that honours their filters and orderings. */
  type PriorityQuery = q: (Warehouses, seq<Stock>, VariantId) -> seq<nat>
    | forall wh, rows, v :: PriorityVisit(wh, rows, v, q(wh, rows, v))
    ghost witness (wh: Warehouses, rows: seq<Stock>, v: VariantId) => SortByPriority(wh, rows, v)

  type ReservedQuery = q: (seq<Stock>, VariantId) -> seq<nat>
    | forall rows, v :: ReservedVisit(rows, v, q(rows, v))
    ghost witness (rows: seq<Stock>, v: VariantId) => SortByReserved(rows, v)

  /** The database engine during one service call: it decides how ties are broken. */
  datatype Engine = Engine(byPriority: PriorityQuery, byReserved: ReservedQuery)

  // ---------- sums over rows ----------

  datatype Quantity = OnHand | Reserved | Available | Committable

  /** What is summed: a quantity over all rows, or only over rows of active warehouses, or only over those whose
      priority number is at most a limit. */
  datatype Measure = Plain(quantity: Quantity) | Reach(quantity: Quantity, wh: Warehouses, limit: Option<nat>)

  function QuantityOf(q: Quantity, r: Stock): int {
    match q
    case OnHand => r.onHand
    case Reserved => r.reserved
    case Available => r.Available()
    case Committable => Min(r.reserved, r.onHand)
  }

  predicate InReach(wh: Warehouses, limit: Option<nat>, r: Stock) {
    IsActive(wh, r) && (limit.Some? ==> wh[r.warehouse].priority <= limit.value)
  }

  function Value(m: Measure, r: Stock): int {
    match m
    case Plain(q) => QuantityOf(q, r)
    case Reach(q, wh, limit) => if InReach(wh, limit, r) then QuantityOf(q, r) else 0
  }

  function Weight(m: Measure, v: VariantId, r: Stock): int {
    if r.variant == v then Value(m, r) else 0
  }

  /** The total of a measure over the rows of one variant. */
  function Sum(m: Measure, v: VariantId, rows: seq<Stock>): int {
    if rows == [] then 0
    else Sum(m, v, rows[..|rows| - 1]) + Weight(m, v, rows[|rows| - 1])
  }

  lemma SumAppend(m: Measure, v: VariantId, rows: seq<Stock>, r: Stock)
    ensures Sum(m, v, rows + [r]) == Sum(m, v, rows) + Weight(m, v, r)
  {
    assert (rows + [r])[..|rows|] == rows;
  }

  lemma {:induction false} SumUpdate(m: Measure, v: VariantId, rows: seq<Stock>, i: nat, r: Stock)
    requires i < |rows|
    ensures Sum(m, v, rows[i := r]) == Sum(m, v, rows) - Weight(m, v, rows[i]) + Weight(m, v, r)
  {
    var last := |rows| - 1;
    if i == last {
      assert rows[i := r][..last] == rows[..last];
    } else {
      SumUpdate(m, v, rows[..last], i, r);
      assert rows[i := r][..last] == rows[..last][i := r];
    }
  }

  /** The total over a chosen set of rows, whatever their variant. */
  function SumOver(m: Measure, rows: seq<Stock>, chosen: set<nat>): int {
    if rows == [] then 0
    else
      var last := |rows| - 1;
      SumOver(m, rows[..last], chosen) + (if last in chosen then Value(m, rows[last]) else 0)
  }

  lemma {:induction false} SumOverRemove(m: Measure, rows: seq<Stock>, chosen: set<nat>, i: nat)
    requires i < |rows| && i in chosen
    ensures SumOver(m, rows, chosen) == SumOver(m, rows, chosen - {i}) + Value(m, rows[i])
  {
    var last := |rows| - 1;
    if i == last {
      SumOverSame(m, rows[..last], rows[..last], chosen, chosen - {i});
    } else {
      SumOverRemove(m, rows[..last], chosen, i);
    }
  }

  lemma {:induction false} SumOverSame(m: Measure, rows: seq<Stock>, rows': seq<Stock>, chosen: set<nat>, chosen': set<nat>)
    requires |rows| == |rows'|
    requires forall i :: 0 <= i < |rows| ==> (i in chosen <==> i in chosen')
    requires forall i :: 0 <= i < |rows| && i in chosen ==> Value(m, rows[i]) == Value(m, rows'[i])
    ensures SumOver(m, rows, chosen) == SumOver(m, rows', chosen')
  {
    if rows != [] {
      SumOverSame(m, rows[..|rows| - 1], rows'[..|rows| - 1], chosen, chosen');
    }
  }

  lemma {:induction false} SumOverIsSum(m: Measure, v: VariantId, rows: seq<Stock>, chosen: set<nat>)
    requires forall i :: 0 <= i < |rows| && i in chosen ==> rows[i].variant == v
    requires forall i :: 0 <= i < |rows| && i !in chosen && rows[i].variant == v ==> Value(m, rows[i]) == 0
    ensures SumOver(m, rows, chosen) == Sum(m, v, rows)
  {
    if rows != [] {
      SumOverIsSum(m, v, rows[..|rows| - 1], chosen);
    }
  }

  /** The total along a visit. */
  function VisitSum(m: Measure, rows: seq<Stock>, visit: seq<nat>): int
    requires Within(visit, |rows|)
  {
    if visit == [] then 0 else Value(m, rows[visit[0]]) + VisitSum(m, rows, visit[1..])
  }

  function Visited(visit: seq<nat>): set<nat> {
    set i | i in visit
  }

  lemma {:induction false} VisitSumIsSumOver(m: Measure, rows: seq<Stock>, visit: seq<nat>)
    requires Within(visit, |rows|) && Distinct(visit)
    ensures VisitSum(m, rows, visit) == SumOver(m, rows, Visited(visit))
  {
    if visit == [] {
      assert Visited(visit) == {};
      NothingChosen(m, rows);
    } else {
      VisitSumIsSumOver(m, rows, visit[1..]);
      assert visit == [visit[0]] + visit[1..];
      SumOverRemove(m, rows, Visited(visit), visit[0]);
      assert Visited(visit) - {visit[0]} == Visited(visit[1..]);
    }
  }

  lemma {:induction false} NothingChosen(m: Measure, rows: seq<Stock>)
    ensures SumOver(m, rows, {}) == 0
  {
    if rows != [] {
      NothingChosen(m, rows[..|rows| - 1]);
    }
  }

  /** A visit that misses only worthless rows of the variant adds up to the variant's total. */
  lemma VisitSumIsSum(m: Measure, v: VariantId, rows: seq<Stock>, visit: seq<nat>)
    requires Within(visit, |rows|) && Distinct(visit)
    requires forall k :: 0 <= k < |visit| ==> rows[visit[k]].variant == v
    requires forall i :: 0 <= i < |rows| && rows[i].variant == v && i !in visit ==> Value(m, rows[i]) == 0
    ensures VisitSum(m, rows, visit) == Sum(m, v, rows)
  {
    VisitSumIsSumOver(m, rows, visit);
    SumOverIsSum(m, v, rows, Visited(visit));
  }

  lemma {:induction false} VisitSumFrame(m: Measure, m': Measure, rows: seq<Stock>, rows': seq<Stock>, visit: seq<nat>)
    requires |rows| == |rows'| && Within(visit, |rows|)
    requires forall k :: 0 <= k < |visit| ==> Value(m, rows[visit[k]]) == Value(m', rows'[visit[k]])
    ensures VisitSum(m, rows, visit) == VisitSum(m', rows', visit)
  {
    if visit != [] {
      VisitSumFrame(m, m', rows, rows', visit[1..]);
    }
  }

  lemma {:induction false} VisitSumSnoc(m: Measure, rows: seq<Stock>, visit: seq<nat>, i: nat)
    requires Within(visit, |rows|) && i < |rows|
    ensures VisitSum(m, rows, visit + [i]) == VisitSum(m, rows, visit) + Value(m, rows[i])
  {
    if visit != [] {
      assert (visit + [i])[1..] == visit[1..] + [i];
      VisitSumSnoc(m, rows, visit[1..], i);
    }
  }
}

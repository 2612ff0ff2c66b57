/** inventory/services.py: reserving, releasing, committing and adjusting stock. */
module Inventory {
  import opened Prelude
  import opened Tables
  import opened Allocation
  import opened Ledger
  import opened Greedy

  // ---------- specification of one call ----------

  /** The rows an operation iterates over, in the order the database returns them. */
  function Query(op: Operation, d: Depot, engine: Engine, v: VariantId): (visit: seq<nat>)
    ensures Within(visit, |d.rows|) && Distinct(visit) && OnVariant(d.rows, visit, v)
  {
    if op == Reserving then engine.byPriority(d.warehouses, d.rows, v) else engine.byReserved(d.rows, v)
  }

  /** The depot after a successful walk. */
  function AfterWalk(d: Depot, w: Walked): Depot {
    d.(rows := w.rows, ledger := d.ledger + w.moves)
  }

  /** One call: on failure nothing it did is kept. */
  function Perform(op: Operation, d: Depot, engine: Engine, v: VariantId, quantity: int, ref: Option<nat>): Result<Depot, Error> {
    if op == Reserving && quantity <= 0 then Failure(InvalidValue)
    else
      var w := Walk(op, d.rows, Query(op, d, engine, v), quantity, ref);
      if op != Releasing && w.left > 0 then Failure(OutOfStock)
      else Success(AfterWalk(d, w))
  }

  /** What an operation could take from a variant in all: only reserving is limited to active warehouses. */
  function Supply(op: Operation, d: Depot, v: VariantId): int {
    Sum(if op == Reserving then Reach(Available, d.warehouses, None) else Plain(Limit(op)), v, d.rows)
  }

  /** `get_available`, which also counts inactive warehouses. */
  function GetAvailable(d: Depot, v: VariantId): int {
    Sum(Plain(Available), v, d.rows)
  }

  /** The row that `get_or_create` finds, or the position of the row it creates. */
  function FindRow(rows: seq<Stock>, v: VariantId, code: string): (i: nat)
    ensures i <= |rows|
    ensures i < |rows| ==> rows[i].variant == v && rows[i].warehouse == code
    ensures forall j :: 0 <= j < i ==> !(rows[j].variant == v && rows[j].warehouse == code)
  {
    if rows == [] then 0
    else if rows[0].variant == v && rows[0].warehouse == code then 0
    else 1 + FindRow(rows[1..], v, code)
  }

  /** The table after `get_or_create`. */
  function WithRow(rows: seq<Stock>, v: VariantId, code: string): (r: seq<Stock>)
    ensures FindRow(rows, v, code) < |r|
  {
    if FindRow(rows, v, code) < |rows| then rows else rows + [Stock(v, code, 0, 0, 0)]
  }

  function Adjust(d: Depot, v: VariantId, code: string, delta: int): Result<Depot, Error> {
    if code !in d.warehouses then Failure(DoesNotExist)
    else
      var i := FindRow(d.rows, v, code);
      var rows := WithRow(d.rows, v, code);
      var row := rows[i].(onHand := Max(rows[i].onHand + delta, 0));
      Success(d.(rows := rows[i := row], ledger := d.ledger + [Movement(i, v, delta, Adjustment, None)]))
  }

  /** What an adjustment really adds: it cannot take more than there is. */
  function EffectiveDelta(d: Depot, v: VariantId, code: string, delta: int): int {
    if code !in d.warehouses then 0
    else
      var onHand := LevelOf(d.rows, FindRow(d.rows, v, code)).onHand;
      Max(onHand + delta, 0) - onHand
  }

  // ---------- when a call succeeds, and what it moves ----------

  /** The visit reaches everything the operation may take. */
  lemma QueryReachesSupply(op: Operation, d: Depot, engine: Engine, v: VariantId)
    requires Sound(d.rows)
    ensures VisitSum(Plain(Limit(op)), d.rows, Query(op, d, engine, v)) == Supply(op, d, v)
  {
    var visit := Query(op, d, engine, v);
    if op == Reserving {
      var m := Reach(Available, d.warehouses, None);
      assert PriorityVisit(d.warehouses, d.rows, v, visit);
      VisitSumFrame(Plain(Available), m, d.rows, d.rows, visit);
      VisitSumIsSum(m, v, d.rows, visit);
    } else {
      assert ReservedVisit(d.rows, v, visit);
      VisitSumIsSum(Plain(Limit(op)), v, d.rows, visit);
    }
  }

  /** Nothing is left wanted exactly when the visited rows together have enough. */
  lemma WalkSuffices(op: Operation, rows: seq<Stock>, visit: seq<nat>, want: int, ref: Option<nat>, total: int)
    requires Within(visit, |rows|) && Distinct(visit) && Sound(rows) && total == VisitSum(Plain(Limit(op)), rows, visit)
    ensures Walk(op, rows, visit, want, ref).left <= 0 <==> want <= total
  {
    if want >= 0 {
      WalkLeavesOf(op, rows, visit, want, ref, total, Walk(op, rows, visit, want, ref).left);
    } else {
      VisitSumNonnegative(op, rows, visit);
    }
  }

  /** A call succeeds exactly when the quantity is legal and the supply covers it, whatever order the database
      hands the rows out in; only a release settles for less. */
  lemma PerformSucceedsIff(op: Operation, d: Depot, engine: Engine, v: VariantId, quantity: int, ref: Option<nat>)
    requires Sound(d.rows)
    ensures Perform(op, d, engine, v, quantity, ref).Success? <==>
            (op == Reserving ==> quantity > 0) && (op != Releasing ==> quantity <= Supply(op, d, v))
    ensures Perform(op, d, engine, v, quantity, ref).Failure? ==>
              Perform(op, d, engine, v, quantity, ref).error == if op == Reserving && quantity <= 0 then InvalidValue else OutOfStock
  {
    QueryReachesSupply(op, d, engine, v);
    WalkSuffices(op, d.rows, Query(op, d, engine, v), quantity, ref, Supply(op, d, v));
  }

  /** The ledger lines that `d'` has on top of `d`. */
  function News(d: Depot, d': Depot): seq<Movement>
    requires d.ledger <= d'.ledger
  {
    d'.ledger[|d.ledger|..]
  }

  /** How much of a variant was taken, read off the change in `reserved`. */
  function Taken(op: Operation, d: Depot, d': Depot, v: VariantId): int {
    ReservedShift(op, Sum(Plain(Reserved), v, d'.rows) - Sum(Plain(Reserved), v, d.rows))
  }

  /** Same rows with sound figures, and a ledger that only grew, by lines about existing rows. */
  ghost predicate Structured(d: Depot, d': Depot) {
    && d'.warehouses == d.warehouses
    && SameRows(d.rows, d'.rows)
    && (Sound(d.rows) ==> Sound(d'.rows))
    && d.ledger <= d'.ledger
    && forall m :: m in News(d, d') ==> m.row < |d.rows| && m.variant == d.rows[m.row].variant
  }

  /** Shelves and ledger changed by exactly what was taken, on behalf of one order. */
  ghost predicate Accounted(op: Operation, d: Depot, d': Depot, order: nat)
    requires d.ledger <= d'.ledger
  {
    && (forall v :: Sum(Plain(OnHand), v, d'.rows) == Sum(Plain(OnHand), v, d.rows) + OnHandShift(op, Taken(op, d, d', v)))
    && (forall reason, o, v :: Tally(News(d, d'), reason, o, v) ==
                               if reason == ReasonFor(op) && o == order then Signed(op, Taken(op, d, d', v)) else 0)
  }

  /** Replaying the new ledger lines turns the old rows into the new ones. */
  ghost predicate Replayed(d: Depot, d': Depot)
    requires d.ledger <= d'.ledger
  {
    forall i: nat :: Replay(LevelOf(d.rows, i), News(d, d'), i) == LevelOf(d'.rows, i)
  }

  ghost predicate Booked(op: Operation, d: Depot, d': Depot, order: nat) {
    Structured(d, d') && Accounted(op, d, d', order) && Replayed(d, d')
  }

  lemma WalkIsStructured(op: Operation, d: Depot, visit: seq<nat>, want: nat, ref: Option<nat>, v: VariantId)
    requires Within(visit, |d.rows|) && OnVariant(d.rows, visit, v)
    ensures Structured(d, AfterWalk(d, Walk(op, d.rows, visit, want, ref)))
  {
    var w := Walk(op, d.rows, visit, want, ref);
    WalkKeepsRows(op, d.rows, visit, want, ref);
    WalkLogs(op, d.rows, visit, want, ref, v);
    if Sound(d.rows) {
      WalkKeepsSound(op, d.rows, visit, want, ref);
    }
    assert News(d, AfterWalk(d, w)) == w.moves;
  }

  lemma WalkIsAccounted(op: Operation, d: Depot, visit: seq<nat>, want: nat, order: nat, v: VariantId)
    requires Within(visit, |d.rows|) && OnVariant(d.rows, visit, v)
    ensures Accounted(op, d, AfterWalk(d, Walk(op, d.rows, visit, want, Some(order))), order)
  {
    var w := Walk(op, d.rows, visit, want, Some(order));
    var d' := AfterWalk(d, w);
    assert News(d, d') == w.moves;
    forall u
      ensures Sum(Plain(OnHand), u, d'.rows) == Sum(Plain(OnHand), u, d.rows) + OnHandShift(op, Taken(op, d, d', u))
    {
      WalkSums(op, d.rows, visit, want, Some(order), v, u);
    }
    forall reason, o, u
      ensures Tally(News(d, d'), reason, o, u) ==
              if reason == ReasonFor(op) && o == order then Signed(op, Taken(op, d, d', u)) else 0
    {
      WalkSums(op, d.rows, visit, want, Some(order), v, u);
      WalkTally(op, d.rows, visit, want, Some(order), v, reason, o, u);
    }
  }

  lemma WalkIsReplayed(op: Operation, d: Depot, visit: seq<nat>, want: nat, ref: Option<nat>)
    requires Within(visit, |d.rows|)
    ensures Replayed(d, AfterWalk(d, Walk(op, d.rows, visit, want, ref)))
  {
    var w := Walk(op, d.rows, visit, want, ref);
    assert News(d, AfterWalk(d, w)) == w.moves;
    forall i: nat ensures Replay(LevelOf(d.rows, i), w.moves, i) == LevelOf(w.rows, i) {
      WalkReplays(op, d.rows, visit, want, ref, i);
    }
  }

  lemma PerformIsBooked(op: Operation, d: Depot, engine: Engine, v: VariantId, quantity: nat, order: nat)
    requires Perform(op, d, engine, v, quantity, Some(order)).Success?
    ensures Booked(op, d, Perform(op, d, engine, v, quantity, Some(order)).value, order)
  {
    var visit := Query(op, d, engine, v);
    WalkIsStructured(op, d, visit, quantity, Some(order), v);
    WalkIsAccounted(op, d, visit, quantity, order, v);
    WalkIsReplayed(op, d, visit, quantity, Some(order));
  }

  /** What an operation is still short of after its walk. */
  lemma QueryLeaves(op: Operation, d: Depot, engine: Engine, v: VariantId, quantity: nat, ref: Option<nat>)
    requires Sound(d.rows)
    ensures 0 <= Supply(op, d, v)
    ensures Walk(op, d.rows, Query(op, d, engine, v), quantity, ref).left == Max(quantity - Supply(op, d, v), 0)
  {
    var visit := Query(op, d, engine, v);
    QueryReachesSupply(op, d, engine, v);
    WalkLeavesOf(op, d.rows, visit, quantity, ref, Supply(op, d, v), Walk(op, d.rows, visit, quantity, ref).left);
  }

  lemma ShiftedBy(op: Operation, before: int, after: int, t: int)
    requires after == before + Shift(op, Reserved, t)
    ensures ReservedShift(op, after - before) == t
  {
  }

  /** What a walk is no longer short of, it took. */
  lemma VisitTakes(op: Operation, d: Depot, visit: seq<nat>, want: int, ref: Option<nat>, v: VariantId, u: VariantId)
    requires Within(visit, |d.rows|) && OnVariant(d.rows, visit, v)
    ensures var w := Walk(op, d.rows, visit, want, ref);
            Taken(op, d, AfterWalk(d, w), u) == if u == v then want - w.left else 0
  {
    var w := Walk(op, d.rows, visit, want, ref);
    WalkSum(op, Reserved, d.rows, visit, want, ref, v, u);
    ShiftedBy(op, Sum(Plain(Reserved), u, d.rows), Sum(Plain(Reserved), u, w.rows), if u == v then want - w.left else 0);
  }

  lemma LeftIsTaken(want: nat, supply: nat, left: int)
    requires left == Max(want - supply, 0)
    ensures want - left == Min(want, supply)
  {
  }

  /** A walk takes what is asked for or what there is. */
  lemma WalkTakes(op: Operation, d: Depot, engine: Engine, v: VariantId, quantity: nat, ref: Option<nat>, u: VariantId)
    requires Sound(d.rows)
    ensures var d' := AfterWalk(d, Walk(op, d.rows, Query(op, d, engine, v), quantity, ref));
            Taken(op, d, d', u) == if u == v then Min(quantity, Supply(op, d, v)) else 0
  {
    var visit := Query(op, d, engine, v);
    QueryLeaves(op, d, engine, v, quantity, ref);
    VisitTakes(op, d, visit, quantity, ref, v, u);
    LeftIsTaken(quantity, Supply(op, d, v), Walk(op, d.rows, visit, quantity, ref).left);
  }

  /** Reserving and committing move exactly the quantity asked for, releasing as much of it as is reserved. */
  lemma PerformTakes(op: Operation, d: Depot, engine: Engine, v: VariantId, quantity: nat, ref: Option<nat>, u: VariantId)
    requires Sound(d.rows) && Perform(op, d, engine, v, quantity, ref).Success?
    ensures var d' := Perform(op, d, engine, v, quantity, ref).value;
            Taken(op, d, d', u) == if u != v then 0 else if op == Releasing then Min(quantity, Supply(op, d, v)) else quantity
  {
    PerformSucceedsIff(op, d, engine, v, quantity, ref);
    WalkTakes(op, d, engine, v, quantity, ref, u);
  }

  /** What was taken is no longer there to be taken. */
  lemma PerformLowersSupply(op: Operation, d: Depot, engine: Engine, v: VariantId, quantity: nat, ref: Option<nat>, u: VariantId)
    requires Perform(op, d, engine, v, quantity, ref).Success?
    ensures var d' := Perform(op, d, engine, v, quantity, ref).value;
            Supply(op, d', u) == Supply(op, d, u) - Taken(op, d, d', u)
  {
    var visit := Query(op, d, engine, v);
    var m := if op == Reserving then Reach(Available, d.warehouses, None) else Plain(Limit(op));
    if op == Reserving {
      assert PriorityVisit(d.warehouses, d.rows, v, visit);
    }
    WalkLowers(op, m, d.rows, visit, quantity, ref, v, u);
    WalkSums(op, d.rows, visit, quantity, ref, v, u);
  }

  lemma BookedTransitive(op: Operation, d: Depot, d1: Depot, d2: Depot, order: nat)
    requires Booked(op, d, d1, order) && Booked(op, d1, d2, order)
    ensures Booked(op, d, d2, order)
  {
    NewsConcat(d, d1, d2);
    assert forall m :: m in News(d, d2) ==> m in News(d, d1) || m in News(d1, d2);
    forall reason, o, v
      ensures Tally(News(d, d2), reason, o, v) ==
              if reason == ReasonFor(op) && o == order then Signed(op, Taken(op, d, d2, v)) else 0
    {
      TallyConcat(News(d, d1), News(d1, d2), reason, o, v);
    }
    ReplayedTransitive(d, d1, d2);
  }

  lemma NewsConcat(d: Depot, d1: Depot, d2: Depot)
    requires d.ledger <= d1.ledger <= d2.ledger
    ensures d.ledger <= d2.ledger && News(d, d2) == News(d, d1) + News(d1, d2)
  {
  }

  lemma ReplayedTransitive(d: Depot, d1: Depot, d2: Depot)
    requires d.ledger <= d1.ledger <= d2.ledger && Replayed(d, d1) && Replayed(d1, d2)
    ensures Replayed(d, d2)
  {
    NewsConcat(d, d1, d2);
    forall i: nat ensures Replay(LevelOf(d.rows, i), News(d, d2), i) == LevelOf(d2.rows, i) {
      ReplayConcat(LevelOf(d.rows, i), News(d, d1), News(d1, d2), i);
    }
  }

  lemma BookedReflexive(op: Operation, d: Depot, order: nat)
    ensures Booked(op, d, d, order)
  {
    assert News(d, d) == [];
  }

  /** An adjustment creates at most a row, keeps figures sound and logs one line about its row. */
  lemma AdjustKeeps(d: Depot, v: VariantId, code: string, delta: int)
    requires Adjust(d, v, code, delta).Success?
    ensures var d' := Adjust(d, v, code, delta).value;
            && d'.warehouses == d.warehouses && d.ledger <= d'.ledger
            && |d.rows| <= |d'.rows| && (forall i :: 0 <= i < |d.rows| ==> SameRow(d.rows[i], d'.rows[i]))
            && (Sound(d.rows) ==> Sound(d'.rows))
            && (forall m :: m in News(d, d') ==> m.row < |d'.rows| && m.variant == d'.rows[m.row].variant)
  {
    var d' := Adjust(d, v, code, delta).value;
    var m := Movement(FindRow(d.rows, v, code), v, delta, Adjustment, None);
    assert News(d, d') == [m];
  }

  lemma EmptyRowSum(q: Quantity, rows: seq<Stock>, r: Stock, u: VariantId)
    requires (q == OnHand && r.onHand == 0) || (q == Reserved && r.reserved == 0)
    ensures Sum(Plain(q), u, rows + [r]) == Sum(Plain(q), u, rows)
  {
    SumAppend(Plain(q), u, rows, r);
  }

  /** A row that `get_or_create` creates is empty. */
  lemma WithRowSum(q: Quantity, rows: seq<Stock>, v: VariantId, code: string, u: VariantId)
    requires q == OnHand || q == Reserved
    ensures Sum(Plain(q), u, WithRow(rows, v, code)) == Sum(Plain(q), u, rows)
  {
    EmptyRowSum(q, rows, Stock(v, code, 0, 0, 0), u);
  }

  lemma AdjustSum(q: Quantity, d: Depot, v: VariantId, code: string, delta: int, u: VariantId)
    requires q == OnHand || q == Reserved
    requires Adjust(d, v, code, delta).Success?
    ensures var rows, i := WithRow(d.rows, v, code), FindRow(d.rows, v, code);
            var rows' := Adjust(d, v, code, delta).value.rows;
            && |rows'| == |rows|
            && Sum(Plain(q), u, rows') == Sum(Plain(q), u, d.rows) - Weight(Plain(q), u, rows[i]) + Weight(Plain(q), u, rows'[i])
  {
    var rows, i := WithRow(d.rows, v, code), FindRow(d.rows, v, code);
    WithRowSum(q, d.rows, v, code, u);
    SumUpdate(Plain(q), u, rows, i, Adjust(d, v, code, delta).value.rows[i]);
  }

  /** An adjustment changes one variant's shelves by its effective amount and reserves nothing. */
  lemma AdjustSums(d: Depot, v: VariantId, code: string, delta: int, u: VariantId)
    requires Adjust(d, v, code, delta).Success?
    ensures var d' := Adjust(d, v, code, delta).value;
            && Sum(Plain(Reserved), u, d'.rows) == Sum(Plain(Reserved), u, d.rows)
            && Sum(Plain(OnHand), u, d'.rows) ==
               Sum(Plain(OnHand), u, d.rows) + if u == v then EffectiveDelta(d, v, code, delta) else 0
  {
    AdjustSum(OnHand, d, v, code, delta, u);
    AdjustSum(Reserved, d, v, code, delta, u);
  }

  /** The line an adjustment logs belongs to no order, and replays although it holds the unclamped amount. */
  lemma AdjustLogs(d: Depot, v: VariantId, code: string, delta: int)
    requires Adjust(d, v, code, delta).Success?
    ensures var d' := Adjust(d, v, code, delta).value;
            && d.ledger <= d'.ledger
            && (forall reason, o, u :: Tally(News(d, d'), reason, o, u) == 0)
            && Replayed(d, d')
  {
    var d' := Adjust(d, v, code, delta).value;
    var m := Movement(FindRow(d.rows, v, code), v, delta, Adjustment, None);
    assert News(d, d') == [m];
    assert [m][1..] == [];
    forall reason, o, u ensures Tally(News(d, d'), reason, o, u) == 0 {
      assert Tally([m], reason, o, u) == TallyOf(m, reason, o, u) + Tally([m][1..], reason, o, u);
    }
    forall j: nat ensures Replay(LevelOf(d.rows, j), [m], j) == LevelOf(d'.rows, j) {
    }
  }

  // ---------- the row that an adjustment is about ----------

  /** At most one row per variant and warehouse. */
  ghost predicate OneRowEach(rows: seq<Stock>) {
    forall i, j :: 0 <= i < j < |rows| ==> rows[i].variant != rows[j].variant || rows[i].warehouse != rows[j].warehouse
  }

  predicate IsRowOf(r: Stock, v: VariantId, code: string) {
    r.variant == v && r.warehouse == code
  }

  /** Row `i` is the one asked for and holds the clamped figure; it is the old one but for that, or a new one that was
      missing; every other row is as it was, and one line is logged about it. */
  ghost predicate AdjustedAt(d: Depot, d': Depot, v: VariantId, code: string, delta: int, i: nat) {
    && i < |d'.rows| && IsRowOf(d'.rows[i], v, code)
    && (i < |d.rows| ==>
          && |d'.rows| == |d.rows| && IsRowOf(d.rows[i], v, code)
          && d'.rows[i] == d.rows[i].(onHand := Max(d.rows[i].onHand + delta, 0)))
    && (i >= |d.rows| ==>
          && i == |d.rows| && |d'.rows| == |d.rows| + 1 && (forall j :: 0 <= j < |d.rows| ==> !IsRowOf(d.rows[j], v, code))
          && d'.rows[i].onHand == Max(delta, 0) && d'.rows[i].reserved == 0 && d'.rows[i].safetyBuffer == 0)
    && (forall j :: 0 <= j < |d'.rows| && j != i ==> j < |d.rows| && d'.rows[j] == d.rows[j])
    && d'.warehouses == d.warehouses
    && d'.ledger == d.ledger + [Movement(i, v, delta, Adjustment, None)]
  }

  /** An adjustment succeeds exactly if the warehouse exists, and is about the row of that variant in that warehouse. */
  lemma AdjustsItsRow(d: Depot, v: VariantId, code: string, delta: int) returns (i: nat)
    ensures var r := Adjust(d, v, code, delta);
            && (r.Success? <==> code in d.warehouses)
            && (r.Failure? ==> r.error == DoesNotExist)
            && (r.Success? ==> AdjustedAt(d, r.value, v, code, delta, i))
  {
    i := FindRow(d.rows, v, code);
  }

  /** Where rows were one each before, they are after, so the adjusted row is the only one of its kind. */
  lemma AdjustedIsOnly(d: Depot, d': Depot, v: VariantId, code: string, delta: int, i: nat)
    requires OneRowEach(d.rows) && AdjustedAt(d, d', v, code, delta, i)
    ensures OneRowEach(d'.rows)
    ensures forall j :: 0 <= j < |d'.rows| && IsRowOf(d'.rows[j], v, code) ==> j == i
  {
    forall j, k | 0 <= j < k < |d'.rows|
      ensures d'.rows[j].variant != d'.rows[k].variant || d'.rows[j].warehouse != d'.rows[k].warehouse
    {
      if j != i && k != i {
        assert d'.rows[j] == d.rows[j] && d'.rows[k] == d.rows[k];
      }
    }
  }

  lemma SameRowsOneEach(rows: seq<Stock>, rows': seq<Stock>)
    requires SameRows(rows, rows') && OneRowEach(rows)
    ensures OneRowEach(rows')
  {
    assert forall i :: 0 <= i < |rows| ==> SameRow(rows[i], rows'[i]);
  }
}

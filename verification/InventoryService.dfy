/** inventory/services.py as it runs: loops that update stock rows and append to the ledger in place, each
    proved to compute what `Inventory` specifies. */
module InventoryService {
  import opened Prelude
  import opened Tables
  import opened Allocation
  import opened Greedy
  import opened Inventory

  /** Totals over the rows of active warehouses; `available` ignores safety buffers. */
  datatype StockSnapshot = StockSnapshot(available: int, onHand: int, reserved: int)

  /** The snapshot of a variant: totals of its rows in active warehouses. */
  function SnapshotOf(d: Depot, v: VariantId): StockSnapshot {
    var onHand := Sum(Reach(OnHand, d.warehouses, None), v, d.rows);
    var reserved := Sum(Reach(Reserved, d.warehouses, None), v, d.rows);
    StockSnapshot(onHand - reserved, onHand, reserved)
  }

  /** The walk still to be done from visit position `k`, on the tables as they now are, ends as intended. */
  ghost predicate Resumes(op: Operation, now: Depot, visit: seq<nat>, k: nat, left: int, ref: Option<nat>, end: Depot, short: int) {
    && k <= |visit| && Within(visit, |now.rows|)
    && var w := Walk(op, now.rows, visit[k..], left, ref);
    && AfterWalk(now, w) == end && w.left == short
  }

  lemma ResumesStart(op: Operation, d: Depot, visit: seq<nat>, want: int, ref: Option<nat>)
    requires Within(visit, |d.rows|)
    ensures var w := Walk(op, d.rows, visit, want, ref);
            Resumes(op, d, visit, 0, want, ref, AfterWalk(d, w), w.left)
  {
    assert visit[0..] == visit;
  }

  /** A loop's turn at row `i`: it takes `t` units and logs them, or leaves row and ledger alone. */
  ghost predicate Turned(op: Operation, now: Depot, next: Depot, i: nat, t: int, ref: Option<nat>)
    requires i < |now.rows|
  {
    next == if t == 0 then now
            else now.(rows := now.rows[i := Moved(op, now.rows[i], t)],
                      ledger := now.ledger + [Movement(i, now.rows[i].variant, Signed(op, t), ReasonFor(op), ref)])
  }

  /** One row further. */
  lemma ResumesStep(op: Operation, now: Depot, visit: seq<nat>, k: nat, left: int, ref: Option<nat>, end: Depot, short: int, next: Depot, t: int)
    requires Resumes(op, now, visit, k, left, ref, end, short) && k < |visit| && left > 0
    requires t == Min(Capacity(op, now.rows[visit[k]]), left) && Turned(op, now, next, visit[k], t, ref)
    ensures Resumes(op, next, visit, k + 1, left - t, ref, end, short)
  {
    var i := visit[k];
    assert visit[k..][1..] == visit[k + 1..];
    assert now.rows[i := Moved(op, now.rows[i], t)] == next.rows;
    var rest := Walk(op, next.rows, visit[k + 1..], left - t, ref);
    var w := Walk(op, now.rows, visit[k..], left, ref);
    assert w.rows == rest.rows && w.left == rest.left;
    assert now.ledger + w.moves == next.ledger + rest.moves;
  }

  /** A row that nothing is wanted from. */
  lemma ResumesSkip(op: Operation, now: Depot, visit: seq<nat>, k: nat, left: int, ref: Option<nat>, end: Depot, short: int)
    requires Resumes(op, now, visit, k, left, ref, end, short) && k < |visit| && left <= 0
    ensures Resumes(op, now, visit, k + 1, left, ref, end, short)
  {
  }

  /** Once nothing more is wanted, or no row is left, the tables are final. */
  lemma ResumesEnd(op: Operation, now: Depot, visit: seq<nat>, k: nat, left: int, ref: Option<nat>, end: Depot, short: int)
    requires Resumes(op, now, visit, k, left, ref, end, short) && (left <= 0 || k == |visit|)
    ensures now == end && left == short
  {
    assert now.ledger + [] == now.ledger;
  }

  /** `stock.save(...)` and `StockMovement.objects.create(...)`, which every loop does together. */
  method SaveAndLog(db: Database, i: nat, row: Stock, m: Movement)
    requires i < |db.rows|
    modifies db`rows, db`ledger
    ensures db.rows == old(db.rows)[i := row] && db.ledger == old(db.ledger) + [m]
  {
    db.rows := db.rows[i := row];
    db.ledger := db.ledger + [m];
  }

  /** The loop of `reserve_stock`: take by priority, and total up the rows seen for the snapshot. */
  method ReserveRows(db: Database, visit: seq<nat>, quantity: int, reference: Option<nat>)
    returns (remaining: int, onHand: int, reserved: int)
    requires Within(visit, |db.rows|) && Distinct(visit)
    modifies db`rows, db`ledger
    ensures var before := old(db.InventoryTables());
            var w := Walk(Reserving, before.rows, visit, quantity, reference);
            && db.InventoryTables() == AfterWalk(before, w) && remaining == w.left
            && onHand == VisitSum(Plain(OnHand), w.rows, visit)
            && reserved == VisitSum(Plain(Reserved), w.rows, visit)
  {
    ghost var saved := db.InventoryTables();
    remaining, onHand, reserved := quantity, 0, 0;
    ghost var w := Walk(Reserving, saved.rows, visit, quantity, reference);
    ghost var end := AfterWalk(saved, w);
    ResumesStart(Reserving, saved, visit, quantity, reference);
    for k := 0 to |visit|
      invariant db.warehouses == saved.warehouses && |db.rows| == |saved.rows|
      invariant Resumes(Reserving, db.InventoryTables(), visit, k, remaining, reference, end, w.left)
      invariant Within(visit[..k], |db.rows|)
      invariant onHand == VisitSum(Plain(OnHand), db.rows, visit[..k])
      invariant reserved == VisitSum(Plain(Reserved), db.rows, visit[..k])
    {
      var i := visit[k];
      ghost var now := db.InventoryTables();
      onHand := onHand + db.rows[i].onHand;
      if remaining <= 0 {
        reserved := reserved + db.rows[i].reserved;
        ResumesSkip(Reserving, now, visit, k, remaining, reference, end, w.left);
        SumsStep(now.rows, db.rows, visit, k);
        continue;
      }
      var take := Min(db.rows[i].Available(), remaining);
      ghost var wanted := remaining;
      if take > 0 {
        SaveAndLog(db, i, db.rows[i].(reserved := db.rows[i].reserved + take),
                   Movement(i, db.rows[i].variant, -take, Reservation, reference));
        remaining := remaining - take;
      }
      ResumesStep(Reserving, now, visit, k, wanted, reference, end, w.left, db.InventoryTables(), take);
      reserved := reserved + db.rows[i].reserved;
      SumsStep(now.rows, db.rows, visit, k);
    }
    ResumesEnd(Reserving, db.InventoryTables(), visit, |visit|, remaining, reference, end, w.left);
    assert visit[..|visit|] == visit;
  }

  /** The totals of the rows visited are those of all active rows. */
  lemma SnapshotOfVisit(saved: Depot, v: VariantId, visit: seq<nat>, quantity: int, reference: Option<nat>)
    requires PriorityVisit(saved.warehouses, saved.rows, v, visit)
    ensures var w := Walk(Reserving, saved.rows, visit, quantity, reference);
            var onHand, reserved := VisitSum(Plain(OnHand), w.rows, visit), VisitSum(Plain(Reserved), w.rows, visit);
            StockSnapshot(onHand - reserved, onHand, reserved) == SnapshotOf(AfterWalk(saved, w), v)
  {
    var w := Walk(Reserving, saved.rows, visit, quantity, reference);
    WalkKeepsRows(Reserving, saved.rows, visit, quantity, reference);
    VisitIsReach(saved, w.rows, v, visit, OnHand);
    VisitIsReach(saved, w.rows, v, visit, Reserved);
  }

  /** The snapshot of a successful reservation: what active warehouses had, the quantity now reserved as well; buffers do
      not count. */
  lemma SnapshotTells(d: Depot, engine: Engine, v: VariantId, quantity: int, reference: Option<nat>)
    requires Sound(d.rows) && Perform(Reserving, d, engine, v, quantity, reference).Success?
    ensures var snapshot := SnapshotOf(Perform(Reserving, d, engine, v, quantity, reference).value, v);
            && snapshot.onHand == Sum(Reach(OnHand, d.warehouses, None), v, d.rows)
            && snapshot.reserved == Sum(Reach(Reserved, d.warehouses, None), v, d.rows) + quantity
            && snapshot.available == snapshot.onHand - snapshot.reserved
  {
    var visit := Query(Reserving, d, engine, v);
    assert PriorityVisit(d.warehouses, d.rows, v, visit);
    WalkReach(OnHand, d.warehouses, d.rows, visit, quantity, reference, v);
    WalkReach(Reserved, d.warehouses, d.rows, visit, quantity, reference, v);
    WalkKeepsSound(Reserving, d.rows, visit, quantity, reference);
  }

  method ReserveStock(db: Database, engine: Engine, v: VariantId, quantity: int, reference: Option<nat>)
    returns (r: Result<StockSnapshot, Error>)
    modifies db`rows, db`ledger
    ensures var before, now := old(db.InventoryTables()), db.InventoryTables();
            match Perform(Reserving, before, engine, v, quantity, reference)
            case Failure(e) => r == Failure(e) && now == before
            case Success(after) => now == after && r == Success(SnapshotOf(now, v))
  {
    if quantity <= 0 {
      return Failure(InvalidValue);
    }
    var saved := db.InventoryTables();
    var visit := engine.byPriority(db.warehouses, db.rows, v);
    assert PriorityVisit(db.warehouses, db.rows, v, visit);
    var remaining, onHand, reserved := ReserveRows(db, visit, quantity, reference);
    if remaining > 0 {
      db.RestoreDepot(saved);
      return Failure(OutOfStock);
    }
    SnapshotOfVisit(saved, v, visit, quantity, reference);
    r := Success(StockSnapshot(onHand - reserved, onHand, reserved));
  }

  /** The running totals of the snapshot, one row further. */
  lemma SumsStep(rows: seq<Stock>, rows': seq<Stock>, visit: seq<nat>, k: nat)
    requires Within(visit, |rows|) && Distinct(visit) && k < |visit| && |rows'| == |rows|
    requires forall i :: 0 <= i < |rows| && i != visit[k] ==> rows'[i] == rows[i]
    ensures Within(visit[..k], |rows|) && Within(visit[..k + 1], |rows|)
    ensures forall q :: q == OnHand || q == Reserved ==>
              VisitSum(Plain(q), rows', visit[..k + 1]) == VisitSum(Plain(q), rows, visit[..k]) + QuantityOf(q, rows'[visit[k]])
  {
    assert visit[..k + 1] == visit[..k] + [visit[k]];
    forall q | q == OnHand || q == Reserved
      ensures VisitSum(Plain(q), rows', visit[..k + 1]) == VisitSum(Plain(q), rows, visit[..k]) + QuantityOf(q, rows'[visit[k]])
    {
      VisitSumFrame(Plain(q), Plain(q), rows, rows', visit[..k]);
      VisitSumSnoc(Plain(q), rows', visit[..k], visit[k]);
    }
  }

  lemma VisitIsReach(saved: Depot, rows: seq<Stock>, v: VariantId, visit: seq<nat>, q: Quantity)
    requires SameRows(saved.rows, rows) && PriorityVisit(saved.warehouses, saved.rows, v, visit)
    ensures VisitSum(Plain(q), rows, visit) == Sum(Reach(q, saved.warehouses, None), v, rows)
  {
    var m := Reach(q, saved.warehouses, None);
    assert forall i :: 0 <= i < |rows| ==> SameRow(saved.rows[i], rows[i]);
    VisitSumFrame(Plain(q), m, rows, rows, visit);
    VisitSumIsSum(m, v, rows, visit);
  }

  /** The loop of `release_reservation`. */
  method ReleaseRows(db: Database, visit: seq<nat>, quantity: int, reference: Option<nat>)
    requires Within(visit, |db.rows|)
    modifies db`rows, db`ledger
    ensures var before := old(db.InventoryTables());
            db.InventoryTables() == AfterWalk(before, Walk(Releasing, before.rows, visit, quantity, reference))
  {
    ghost var saved := db.InventoryTables();
    var remaining := quantity;
    ghost var w := Walk(Releasing, saved.rows, visit, quantity, reference);
    ghost var end := AfterWalk(saved, w);
    ResumesStart(Releasing, saved, visit, quantity, reference);
    var k := 0;
    while k < |visit|
      invariant k <= |visit|
      invariant db.warehouses == saved.warehouses && |db.rows| == |saved.rows|
      invariant Resumes(Releasing, db.InventoryTables(), visit, k, remaining, reference, end, w.left)
    {
      if remaining <= 0 {
        break;
      }
      var i := visit[k];
      ghost var now := db.InventoryTables();
      var giveBack := Min(db.rows[i].reserved, remaining);
      if giveBack != 0 {
        SaveAndLog(db, i, db.rows[i].(reserved := db.rows[i].reserved - giveBack),
                   Movement(i, db.rows[i].variant, giveBack, ReservationRelease, reference));
      }
      ResumesStep(Releasing, now, visit, k, remaining, reference, end, w.left, db.InventoryTables(), giveBack);
      remaining := remaining - giveBack;
      k := k + 1;
    }
    ResumesEnd(Releasing, db.InventoryTables(), visit, k, remaining, reference, end, w.left);
  }

  method ReleaseReservation(db: Database, engine: Engine, v: VariantId, quantity: int, reference: Option<nat>)
    modifies db`rows, db`ledger
    ensures Perform(Releasing, old(db.InventoryTables()), engine, v, quantity, reference) == Success(db.InventoryTables())
  {
    var visit := engine.byReserved(db.rows, v);
    assert ReservedVisit(db.rows, v, visit);
    ReleaseRows(db, visit, quantity, reference);
  }

  /** The loop of `commit_sale`. */
  method CommitRows(db: Database, visit: seq<nat>, quantity: int, reference: Option<nat>) returns (remaining: int)
    requires Within(visit, |db.rows|)
    modifies db`rows, db`ledger
    ensures var before := old(db.InventoryTables());
            var w := Walk(Committing, before.rows, visit, quantity, reference);
            db.InventoryTables() == AfterWalk(before, w) && remaining == w.left
  {
    ghost var saved := db.InventoryTables();
    remaining := quantity;
    ghost var w := Walk(Committing, saved.rows, visit, quantity, reference);
    ghost var end := AfterWalk(saved, w);
    ResumesStart(Committing, saved, visit, quantity, reference);
    var k := 0;
    while k < |visit|
      invariant k <= |visit|
      invariant db.warehouses == saved.warehouses && |db.rows| == |saved.rows|
      invariant Resumes(Committing, db.InventoryTables(), visit, k, remaining, reference, end, w.left)
    {
      if remaining <= 0 {
        break;
      }
      var i := visit[k];
      ghost var now := db.InventoryTables();
      var take := Min(Min(db.rows[i].reserved, db.rows[i].onHand), remaining);
      if take != 0 {
        SaveAndLog(db, i, db.rows[i].(reserved := db.rows[i].reserved - take, onHand := db.rows[i].onHand - take),
                   Movement(i, db.rows[i].variant, -take, Sale, reference));
      }
      ResumesStep(Committing, now, visit, k, remaining, reference, end, w.left, db.InventoryTables(), take);
      remaining := remaining - take;
      k := k + 1;
    }
    ResumesEnd(Committing, db.InventoryTables(), visit, k, remaining, reference, end, w.left);
  }

  method CommitSale(db: Database, engine: Engine, v: VariantId, quantity: int, reference: Option<nat>)
    returns (r: Result<(), Error>)
    modifies db`rows, db`ledger
    ensures match Perform(Committing, old(db.InventoryTables()), engine, v, quantity, reference)
            case Success(after) => r == Success(()) && db.InventoryTables() == after
            case Failure(e) => r == Failure(e) && db.InventoryTables() == old(db.InventoryTables())
  {
    var saved := db.InventoryTables();
    var visit := engine.byReserved(db.rows, v);
    assert ReservedVisit(db.rows, v, visit);
    var remaining := CommitRows(db, visit, quantity, reference);
    if remaining > 0 {
      db.RestoreDepot(saved);
      return Failure(OutOfStock);
    }
    r := Success(());
  }

  method AdjustStock(db: Database, v: VariantId, code: string, delta: int) returns (r: Result<Stock, Error>)
    modifies db`rows, db`ledger
    ensures var before := old(db.InventoryTables());
            match Adjust(before, v, code, delta)
            case Failure(e) => r == Failure(e) && db.InventoryTables() == before
            case Success(after) =>
              && db.InventoryTables() == after
              && FindRow(before.rows, v, code) < |after.rows| && r == Success(after.rows[FindRow(before.rows, v, code)])
    ensures r.Success? ==> exists i: nat :: AdjustedAt(old(db.InventoryTables()), db.InventoryTables(), v, code, delta, i) && r.value == db.rows[i]
    ensures r.Success? <==> code in db.warehouses
  {
    if code !in db.warehouses {
      return Failure(DoesNotExist);
    }
    var _ := AdjustsItsRow(db.InventoryTables(), v, code, delta);
    var i := FindRow(db.rows, v, code);
    db.rows := WithRow(db.rows, v, code);
    db.rows := db.rows[i := db.rows[i].(onHand := Max(db.rows[i].onHand + delta, 0))];
    db.ledger := db.ledger + [Movement(i, v, delta, Adjustment, None)];
    r := Success(db.rows[i]);
  }
}

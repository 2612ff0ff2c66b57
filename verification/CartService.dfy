/** cart/services.py as it runs, on the cart table in place. */
module CartService {
  import opened Prelude
  import opened Tables
  import opened Inventory
  import opened Carts
  import Orders

  method GetOrCreate(db: Database, owner: Owner) returns (r: Result<(), Error>)
    modifies db`carts
    ensures match GetOrCreateCart(old(db.carts), owner)
            case Success(carts) => r == Success(()) && db.carts == carts
            case Failure(e) => r == Failure(e) && db.carts == old(db.carts)
  {
    if owner == Guest("") {
      return Failure(InvalidValue);
    }
    if owner !in db.carts {
      db.carts := db.carts[owner := []];
    }
    r := Success(());
  }

  method Add(db: Database, owner: Owner, v: VariantId, quantity: int) returns (r: Result<CartItem, Error>)
    requires owner in db.carts
    modifies db`carts
    ensures match AddItem(old(db.carts[owner]), db.catalog, db.InventoryTables(), v, quantity)
            case Success(cart) => db.carts == old(db.carts)[owner := cart] && RowOf(cart, v) < |cart| && r == Success(cart[RowOf(cart, v)])
            case Failure(e) => r == Failure(e) && db.carts == old(db.carts)
  {
    if quantity <= 0 {
      return Failure(InvalidValue);
    }
    if v !in db.catalog || !db.catalog[v].active {
      return Failure(DoesNotExist);
    }
    var saved, cart := db.carts, db.carts[owner];
    var i := RowOf(cart, v);
    if i < |cart| && !cart[i].alive {
      return Failure(IntegrityConflict);
    }
    if i == |cart| {
      db.carts := db.carts[owner := cart + [CartItem(v, 0, db.catalog[v].price, true)]];
    }
    var item := db.carts[owner][i];
    var newQuantity := item.quantity + quantity;
    if newQuantity > GetAvailable(db.InventoryTables(), v) {
      db.carts := saved;
      return Failure(OutOfStock);
    }
    item := item.(quantity := newQuantity, unitPrice := db.catalog[v].price);
    db.carts := db.carts[owner := db.carts[owner][i := item]];
    PutLineRows(cart, item, v);
    assert db.carts[owner] == PutLine(cart, item);
    r := Success(item);
  }

  method Update(db: Database, owner: Owner, item: nat, quantity: int) returns (r: Result<Option<CartItem>, Error>)
    requires owner in db.carts
    modifies db`carts
    ensures match UpdateItem(old(db.carts[owner]), db.InventoryTables(), item, quantity)
            case Success(cart) =>
              && db.carts == old(db.carts)[owner := cart]
              && item < |cart| && r == Success(if quantity <= 0 then None else Some(cart[item]))
            case Failure(e) => r == Failure(e) && db.carts == old(db.carts)
  {
    var cart := db.carts[owner];
    if item >= |cart| || !cart[item].alive {
      return Failure(DoesNotExist);
    }
    if quantity <= 0 {
      db.carts := db.carts[owner := cart[item := cart[item].(alive := false)]];
      return Success(None);
    }
    if quantity > GetAvailable(db.InventoryTables(), cart[item].variant) {
      return Failure(OutOfStock);
    }
    db.carts := db.carts[owner := cart[item := cart[item].(quantity := quantity)]];
    r := Success(Some(db.carts[owner][item]));
  }

  method Remove(db: Database, owner: Owner, item: nat)
    requires owner in db.carts
    modifies db`carts
    ensures db.carts == old(db.carts)[owner := RemoveItem(old(db.carts[owner]), item)]
    ensures item < |db.carts[owner]| ==> !db.carts[owner][item].alive
    ensures forall j :: 0 <= j < |db.carts[owner]| && j != item ==> db.carts[owner][j] == old(db.carts[owner])[j]
  {
    var cart := db.carts[owner];
    if item < |cart| {
      db.carts := db.carts[owner := cart[item := cart[item].(alive := false)]];
    }
  }

  /** A cart that shows nothing cannot be checked out. */
  lemma {:induction false} NothingToOrder(cart: Cart)
    requires forall i :: 0 <= i < |cart| ==> !cart[i].alive
    ensures Orders.OrderItems(cart) == []
  {
    if cart != [] {
      NothingToOrder(cart[1..]);
    }
  }

  method Clear(db: Database, owner: Owner)
    requires owner in db.carts
    modifies db`carts
    ensures db.carts == old(db.carts)[owner := ClearCart(old(db.carts[owner]))]
    ensures TotalItems(db.carts[owner]) == 0 && Orders.OrderItems(db.carts[owner]) == []
  {
    db.carts := db.carts[owner := ClearCart(db.carts[owner])];
    ClearCartEmpty(old(db.carts[owner]));
    NothingToOrder(db.carts[owner]);
  }

  /** Moving the guest lines over one by one; the first one that cannot be moved undoes them all. */
  method MergeAnonymousIntoUser(db: Database, session: string, user: nat) returns (r: Result<Option<Cart>, Error>)
    modifies db`carts
    ensures match MergeAnonymous(old(db.carts), db.catalog, session, user)
            case Success(carts) =>
              && db.carts == carts
              && (if session == "" || Guest(session) !in old(db.carts) then r == Success(None)
                  else User(user) in carts && r == Success(Some(carts[User(user)])))
            case Failure(e) => r == Failure(e) && db.carts == old(db.carts)
  {
    if session == "" || Guest(session) !in db.carts {
      return Success(None);
    }
    var saved := db.carts;
    var guest, owner := db.carts[Guest(session)], User(user);
    if owner !in db.carts {
      db.carts := db.carts[owner := []];
    }
    for k := 0 to |guest|
      invariant owner in db.carts && db.carts == saved[owner := db.carts[owner]]
      invariant MergeLines(guest[k..], db.carts[owner], db.catalog) == MergeLines(guest, CartOf(saved, owner), db.catalog)
    {
      assert guest[k..][0] == guest[k] && guest[k..][1..] == guest[k + 1..];
      if guest[k].alive {
        var item, cart := guest[k], db.carts[owner];
        var i := RowOf(cart, item.variant);
        if item.variant !in db.catalog {
          db.carts := saved;
          return Failure(DoesNotExist);
        }
        if i < |cart| && !cart[i].alive {
          db.carts := saved;
          return Failure(IntegrityConflict);
        }
        var price := db.catalog[item.variant].price;
        if i < |cart| {
          db.carts := db.carts[owner := cart[i := cart[i].(quantity := cart[i].quantity + item.quantity, unitPrice := price)]];
        } else {
          db.carts := db.carts[owner := cart + [CartItem(item.variant, item.quantity, price, true)]];
        }
      }
    }
    db.carts := db.carts - {Guest(session)};
    r := Success(Some(db.carts[owner]));
  }
}

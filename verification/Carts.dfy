/** cart/services.py and cart/models.py. A deleted line stays in the table, hidden, and keeps its place under the
    unique constraint on (cart, variant). */
module Carts {
  import opened Prelude
  import opened Tables
  import opened Inventory

  // ---------- reading a cart ----------

  /** Where the variant's row is, live or dead; the cart's length if it has none. */
  function RowOf(cart: Cart, v: VariantId): (i: nat)
    ensures i <= |cart|
    ensures i < |cart| ==> cart[i].variant == v
    ensures forall j :: 0 <= j < i ==> cart[j].variant != v
  {
    if cart == [] || cart[0].variant == v then 0 else 1 + RowOf(cart[1..], v)
  }

  predicate IsLive(cart: Cart, v: VariantId) {
    RowOf(cart, v) < |cart| && cart[RowOf(cart, v)].alive
  }

  predicate IsDead(cart: Cart, v: VariantId) {
    RowOf(cart, v) < |cart| && !cart[RowOf(cart, v)].alive
  }

  /** How many units of a variant the cart shows. */
  function QuantityIn(cart: Cart, v: VariantId): nat {
    if IsLive(cart, v) then cart[RowOf(cart, v)].quantity else 0
  }

  /** `Cart.total_items`. */
  function TotalItems(cart: Cart): nat {
    if cart == [] then 0
    else (if cart[0].alive then cart[0].quantity else 0) + TotalItems(cart[1..])
  }

  /** `CartItem.line_total`: cents times a count need no rounding. */
  function LineTotal(item: CartItem): nat {
    item.unitPrice * item.quantity
  }

  /** `Cart.subtotal`. */
  function Subtotal(cart: Cart): nat {
    if cart == [] then 0
    else (if cart[0].alive then LineTotal(cart[0]) else 0) + Subtotal(cart[1..])
  }

  /** One row per variant, and no live row without units. */
  ghost predicate Tidy(cart: Cart) {
    && (forall i, j :: 0 <= i < j < |cart| ==> cart[i].variant != cart[j].variant)
    && (forall i :: 0 <= i < |cart| && cart[i].alive ==> cart[i].quantity > 0)
  }

  // ---------- specifications ----------

  /** Saving the variant's line: over its row if it has one, else as a new row. */
  function PutLine(cart: Cart, item: CartItem): Cart {
    var i := RowOf(cart, item.variant);
    if i < |cart| then cart[i := item] else cart + [item]
  }

  function AddItem(cart: Cart, catalog: Catalog, d: Depot, v: VariantId, quantity: int): Result<Cart, Error> {
    if quantity <= 0 then Failure(InvalidValue)
    else if v !in catalog || !catalog[v].active then Failure(DoesNotExist)
    else if IsDead(cart, v) then Failure(IntegrityConflict)
    else if QuantityIn(cart, v) + quantity > GetAvailable(d, v) then Failure(OutOfStock)
    else
      Success(PutLine(cart, CartItem(v, QuantityIn(cart, v) + quantity, catalog[v].price, true)))
  }

  /** `item` is the primary key of a line of this cart: its position. */
  function UpdateItem(cart: Cart, d: Depot, item: nat, quantity: int): Result<Cart, Error> {
    if item >= |cart| || !cart[item].alive then Failure(DoesNotExist)
    else if quantity <= 0 then Success(cart[item := cart[item].(alive := false)])
    else if quantity > GetAvailable(d, cart[item].variant) then Failure(OutOfStock)
    else Success(cart[item := cart[item].(quantity := quantity)])
  }

  function RemoveItem(cart: Cart, item: nat): Cart {
    if item < |cart| then cart[item := cart[item].(alive := false)] else cart
  }

  function ClearCart(cart: Cart): (r: Cart)
    ensures |r| == |cart|
    ensures forall i :: 0 <= i < |cart| ==> r[i] == cart[i].(alive := false)
  {
    if cart == [] then [] else [cart[0].(alive := false)] + ClearCart(cart[1..])
  }

  /** Moving one guest line into the user's cart, at today's price. */
  function MergeLine(item: CartItem, user: Cart, catalog: Catalog): Result<Cart, Error> {
    var v := item.variant;
    if v !in catalog then Failure(DoesNotExist)
    else if IsDead(user, v) then Failure(IntegrityConflict)
    else Success(PutLine(user, CartItem(v, QuantityIn(user, v) + item.quantity, catalog[v].price, true)))
  }

  function MergeLines(guest: Cart, user: Cart, catalog: Catalog): Result<Cart, Error>
    decreases |guest|
  {
    if guest == [] then Success(user)
    else if !guest[0].alive then MergeLines(guest[1..], user, catalog)
    else
      var r := MergeLine(guest[0], user, catalog);
      if r.Failure? then r else MergeLines(guest[1..], r.value, catalog)
  }

  function CartOf(carts: map<Owner, Cart>, owner: Owner): Cart {
    if owner in carts then carts[owner] else []
  }

  /** `get_or_create_cart`: a guest needs a session. */
  function GetOrCreateCart(carts: map<Owner, Cart>, owner: Owner): Result<map<Owner, Cart>, Error> {
    if owner == Guest("") then Failure(InvalidValue) else Success(carts[owner := CartOf(carts, owner)])
  }

  /** `merge_anonymous_into_user`: afterwards the guest cart is deleted. */
  function MergeAnonymous(carts: map<Owner, Cart>, catalog: Catalog, session: string, user: nat): Result<map<Owner, Cart>, Error> {
    if session == "" || Guest(session) !in carts then Success(carts)
    else
      match MergeLines(carts[Guest(session)], CartOf(carts, User(user)), catalog)
      case Failure(e) => Failure(e)
      case Success(merged) => Success(carts[User(user) := merged] - {Guest(session)})
  }

  // ---------- what every cart keeps ----------

  lemma RowOfUnique(cart: Cart, i: nat)
    requires Tidy(cart) && i < |cart|
    ensures RowOf(cart, cart[i].variant) == i
  {
  }

  /** Saving a line moves no other line. */
  lemma PutLineRows(cart: Cart, item: CartItem, u: VariantId)
    ensures var k, r := RowOf(cart, u), PutLine(cart, item);
            && (u == item.variant ==> RowOf(r, u) == k && r[k] == item)
            && (u != item.variant && k < |cart| ==> RowOf(r, u) == k && r[k] == cart[k])
            && (u != item.variant && k == |cart| ==> RowOf(r, u) == |r|)
  {
    var i := RowOf(cart, item.variant);
    var k, r := RowOf(cart, u), PutLine(cart, item);
    assert forall j :: 0 <= j < |cart| && j != i ==> r[j] == cart[j];
    assert r[i] == item;
    if RowOf(r, u) < |r| {
      assert u == item.variant || RowOf(r, u) != i;
    }
  }

  lemma PutLineSpec(cart: Cart, item: CartItem)
    requires Tidy(cart) && item.alive && item.quantity > 0 && !IsDead(cart, item.variant)
    ensures var v, r := item.variant, PutLine(cart, item);
            && Tidy(r) && IsLive(r, v) && r[RowOf(r, v)] == item
            && (forall u :: QuantityIn(r, u) == if u == v then item.quantity else QuantityIn(cart, u))
            && (forall u :: IsDead(r, u) <==> IsDead(cart, u))
            && (forall u :: u != v && IsLive(cart, u) ==> IsLive(r, u) && r[RowOf(r, u)] == cart[RowOf(cart, u)])
  {
    forall u {
      PutLineRows(cart, item, u);
    }
  }

  /** Adding succeeds exactly when the quantity is positive, the variant is on sale, its old line was not deleted and
      the new total is available; it changes that variant's line only. */
  lemma AddItemSpec(cart: Cart, catalog: Catalog, d: Depot, v: VariantId, quantity: int)
    requires Tidy(cart)
    ensures var r := AddItem(cart, catalog, d, v, quantity);
            && (r.Success? <==>
                quantity > 0 && v in catalog && catalog[v].active && !IsDead(cart, v)
                && QuantityIn(cart, v) + quantity <= GetAvailable(d, v))
            && (r.Failure? && quantity <= 0 ==> r.error == InvalidValue)
            && (r.Failure? && quantity > 0 && !(v in catalog && catalog[v].active) ==> r.error == DoesNotExist)
            && (r.Failure? && quantity > 0 && v in catalog && catalog[v].active ==>
                  r.error == if IsDead(cart, v) then IntegrityConflict else OutOfStock)
            && (r.Success? ==>
                  && Tidy(r.value) && IsLive(r.value, v)
                  && r.value[RowOf(r.value, v)].unitPrice == catalog[v].price
                  && (forall u :: QuantityIn(r.value, u) == QuantityIn(cart, u) + if u == v then quantity else 0)
                  && (forall u :: IsDead(r.value, u) <==> IsDead(cart, u))
                  && (forall u :: u != v && IsLive(cart, u) ==> IsLive(r.value, u) && r.value[RowOf(r.value, u)] == cart[RowOf(cart, u)]))
  {
    if AddItem(cart, catalog, d, v, quantity).Success? {
      PutLineSpec(cart, CartItem(v, QuantityIn(cart, v) + quantity, catalog[v].price, true));
    }
  }

  /** Updating a live line to a positive, available quantity sets it, at the price it had; to anything less, deletes it.
      Other lines stay as they are. */
  lemma UpdateItemSpec(cart: Cart, d: Depot, item: nat, quantity: int)
    requires Tidy(cart)
    ensures var r := UpdateItem(cart, d, item, quantity);
            && (r.Success? <==> item < |cart| && cart[item].alive && quantity <= Max(GetAvailable(d, cart[item].variant), 0))
            && (r.Failure? ==> r.error == if item < |cart| && cart[item].alive then OutOfStock else DoesNotExist)
            && (r.Success? ==>
                  && Tidy(r.value)
                  && |r.value| == |cart| && r.value[item].unitPrice == cart[item].unitPrice
                  && (forall j :: 0 <= j < |cart| && j != item ==> r.value[j] == cart[j])
                  && (forall u :: QuantityIn(r.value, u) == if u == cart[item].variant then Max(quantity, 0) else QuantityIn(cart, u))
                  && (forall u :: IsDead(r.value, u) <==> IsDead(cart, u) || (u == cart[item].variant && quantity <= 0)))
  {
    if UpdateItem(cart, d, item, quantity).Success? {
      RowOfUnique(cart, item);
      var row := UpdateItem(cart, d, item, quantity).value[item];
      forall u {
        PutLineRows(cart, row, u);
      }
    }
  }

  /** Deleting a line hides its units and keeps its row; other lines stay. */
  lemma RemoveItemSpec(cart: Cart, item: nat)
    requires Tidy(cart)
    ensures Tidy(RemoveItem(cart, item))
    ensures forall u :: IsDead(RemoveItem(cart, item), u) <==> IsDead(cart, u) || (item < |cart| && u == cart[item].variant)
    ensures forall u :: QuantityIn(RemoveItem(cart, item), u) == if item < |cart| && u == cart[item].variant then 0 else QuantityIn(cart, u)
  {
    if item < |cart| {
      RowOfUnique(cart, item);
      forall u {
        PutLineRows(cart, cart[item].(alive := false), u);
      }
    }
  }

  /** So does deleting them all. */
  lemma ClearCartSpec(cart: Cart)
    requires Tidy(cart)
    ensures Tidy(ClearCart(cart)) && TotalItems(ClearCart(cart)) == 0
    ensures forall u :: (IsDead(ClearCart(cart), u) <==> IsDead(cart, u) || IsLive(cart, u)) && !IsLive(ClearCart(cart), u)
  {
    forall u ensures RowOf(ClearCart(cart), u) == RowOf(cart, u) {
      ClearCartRow(cart, u);
    }
    ClearCartEmpty(cart);
  }

  lemma ClearCartRow(cart: Cart, u: VariantId)
    ensures RowOf(ClearCart(cart), u) == RowOf(cart, u)
  {
    var r := ClearCart(cart);
    var k, l := RowOf(cart, u), RowOf(r, u);
    if k < |cart| {
      assert r[k].variant == u;
    }
    if l < |r| {
      assert cart[l].variant == u;
    }
  }

  lemma {:induction false} ClearCartEmpty(cart: Cart)
    ensures TotalItems(ClearCart(cart)) == 0
  {
    if cart != [] {
      assert ClearCart(cart)[1..] == ClearCart(cart[1..]);
      ClearCartEmpty(cart[1..]);
    }
  }

  // ---------- merging ----------

  lemma MergeLineSpec(item: CartItem, user: Cart, catalog: Catalog)
    requires Tidy(user) && item.quantity > 0
    ensures var r := MergeLine(item, user, catalog);
            && (r.Success? <==> item.variant in catalog && !IsDead(user, item.variant))
            && (r.Success? ==>
                  && Tidy(r.value) && IsLive(r.value, item.variant)
                  && r.value[RowOf(r.value, item.variant)].unitPrice == catalog[item.variant].price
                  && TotalItems(r.value) == TotalItems(user) + item.quantity
                  && (forall u :: QuantityIn(r.value, u) == QuantityIn(user, u) + if u == item.variant then item.quantity else 0)
                  && (forall u :: IsDead(r.value, u) <==> IsDead(user, u))
                  && (forall u :: u != item.variant && IsLive(user, u) ==>
                                    IsLive(r.value, u) && r.value[RowOf(r.value, u)] == user[RowOf(user, u)]))
  {
    if MergeLine(item, user, catalog).Success? {
      var merged := CartItem(item.variant, QuantityIn(user, item.variant) + item.quantity, catalog[item.variant].price, true);
      PutLineSpec(user, merged);
      TotalItemsAfter(user, merged);
    }
  }

  lemma {:induction false} TotalItemsAfter(cart: Cart, item: CartItem)
    requires item.alive
    ensures TotalItems(PutLine(cart, item)) ==
            TotalItems(cart) - QuantityIn(cart, item.variant) + item.quantity
  {
    var i := RowOf(cart, item.variant);
    if cart == [] {
      assert (cart + [item])[1..] == [];
    } else if i == 0 {
      assert cart[0 := item][1..] == cart[1..];
    } else {
      TotalItemsAfter(cart[1..], item);
      if i < |cart| {
        assert cart[i := item][1..] == cart[1..][i - 1 := item];
      } else {
        assert (cart + [item])[1..] == cart[1..] + [item];
      }
    }
  }

  /** A merge goes through exactly when every guest line's variant exists and was never deleted from the user's cart.
      Then every variant's units are added up, no unit is lost or invented, and exactly the guest's variants are
      repriced. */
  lemma {:induction false} MergeConserves(guest: Cart, user: Cart, catalog: Catalog)
    requires Tidy(guest) && Tidy(user)
    ensures var r := MergeLines(guest, user, catalog);
            && (r.Success? <==> forall v :: IsLive(guest, v) ==> v in catalog && !IsDead(user, v))
            && (r.Success? ==> Tidy(r.value) && TotalItems(r.value) == TotalItems(user) + TotalItems(guest))
            && (r.Success? ==> forall v :: QuantityIn(r.value, v) == QuantityIn(user, v) + QuantityIn(guest, v))
            && (r.Success? ==> forall v :: IsDead(r.value, v) <==> IsDead(user, v))
            && (r.Success? ==> forall v :: IsLive(guest, v) ==>
                                 IsLive(r.value, v) && r.value[RowOf(r.value, v)].unitPrice == catalog[v].price)
            && (r.Success? ==> forall v :: !IsLive(guest, v) && IsLive(user, v) ==>
                                 IsLive(r.value, v) && r.value[RowOf(r.value, v)] == user[RowOf(user, v)])
    decreases |guest|
  {
    if guest != [] {
      var item, rest := guest[0], guest[1..];
      assert Tidy(rest) && guest == [item] + rest;
      TailRows(guest);
      if !item.alive {
        MergeConserves(rest, user, catalog);
      } else {
        MergeLineSpec(item, user, catalog);
        if MergeLine(item, user, catalog).Success? {
          MergeConserves(rest, MergeLine(item, user, catalog).value, catalog);
        } else {
          assert IsLive(guest, item.variant);
        }
      }
    }
  }

  /** How the rows of a cart relate to those behind its first one. */
  lemma TailRows(cart: Cart)
    requires Tidy(cart) && cart != []
    ensures forall v :: v != cart[0].variant ==>
              (IsLive(cart, v) <==> IsLive(cart[1..], v)) && QuantityIn(cart, v) == QuantityIn(cart[1..], v)
    ensures !IsLive(cart[1..], cart[0].variant) && QuantityIn(cart[1..], cart[0].variant) == 0
    ensures IsLive(cart, cart[0].variant) <==> cart[0].alive
    ensures cart[0].alive ==> QuantityIn(cart, cart[0].variant) == cart[0].quantity
  {
    assert forall j :: 0 <= j < |cart[1..]| ==> cart[1..][j] == cart[j + 1];
  }

  // ---------- carts of all owners ----------

  /** Opening a cart refuses a guest without a session, gives the owner a cart, and leaves what any cart holds alone. */
  lemma OpenCartSpec(carts: map<Owner, Cart>, owner: Owner)
    ensures var r := GetOrCreateCart(carts, owner);
            && (r.Success? <==> owner != Guest(""))
            && (r.Failure? ==> r.error == InvalidValue)
            && (r.Success? ==>
                  && owner in r.value && (forall other :: other in carts ==> other in r.value)
                  && (forall other :: other in r.value && other != owner ==> other in carts)
                  && forall other :: CartOf(r.value, other) == CartOf(carts, other))
  {
  }

  /** After a merge the guest cart is gone, the user has one, and every other cart is as it was; without a guest cart
      nothing happens, so that a second login adds nothing. */
  lemma MergeLeaves(carts: map<Owner, Cart>, catalog: Catalog, session: string, user: nat)
    ensures var r := MergeAnonymous(carts, catalog, session, user);
            && (session == "" || Guest(session) !in carts ==> r == Success(carts))
            && (session != "" && Guest(session) in carts && r.Success? ==>
                  && Guest(session) !in r.value && User(user) in r.value
                  && MergeLines(carts[Guest(session)], CartOf(carts, User(user)), catalog) == Success(r.value[User(user)])
                  && forall other :: other != Guest(session) && other != User(user) ==>
                       (other in r.value <==> other in carts) && CartOf(r.value, other) == CartOf(carts, other))
            && (r.Success? ==> MergeAnonymous(r.value, catalog, session, user) == r)
  {
  }
}

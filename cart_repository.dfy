/** src/cart/repositories/cart.repository.ts: the statements on `carts` and
    `cart_items`. Each statement is atomic: it succeeds and keeps the schema's
    constraints, or fails and changes nothing. */
module CartRepositories {
  import opened Models
  import opened Schema

  predicate DistinctProducts(items: seq<CartItem>) {
    forall i, j :: 0 <= i < j < |items| ==> items[i].productId != items[j].productId
  }

  /** `items` lists every row of `cart_items` that belongs to the cart, each
      exactly once and with its count. */
  predicate ListsItemsOf(items: seq<CartItem>, table: map<ItemKey, int>, cartId: Uuid) {
    && DistinctProducts(items)
    && (forall i :: 0 <= i < |items| ==>
          (cartId, items[i].productId) in table && table[(cartId, items[i].productId)] == items[i].count)
    && (forall k :: k in table && k.0 == cartId ==>
          exists i :: 0 <= i < |items| && items[i].productId == k.1)
  }

  /** The row of `carts` a cart value was read from. */
  function RecordOf(cart: Cart): CartRecord {
    CartRecord(cart.id, cart.userId, cart.createdAt, cart.updatedAt, cart.status)
  }

  /** The count a row has after INSERT ... ON CONFLICT DO UPDATE SET count = count + delta. */
  function Merged(items: map<ItemKey, int>, key: ItemKey, delta: int): int {
    if key in items then items[key] + delta else delta
  }

  /** The rows json_agg collects for one cart, in an order the query leaves
      open; a cart without rows gets the empty list of COALESCE(..., '[]'). */
  method CollectItems(table: map<ItemKey, int>, cartId: Uuid) returns (items: seq<CartItem>)
    ensures ListsItemsOf(items, table, cartId)
    ensures |items| == |ItemKeysOf(table, cartId)|
  {
    items := [];
    var rest := ItemKeysOf(table, cartId);
    while rest != {}
      invariant |items| + |rest| == |ItemKeysOf(table, cartId)|
      invariant forall k :: k in rest ==> k in table && k.0 == cartId
      invariant DistinctProducts(items)
      invariant forall i :: 0 <= i < |items| ==>
        (cartId, items[i].productId) in table && table[(cartId, items[i].productId)] == items[i].count
        && (cartId, items[i].productId) !in rest
      invariant forall k :: k in table && k.0 == cartId && k !in rest ==>
        exists i :: 0 <= i < |items| && items[i].productId == k.1
      decreases |rest|
    {
      var k :| k in rest;
      var x := CartItem(k.1, table[k]);
      assert k == (cartId, x.productId);
      var next := items + [x];
      assert forall i :: 0 <= i < |items| ==> next[i] == items[i];
      assert next[|items|] == x;
      items, rest := next, rest - {k};
    }
  }

  class CartRepository {
    const db: Database

    constructor (db: Database)
      ensures this.db == db
    {
      this.db := db;
    }

    /** INSERT INTO carts (user_id, status, ...) VALUES ($1, 'OPEN', NOW(), NOW())
        (cart.repository.ts:9-25). Nothing stops a second OPEN cart for the user. */
    method CreateCartByUserId(userId: Uuid, now: Timestamp) returns (cart: Cart)
      requires db.Valid()
      modifies db
      ensures db.Valid()
      ensures cart == Cart(cart.id, userId, now, now, CartStatus.Open, [])
      ensures cart.id !in old(db.carts)
      ensures db.carts == old(db.carts)[cart.id := RecordOf(cart)]
      ensures db.cartItems == old(db.cartItems) && db.orders == old(db.orders)
      ensures ListsItemsOf(cart.items, db.cartItems, cart.id)
      ensures OpenCarts(db.carts, userId) == old(OpenCarts(db.carts, userId)) + {cart.id}
    {
      var id := db.NewCartId();
      cart := Cart(id, userId, now, now, CartStatus.Open, []);
      OpenCartsInsert(db.carts, RecordOf(cart), userId);
      db.carts := db.carts[id := RecordOf(cart)];
    }

    /** The user's OPEN cart with its items, or None (cart.repository.ts:35-69).
        With several OPEN carts, LIMIT 1 returns any one of them. */
    method FindCartByUserId(userId: Uuid) returns (cart: Option<Cart>)
      requires db.Valid()
      ensures cart.None? <==> OpenCarts(db.carts, userId) == {}
      ensures cart.Some? ==>
        && cart.value.id in OpenCarts(db.carts, userId)
        && RecordOf(cart.value) == db.carts[cart.value.id]
        && ListsItemsOf(cart.value.items, db.cartItems, cart.value.id)
        && |cart.value.items| == |ItemKeysOf(db.cartItems, cart.value.id)|
    {
      var open := OpenCarts(db.carts, userId);
      if open == {} {
        return None;
      }
      var id :| id in open;
      var row := db.carts[id];
      var items := CollectItems(db.cartItems, id);
      cart := Some(Cart(id, row.userId, row.createdAt, row.updatedAt, row.status, items));
    }

    /** INSERT ... ON CONFLICT (cart_id, product_id) DO UPDATE SET count =
        cart_items.count + $3 (cart.repository.ts:90-111). The CHECK (count > 0)
        is applied to the proposed row before the conflict is detected, so a
        delta of 0 or less fails on both paths; the cart's status is not consulted. */
    method AddCartItem(cartId: Uuid, productId: Uuid, count: int) returns (r: Outcome)
      requires db.Valid()
      modifies db
      ensures db.Valid()
      ensures r.Success? <==>
        && IsInt32(count) && count > 0
        && cartId in old(db.carts)
        && Merged(old(db.cartItems), (cartId, productId), count) <= INT32_MAX
      ensures r.Failure? ==> r.error in {OutOfRange, CheckViolation, ForeignKeyViolation}
      ensures db.cartItems == if r.Success?
        then old(db.cartItems)[(cartId, productId) := Merged(old(db.cartItems), (cartId, productId), count)]
        else old(db.cartItems)
      ensures db.carts == old(db.carts) && db.orders == old(db.orders) && db.nextCartId == old(db.nextCartId)
    {
      var key := (cartId, productId);
      if !IsInt32(count) {
        r := Failure(OutOfRange);
      } else if count <= 0 {
        r := Failure(CheckViolation);
      } else if key in db.cartItems {
        if db.cartItems[key] + count > INT32_MAX {
          r := Failure(OutOfRange);
        } else {
          db.cartItems := db.cartItems[key := db.cartItems[key] + count];
          r := Success;
        }
      } else if cartId !in db.carts {
        r := Failure(ForeignKeyViolation);
      } else {
        db.cartItems := db.cartItems[key := count];
        r := Success;
      }
    }

    /** UPDATE cart_items SET count = $3 WHERE cart_id = $1 AND product_id = $2
        (cart.repository.ts:113-141); no row updated is an error. */
    method UpdateCartItemCount(cartId: Uuid, productId: Uuid, count: int) returns (r: Outcome)
      requires db.Valid()
      modifies db
      ensures db.Valid()
      ensures r.Success? <==> IsInt32(count) && (cartId, productId) in old(db.cartItems) && count > 0
      ensures IsInt32(count) && (cartId, productId) !in old(db.cartItems) ==> r == Failure(RowNotFound)
      ensures db.cartItems == if r.Success?
        then old(db.cartItems)[(cartId, productId) := count]
        else old(db.cartItems)
      ensures db.carts == old(db.carts) && db.orders == old(db.orders) && db.nextCartId == old(db.nextCartId)
    {
      var key := (cartId, productId);
      if !IsInt32(count) {
        r := Failure(OutOfRange);
      } else if key !in db.cartItems {
        r := Failure(RowNotFound);
      } else if count <= 0 {
        r := Failure(CheckViolation);
      } else {
        db.cartItems := db.cartItems[key := count];
        r := Success;
      }
    }

    /** DELETE FROM cart_items WHERE cart_id = $1 AND product_id = $2
        (cart.repository.ts:143-164); no row deleted is an error. */
    method RemoveCartItem(cartId: Uuid, productId: Uuid) returns (r: Outcome)
      requires db.Valid()
      modifies db
      ensures db.Valid()
      ensures r.Success? <==> (cartId, productId) in old(db.cartItems)
      ensures r.Failure? ==> r.error == RowNotFound
      ensures db.cartItems == if r.Success?
        then old(db.cartItems) - {(cartId, productId)}
        else old(db.cartItems)
      ensures db.carts == old(db.carts) && db.orders == old(db.orders) && db.nextCartId == old(db.nextCartId)
    {
      var key := (cartId, productId);
      if key !in db.cartItems {
        r := Failure(RowNotFound);
      } else {
        db.cartItems := db.cartItems - {key};
        r := Success;
      }
    }

    /** DELETE FROM carts WHERE id = $1 (cart.repository.ts:166-185). Its items
        go with it (ON DELETE CASCADE); an order that references it makes the
        statement fail (orders.cart_id has no ON DELETE action). */
    method DeleteCartById(cartId: Uuid) returns (r: Outcome)
      requires db.Valid()
      modifies db
      ensures db.Valid()
      ensures r.Success? <==> cartId in old(db.carts) && !Referenced(old(db.orders), cartId)
      ensures cartId !in old(db.carts) ==> r == Failure(RowNotFound)
      ensures cartId in old(db.carts) && Referenced(old(db.orders), cartId) ==> r == Failure(ForeignKeyViolation)
      ensures db.carts == if r.Success? then old(db.carts) - {cartId} else old(db.carts)
      ensures db.cartItems == if r.Success? then WithoutCart(old(db.cartItems), cartId) else old(db.cartItems)
      ensures db.orders == old(db.orders) && db.nextCartId == old(db.nextCartId)
    {
      if cartId !in db.carts {
        r := Failure(RowNotFound);
      } else if Referenced(db.orders, cartId) {
        r := Failure(ForeignKeyViolation);
      } else {
        db.carts := db.carts - {cartId};
        db.cartItems := WithoutCart(db.cartItems, cartId);
        r := Success;
      }
    }

    /** UPDATE carts SET status = $2, updated_at = NOW() WHERE id = $1
        (cart.repository.ts:187-209). There is no WHERE status = 'OPEN' guard. */
    method UpdateCartStatus(cartId: Uuid, status: string, now: Timestamp) returns (r: Outcome)
      requires db.Valid()
      modifies db
      ensures db.Valid()
      ensures r.Success? <==> cartId in old(db.carts) && ParseCartStatus(status).Some?
      ensures cartId !in old(db.carts) ==> r == Failure(RowNotFound)
      ensures cartId in old(db.carts) && ParseCartStatus(status).None? ==> r == Failure(CheckViolation)
      ensures db.carts == if r.Success?
        then old(db.carts)[cartId := old(db.carts)[cartId].(status := ParseCartStatus(status).value, updatedAt := now)]
        else old(db.carts)
      ensures db.cartItems == old(db.cartItems) && db.orders == old(db.orders) && db.nextCartId == old(db.nextCartId)
    {
      if cartId !in db.carts {
        r := Failure(RowNotFound);
      } else {
        var parsed := ParseCartStatus(status);
        if parsed.None? {
          r := Failure(CheckViolation);
        } else {
          db.carts := db.carts[cartId := db.carts[cartId].(status := parsed.value, updatedAt := now)];
          r := Success;
        }
      }
    }
  }
}

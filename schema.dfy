/** The three tables of db/seed.ts:28-61 as one in-memory store. The CREATE
    TABLE constraints are the store's invariant: every statement either keeps
    them or fails without effect. */
module Schema {
  import opened Models

  /** A `carts` row (db/seed.ts:29-35). */
  datatype CartRecord = CartRecord(
    id: Uuid,
    userId: Uuid,
    createdAt: Timestamp,
    updatedAt: Timestamp,
    status: CartStatus)

  /** PRIMARY KEY (cart_id, product_id) of `cart_items` (db/seed.ts:44). */
  type ItemKey = (Uuid, Uuid)

  /** The value of all three tables, as BEGIN captures it and ROLLBACK restores it. */
  datatype Tables = Tables(
    carts: map<Uuid, CartRecord>,
    cartItems: map<ItemKey, int>,
    orders: map<Uuid, Order>)

  /** The column and table constraints of db/seed.ts:28-61. Status columns are
      limited to their value sets by the types CartStatus and OrderStatus. */
  predicate TablesValid(t: Tables) {
    // carts.id is the primary key
    && (forall id :: id in t.carts ==> t.carts[id].id == id)
    // count INTEGER NOT NULL CHECK (count > 0)
    && (forall k :: k in t.cartItems ==> 0 < t.cartItems[k] <= INT32_MAX)
    // FOREIGN KEY (cart_id) REFERENCES carts(id)
    && (forall k :: k in t.cartItems ==> k.0 in t.carts)
    // orders.id is the primary key; cart_id REFERENCES carts(id); total NUMERIC(10, 2)
    && (forall id :: id in t.orders ==>
          && t.orders[id].id == id
          && t.orders[id].cartId in t.carts
          && FitsNumeric10_2(t.orders[id].total))
  }

  /** The primary keys of the rows of `cart_items` that belong to one cart. */
  function ItemKeysOf(items: map<ItemKey, int>, cartId: Uuid): set<ItemKey> {
    set k | k in items && k.0 == cartId
  }

  /** The `cart_items` table after DELETE FROM carts cascades (db/seed.ts:43):
      the table without exactly the deleted cart's rows, so that cart has no
      rows left and every other cart keeps its own. */
  function WithoutCart(items: map<ItemKey, int>, cartId: Uuid): (r: map<ItemKey, int>)
    ensures r == items - ItemKeysOf(items, cartId)
    ensures ItemKeysOf(r, cartId) == {}
    ensures forall other :: other != cartId ==> ItemKeysOf(r, other) == ItemKeysOf(items, other)
  {
    map k | k in items && k.0 != cartId :: items[k]
  }

  /** Whether any order row references the cart (orders.cart_id, db/seed.ts:52). */
  predicate Referenced(orders: map<Uuid, Order>, cartId: Uuid) {
    exists id :: id in orders && orders[id].cartId == cartId
  }

  predicate IsOpenCartOf(r: CartRecord, userId: Uuid) {
    r.userId == userId && r.status == CartStatus.Open
  }

  /** The ids of the user's OPEN carts. Nothing in the schema bounds its size. */
  function OpenCarts(carts: map<Uuid, CartRecord>, userId: Uuid): set<Uuid> {
    set id | id in carts && IsOpenCartOf(carts[id], userId)
  }

  lemma OpenCartsInsert(carts: map<Uuid, CartRecord>, r: CartRecord, userId: Uuid)
    requires r.id !in carts
    ensures OpenCarts(carts[r.id := r], userId)
      == OpenCarts(carts, userId) + (if IsOpenCartOf(r, userId) then {r.id} else {})
  {
  }

  /** A cart marked ORDERED leaves its user's OPEN carts; no other cart moves. */
  lemma OrderingLeavesOpenCarts(carts: map<Uuid, CartRecord>, id: Uuid, now: Timestamp, userId: Uuid)
    requires id in carts
    ensures OpenCarts(carts[id := carts[id].(status := CartStatus.Ordered, updatedAt := now)], userId)
      == OpenCarts(carts, userId) - {id}
  {
  }

  /** A deleted cart leaves its user's OPEN carts; no other cart moves. */
  lemma DeletingLeavesOpenCarts(carts: map<Uuid, CartRecord>, id: Uuid, userId: Uuid)
    ensures OpenCarts(carts - {id}, userId) == OpenCarts(carts, userId) - {id}
  {
  }

  /** "At most one OPEN cart per user": not a constraint of the schema, only a
      property that the services keep when run one after another. */
  predicate AtMostOneOpenCartPerUser(carts: map<Uuid, CartRecord>) {
    forall a, b ::
      a in carts && b in carts && IsOpenCartOf(carts[a], carts[b].userId) && IsOpenCartOf(carts[b], carts[b].userId)
      ==> a == b
  }

  lemma {:induction false} OpenCartsAtMostOne(carts: map<Uuid, CartRecord>, userId: Uuid, id: Uuid)
    requires AtMostOneOpenCartPerUser(carts)
    requires id in OpenCarts(carts, userId)
    ensures OpenCarts(carts, userId) == {id}
  {
    forall other | other in OpenCarts(carts, userId) ensures other == id {
      assert carts[other].userId == carts[id].userId;
    }
  }

  /** A new OPEN cart keeps the property when its user had none. */
  lemma {:induction false} InsertOpenCartKeepsAtMostOne(carts: map<Uuid, CartRecord>, r: CartRecord)
    requires AtMostOneOpenCartPerUser(carts)
    requires r.id !in carts && OpenCarts(carts, r.userId) == {}
    ensures AtMostOneOpenCartPerUser(carts[r.id := r])
  {
    var next := carts[r.id := r];
    forall a, b | a in next && b in next && IsOpenCartOf(next[a], next[b].userId) && IsOpenCartOf(next[b], next[b].userId)
      ensures a == b
    {
      if a != r.id && b != r.id {
        assert IsOpenCartOf(carts[a], carts[b].userId);
      } else if a != r.id {
        assert a !in OpenCarts(carts, r.userId);
      } else if b != r.id {
        assert b !in OpenCarts(carts, r.userId);
      }
    }
  }

  /** ... and breaks it when the user already had one: the storage does not
      keep the property by itself. */
  lemma SecondOpenCartBreaksAtMostOne(carts: map<Uuid, CartRecord>, r: CartRecord)
    requires r.id !in carts && OpenCarts(carts, r.userId) != {} && r.status == CartStatus.Open
    ensures !AtMostOneOpenCartPerUser(carts[r.id := r])
  {
    var other :| other in OpenCarts(carts, r.userId);
    var next := carts[r.id := r];
    assert IsOpenCartOf(next[other], next[r.id].userId) && IsOpenCartOf(next[r.id], next[r.id].userId);
  }

  /** The database. `nextCartId` stands in for the uuid_generate_v4() default
      of carts.id: every id it hands out is fresh. */
  class Database {
    var carts: map<Uuid, CartRecord>
    var cartItems: map<ItemKey, int>
    var orders: map<Uuid, Order>
    var nextCartId: Uuid

    function Contents(): Tables
      reads this
    {
      Tables(carts, cartItems, orders)
    }

    ghost predicate Valid()
      reads this
    {
      && TablesValid(Contents())
      && (forall id :: id in carts ==> id < nextCartId)
    }

    constructor ()
      ensures Valid()
      ensures carts == map[] && cartItems == map[] && orders == map[]
    {
      carts, cartItems, orders := map[], map[], map[];
      nextCartId := 0;
    }

    /** DEFAULT uuid_generate_v4() for a new cart row. */
    method NewCartId() returns (id: Uuid)
      requires Valid()
      modifies this
      ensures Valid()
      ensures id !in carts && id < nextCartId
      ensures carts == old(carts) && cartItems == old(cartItems) && orders == old(orders)
    {
      id := nextCartId;
      nextCartId := nextCartId + 1;
    }

    /** BEGIN: the state a later ROLLBACK returns to. */
    method Begin() returns (snapshot: Tables)
      requires Valid()
      ensures snapshot == Contents() && TablesValid(snapshot)
    {
      snapshot := Contents();
    }

    /** ROLLBACK to the state captured by `Begin`. */
    method Rollback(snapshot: Tables)
      requires Valid()
      requires TablesValid(snapshot)
      requires forall id :: id in snapshot.carts ==> id < nextCartId
      modifies this
      ensures Valid()
      ensures Contents() == snapshot && nextCartId == old(nextCartId)
    {
      carts, cartItems, orders := snapshot.carts, snapshot.cartItems, snapshot.orders;
    }
  }
}

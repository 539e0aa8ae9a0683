/** src/cart/services/cart.service.ts: the user-facing cart operations, on top
    of the cart repository. The product catalog's reply is an input. */
module CartServices {
  import opened Models
  import opened Schema
  import opened CartRepositories

  // ---------------------------------------------------------------------
  // Joining cart items with catalog products
  // ---------------------------------------------------------------------

  /** The `productMap` that `Map.set` builds from the catalog's reply: a later
      product with the same id replaces an earlier one. */
  function ProductIndex(products: seq<Product>): (m: map<Uuid, Product>)
    ensures forall id :: id in m <==> exists i :: 0 <= i < |products| && products[i].id == id
    ensures forall id :: id in m ==> m[id].id == id
  {
    if products == [] then map[]
    else
      var last := products[|products| - 1];
      var m := ProductIndex(products[..|products| - 1]);
      assert forall i :: 0 <= i < |products| - 1 ==> products[..|products| - 1][i] == products[i];
      m[last.id := last]
  }

  /** Each id maps to the last product in the reply that carries it. */
  lemma {:induction false} ProductIndexLast(products: seq<Product>, i: nat)
    requires i < |products|
    requires forall j :: i < j < |products| ==> products[j].id != products[i].id
    ensures ProductIndex(products)[products[i].id] == products[i]
    decreases |products|
  {
    if i < |products| - 1 {
      var init := products[..|products| - 1];
      assert init[i] == products[i];
      ProductIndexLast(init, i);
    }
  }

  /** The loop of cart.service.ts:139-142. */
  method BuildProductMap(products: seq<Product>) returns (m: map<Uuid, Product>)
    ensures m == ProductIndex(products)
  {
    m := map[];
    for i := 0 to |products|
      invariant m == ProductIndex(products[..i])
    {
      assert products[..i + 1][..i] == products[..i];
      m := m[products[i].id := products[i]];
    }
    assert products[..|products|] == products;
  }

  /** The `cart.items.map(...)` that pairs each item with its product, throwing
      on the first item whose product is missing (cart.service.ts:144-158). */
  function JoinItems(items: seq<CartItem>, index: map<Uuid, Product>): (r: Result<seq<CartItemPopulated>>)
    ensures r.Ok? <==> forall i :: 0 <= i < |items| ==> items[i].productId in index
    ensures r.Ok? ==> |r.value| == |items|
    ensures r.Ok? ==> forall i :: 0 <= i < |items| ==>
      r.value[i] == CartItemPopulated(index[items[i].productId], items[i].count)
    ensures r.Err? ==> exists i ::
      && 0 <= i < |items|
      && items[i].productId !in index
      && r.error == ProductNotFound(items[i].productId)
      && (forall j :: 0 <= j < i ==> items[j].productId in index)
  {
    if items == [] then Ok([])
    else if items[0].productId !in index then Err(ProductNotFound(items[0].productId))
    else
      var rest := JoinItems(items[1..], index);
      assert forall i :: 1 <= i < |items| ==> items[i] == items[1..][i - 1];
      if rest.Err? then
        var k :| 0 <= k < |items| - 1 && items[1..][k].productId !in index
          && rest.error == ProductNotFound(items[1..][k].productId)
          && (forall j :: 0 <= j < k ==> items[1..][j].productId in index);
        assert items[k + 1] == items[1..][k];
        Err(rest.error)
      else
        Ok([CartItemPopulated(index[items[0].productId], items[0].count)] + rest.value)
  }

  function WithItems(cart: Cart, items: seq<CartItemPopulated>): PopulatedCart {
    PopulatedCart(cart.id, cart.userId, cart.createdAt, cart.updatedAt, cart.status, items)
  }

  /** What populating `cart` from the catalog's `response` gives, as
      populateCartWithProductDetails (cart.service.ts:129-161) does it: an
      empty cart never asks the catalog; otherwise the call succeeds exactly
      when the reply has a product for every item, keeps the cart, the item
      order and the counts, and takes each product from the reply; it fails
      on the first item the reply lacks, or when the request failed. When the
      reply repeats an id, the item gets the product `ProductIndex` keeps for
      it, the last one. */
  ghost predicate PopulatedFrom(cart: Cart, response: Option<seq<Product>>, r: Result<PopulatedCart>) {
    && (cart.items == [] ==> r == Ok(WithItems(cart, [])))
    && (cart.items != [] && response.None? ==> r == Err(CatalogUnavailable))
    && (cart.items != [] && response.Some? ==>
          (r.Ok? <==> forall i :: 0 <= i < |cart.items| ==>
             exists j :: 0 <= j < |response.value| && response.value[j].id == cart.items[i].productId))
    && (r.Ok? ==>
          && r.value == WithItems(cart, r.value.items)
          && |r.value.items| == |cart.items|
          && forall i :: 0 <= i < |cart.items| ==>
               && r.value.items[i].count == cart.items[i].count
               && r.value.items[i].product.id == cart.items[i].productId
               && (cart.items != [] ==>
                     && response.Some?
                     && r.value.items[i].product in response.value
                     && cart.items[i].productId in ProductIndex(response.value)
                     && r.value.items[i].product == ProductIndex(response.value)[cart.items[i].productId]))
    && (r.Err? && response.Some? ==> exists i ::
          && 0 <= i < |cart.items|
          && r.error == ProductNotFound(cart.items[i].productId)
          && (forall j :: 0 <= j < |response.value| ==> response.value[j].id != cart.items[i].productId)
          && (forall j :: 0 <= j < i ==> cart.items[j].productId in ProductIndex(response.value)))
  }

  /** populateCartWithProductDetails (cart.service.ts:129-161). `response` is
      what the batch request to the product service returned, None when it
      failed; an empty cart never asks. */
  method PopulateCartWithProductDetails(cart: Cart, response: Option<seq<Product>>) returns (r: Result<PopulatedCart>)
    ensures PopulatedFrom(cart, response, r)
  {
    if cart.items == [] {
      return Ok(WithItems(cart, []));
    }
    if response.None? {
      return Err(CatalogUnavailable);
    }
    var index := BuildProductMap(response.value);
    ProductIndexMembers(response.value);
    var joined := JoinItems(cart.items, index);
    if joined.Err? {
      r := Err(joined.error);
    } else {
      r := Ok(WithItems(cart, joined.value));
    }
  }

  /** A populated item carries the last product of the reply with its id, as
      `productMap.get` after repeated `Map.set` gives. */
  lemma PopulatedTakesLastProduct(cart: Cart, reply: seq<Product>, r: Result<PopulatedCart>, i: nat, k: nat)
    requires PopulatedFrom(cart, Some(reply), r) && r.Ok?
    requires i < |cart.items| && k < |reply| && reply[k].id == cart.items[i].productId
    requires forall j :: k < j < |reply| ==> reply[j].id != reply[k].id
    ensures r.value.items[i].product == reply[k]
  {
    ProductIndexLast(reply, k);
  }

  /** Every product in the index comes from the reply. */
  lemma {:induction false} ProductIndexMembers(products: seq<Product>)
    ensures forall id :: id in ProductIndex(products) ==> ProductIndex(products)[id] in products
  {
    if products != [] {
      var init := products[..|products| - 1];
      ProductIndexMembers(init);
      assert forall p :: p in init ==> p in products;
    }
  }

  /** `cartItems.find(item => item.productId === product.id)`. */
  function FindItem(items: seq<CartItem>, productId: Uuid): (r: Option<CartItem>)
    ensures r.Some? <==> exists i :: 0 <= i < |items| && items[i].productId == productId
    ensures r.Some? ==> exists i ::
      && 0 <= i < |items|
      && items[i] == r.value
      && items[i].productId == productId
      && forall j :: 0 <= j < i ==> items[j].productId != productId
  {
    if items == [] then None
    else if items[0].productId == productId then Some(items[0])
    else
      var rest := FindItem(items[1..], productId);
      assert forall i :: 1 <= i < |items| ==> items[i] == items[1..][i - 1];
      if rest.None? then None
      else
        var k :| 0 <= k < |items| - 1 && items[1..][k] == rest.value && items[1..][k].productId == productId
          && forall j :: 0 <= j < k ==> items[1..][j].productId != productId;
        assert items[k + 1] == items[1..][k];
        rest
  }

  // ---------------------------------------------------------------------
  // The service
  // ---------------------------------------------------------------------

  class CartService {
    const cartRepository: CartRepository

    constructor (cartRepository: CartRepository)
      ensures this.cartRepository == cartRepository
    {
      this.cartRepository := cartRepository;
    }

    ghost predicate Valid()
      reads cartRepository.db
    {
      cartRepository.db.Valid()
    }

    /** findOrCreateByUserId (cart.service.ts:25-39): the user's OPEN cart,
        created when there is none. */
    method FindOrCreateByUserId(userId: Uuid, now: Timestamp) returns (cart: Cart)
      requires Valid()
      modifies cartRepository.db
      ensures Valid()
      ensures cart.id in OpenCarts(cartRepository.db.carts, userId)
      ensures RecordOf(cart) == cartRepository.db.carts[cart.id]
      ensures ListsItemsOf(cart.items, cartRepository.db.cartItems, cart.id)
      ensures |cart.items| == |ItemKeysOf(cartRepository.db.cartItems, cart.id)|
      ensures old(OpenCarts(cartRepository.db.carts, userId)) != {} ==>
        cartRepository.db.carts == old(cartRepository.db.carts)
      ensures old(OpenCarts(cartRepository.db.carts, userId)) == {} ==>
        && cart == Cart(cart.id, userId, now, now, CartStatus.Open, [])
        && cart.id !in old(cartRepository.db.carts)
        && cartRepository.db.carts == old(cartRepository.db.carts)[cart.id := RecordOf(cart)]
      ensures cartRepository.db.cartItems == old(cartRepository.db.cartItems)
      ensures cartRepository.db.orders == old(cartRepository.db.orders)
      ensures old(AtMostOneOpenCartPerUser(cartRepository.db.carts)) ==> AtMostOneOpenCartPerUser(cartRepository.db.carts)
    {
      var found := cartRepository.FindCartByUserId(userId);
      if found.Some? {
        cart := found.value;
      } else {
        ghost var before := cartRepository.db.carts;
        cart := cartRepository.CreateCartByUserId(userId, now);
        assert ItemKeysOf(cartRepository.db.cartItems, cart.id) == {};
        if AtMostOneOpenCartPerUser(before) {
          InsertOpenCartKeepsAtMostOne(before, RecordOf(cart));
        }
      }
    }

    /** findOrCreateByUserIdPopulated (cart.service.ts:41-55): the cart of
        findOrCreateByUserId, populated from the catalog's reply. `cart` is
        that cart before population. */
    method FindOrCreateByUserIdPopulated(userId: Uuid, now: Timestamp, response: Option<seq<Product>>)
      returns (r: Result<PopulatedCart>, ghost cart: Cart)
      requires Valid()
      modifies cartRepository.db
      ensures Valid()
      ensures cart.id in OpenCarts(cartRepository.db.carts, userId)
      ensures RecordOf(cart) == cartRepository.db.carts[cart.id]
      ensures ListsItemsOf(cart.items, cartRepository.db.cartItems, cart.id)
      ensures |cart.items| == |ItemKeysOf(cartRepository.db.cartItems, cart.id)|
      ensures old(OpenCarts(cartRepository.db.carts, userId)) != {} ==>
        cartRepository.db.carts == old(cartRepository.db.carts)
      ensures old(OpenCarts(cartRepository.db.carts, userId)) == {} ==>
        && cart == Cart(cart.id, userId, now, now, CartStatus.Open, [])
        && cart.id !in old(cartRepository.db.carts)
        && cartRepository.db.carts == old(cartRepository.db.carts)[cart.id := RecordOf(cart)]
      ensures PopulatedFrom(cart, response, r)
      ensures r.Ok? ==> |r.value.items| == |ItemKeysOf(cartRepository.db.cartItems, r.value.id)|
      ensures r.Ok? ==> forall i :: 0 <= i < |r.value.items| ==>
        (r.value.id, r.value.items[i].product.id) in cartRepository.db.cartItems
        && cartRepository.db.cartItems[(r.value.id, r.value.items[i].product.id)] == r.value.items[i].count
      ensures cartRepository.db.cartItems == old(cartRepository.db.cartItems)
      ensures cartRepository.db.orders == old(cartRepository.db.orders)
      ensures old(AtMostOneOpenCartPerUser(cartRepository.db.carts)) ==> AtMostOneOpenCartPerUser(cartRepository.db.carts)
    {
      var found := FindOrCreateByUserId(userId, now);
      cart := found;
      r := PopulateCartWithProductDetails(found, response);
    }

    /** updateByUserId (cart.service.ts:57-89): remove the item when the count
        is 0, set it when the item exists, add it otherwise. `cartId` is the
        cart it acted on. A cart created on the way stays when the item write fails. */
    method UpdateByUserId(userId: Uuid, productId: Uuid, count: int, now: Timestamp)
      returns (r: Outcome, ghost cartId: Uuid)
      requires Valid()
      modifies cartRepository.db
      ensures Valid()
      ensures cartId in OpenCarts(cartRepository.db.carts, userId)
      ensures old(OpenCarts(cartRepository.db.carts, userId)) != {} ==>
        cartId in old(OpenCarts(cartRepository.db.carts, userId))
        && cartRepository.db.carts == old(cartRepository.db.carts)
      ensures old(OpenCarts(cartRepository.db.carts, userId)) == {} ==>
        && cartId !in old(cartRepository.db.carts)
        && cartRepository.db.carts == old(cartRepository.db.carts)[cartId := CartRecord(cartId, userId, now, now, CartStatus.Open)]
      ensures (cartId, productId) in old(cartRepository.db.cartItems) && count == 0 ==>
        r == Success && cartRepository.db.cartItems == old(cartRepository.db.cartItems) - {(cartId, productId)}
      ensures (cartId, productId) in old(cartRepository.db.cartItems) && count != 0 ==>
        (r.Success? <==> IsInt32(count) && count > 0)
      ensures (cartId, productId) !in old(cartRepository.db.cartItems) ==>
        (r.Success? <==> IsInt32(count) && count > 0)
      ensures count != 0 ==> cartRepository.db.cartItems == if r.Success?
        then old(cartRepository.db.cartItems)[(cartId, productId) := count]
        else old(cartRepository.db.cartItems)
      ensures r.Success? && count > 0 ==> cartRepository.db.cartItems[(cartId, productId)] == count
      ensures r.Failure? ==> cartRepository.db.cartItems == old(cartRepository.db.cartItems)
      ensures cartRepository.db.orders == old(cartRepository.db.orders)
      ensures old(AtMostOneOpenCartPerUser(cartRepository.db.carts)) ==> AtMostOneOpenCartPerUser(cartRepository.db.carts)
    {
      var cart := FindOrCreateByUserId(userId, now);
      cartId := cart.id;
      var existing := FindItem(cart.items, productId);
      if existing.Some? {
        if count == 0 {
          r := cartRepository.RemoveCartItem(cart.id, productId);
        } else {
          r := cartRepository.UpdateCartItemCount(cart.id, productId, count);
        }
      } else {
        assert (cart.id, productId) !in cartRepository.db.cartItems;
        r := cartRepository.AddCartItem(cart.id, productId, count);
      }
    }

    /** removeByUserId (cart.service.ts:91-107): delete the user's OPEN cart.
        `cartId` is the cart it deleted or tried to delete. */
    method RemoveByUserId(userId: Uuid) returns (r: Outcome, ghost cartId: Uuid)
      requires Valid()
      modifies cartRepository.db
      ensures Valid()
      ensures old(OpenCarts(cartRepository.db.carts, userId)) == {} ==>
        && r == Failure(CartNotFound)
        && cartRepository.db.Contents() == old(cartRepository.db.Contents())
      ensures old(OpenCarts(cartRepository.db.carts, userId)) != {} ==>
        && cartId in old(OpenCarts(cartRepository.db.carts, userId))
        && (r.Success? <==> !Referenced(old(cartRepository.db.orders), cartId))
        && (r.Failure? ==> r.error == ForeignKeyViolation)
      ensures r.Success? ==>
        && cartRepository.db.carts == old(cartRepository.db.carts) - {cartId}
        && cartRepository.db.cartItems == WithoutCart(old(cartRepository.db.cartItems), cartId)
      ensures r.Failure? ==> cartRepository.db.Contents() == old(cartRepository.db.Contents())
      ensures r.Success? ==>
        OpenCarts(cartRepository.db.carts, userId) == old(OpenCarts(cartRepository.db.carts, userId)) - {cartId}
      ensures r.Success? && old(AtMostOneOpenCartPerUser(cartRepository.db.carts)) ==>
        OpenCarts(cartRepository.db.carts, userId) == {}
      ensures cartRepository.db.orders == old(cartRepository.db.orders)
      ensures old(AtMostOneOpenCartPerUser(cartRepository.db.carts)) ==> AtMostOneOpenCartPerUser(cartRepository.db.carts)
    {
      var cart := cartRepository.FindCartByUserId(userId);
      if cart.None? {
        cartId := 0;
        return Failure(CartNotFound), cartId;
      }
      cartId := cart.value.id;
      ghost var before := cartRepository.db.carts;
      r := cartRepository.DeleteCartById(cart.value.id);
      if r.Success? {
        DeletingLeavesOpenCarts(before, cartId, userId);
        if AtMostOneOpenCartPerUser(before) {
          OpenCartsAtMostOne(before, userId, cartId);
        }
      }
    }
  }
}

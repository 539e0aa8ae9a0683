/** src/cart/models-rules/index.ts: the total of a populated cart. Prices are
    integer cents, so the total is exact. */
module CartRules {
  import opened Models

  /** `price * count` of one line. */
  function LineTotal(item: CartItemPopulated): int {
    item.product.price * item.count
  }

  /** `items.reduce((acc, item) => acc + price * count, acc)`. */
  function Reduce(items: seq<CartItemPopulated>, acc: int): int {
    if items == [] then acc else Reduce(items[1..], acc + LineTotal(items[0]))
  }

  /** The sum of price times count over the items: the reference the fold is
      measured against. */
  function LinesSum(items: seq<CartItemPopulated>): int {
    if items == [] then 0 else LineTotal(items[0]) + LinesSum(items[1..])
  }

  /** calculateCartTotal (index.ts:8-17): 0 for an absent cart, otherwise the
      fold from 0. */
  function CalculateCartTotal(cart: Option<PopulatedCart>): (total: int)
    ensures cart.None? ==> total == 0
    ensures cart.Some? && cart.value.items == [] ==> total == 0
  {
    if cart.None? then 0 else Reduce(cart.value.items, 0)
  }

  lemma {:induction false} ReduceIsSum(items: seq<CartItemPopulated>, acc: int)
    ensures Reduce(items, acc) == acc + LinesSum(items)
  {
    if items != [] {
      ReduceIsSum(items[1..], acc + LineTotal(items[0]));
    }
  }

  lemma {:induction false} LinesSumAppend(items: seq<CartItemPopulated>, item: CartItemPopulated)
    ensures LinesSum(items + [item]) == LinesSum(items) + LineTotal(item)
  {
    if items == [] {
      assert items + [item] == [item];
    } else {
      assert (items + [item])[1..] == items[1..] + [item];
      LinesSumAppend(items[1..], item);
    }
  }

  /** The total of a cart is the sum of its lines. */
  lemma CartTotalIsSum(cart: PopulatedCart)
    ensures CalculateCartTotal(Some(cart)) == LinesSum(cart.items)
  {
    ReduceIsSum(cart.items, 0);
  }

  /** Adding a line adds exactly its price times its count. */
  lemma CartTotalAppend(cart: PopulatedCart, item: CartItemPopulated)
    ensures CalculateCartTotal(Some(cart.(items := cart.items + [item])))
         == CalculateCartTotal(Some(cart)) + item.product.price * item.count
  {
    CartTotalIsSum(cart);
    CartTotalIsSum(cart.(items := cart.items + [item]));
    LinesSumAppend(cart.items, item);
  }

  /** With no negative price or count, the total is not negative. */
  lemma {:induction false} LinesSumNonnegative(items: seq<CartItemPopulated>)
    requires forall i :: 0 <= i < |items| ==> items[i].product.price >= 0 && items[i].count >= 0
    ensures LinesSum(items) >= 0
  {
    if items != [] {
      LinesSumNonnegative(items[1..]);
    }
  }

  lemma CartTotalNonnegative(cart: PopulatedCart)
    requires forall i :: 0 <= i < |cart.items| ==> cart.items[i].product.price >= 0 && cart.items[i].count >= 0
    ensures CalculateCartTotal(Some(cart)) >= 0
  {
    CartTotalIsSum(cart);
    LinesSumNonnegative(cart.items);
  }
}

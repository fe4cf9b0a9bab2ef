/**
 * The price formula shared by the cart, the item configurator and the checkout
 * page: a line costs (ramen price + sum of selected topping prices) x quantity,
 * and a cart costs the sum of its lines. Both sums are left folds, as the
 * source's `reduce` calls are.
 */
module Pricing {
  import opened RamenTypes

  /** The prices of the selected toppings added up, from the first to the last. */
  function ToppingsPrice(ts: seq<Topping>): int
  {
    if ts == [] then 0 else ToppingsPrice(ts[..|ts| - 1]) + ts[|ts| - 1].price
  }

  /** The unit price of a configured bowl times its quantity. */
  function LineTotal(item: CartItem): int
  {
    (item.ramen.price + ToppingsPrice(item.selectedToppings)) * item.quantity
  }

  /** The line totals of the cart added up, from the first line to the last. */
  function CartTotal(items: seq<CartItem>): int
  {
    if items == [] then 0 else CartTotal(items[..|items| - 1]) + LineTotal(items[|items| - 1])
  }

  /** Every price and the quantity of a line are non-negative. */
  predicate NonNegativeLine(item: CartItem)
  {
    && item.ramen.price >= 0
    && item.quantity >= 0
    && forall i :: 0 <= i < |item.selectedToppings| ==> item.selectedToppings[i].price >= 0
  }

  /** The total is additive over concatenation of carts. */
  lemma {:induction false} CartTotalAppend(a: seq<CartItem>, b: seq<CartItem>)
    ensures CartTotal(a + b) == CartTotal(a) + CartTotal(b)
  {
    if b == [] {
      assert a + b == a;
    } else {
      var b' := b[..|b| - 1];
      assert (a + b)[..|a + b| - 1] == a + b';
      assert (a + b)[|a + b| - 1] == b[|b| - 1];
      CartTotalAppend(a, b');
    }
  }

  /** Appending one line raises the total by exactly that line's total. */
  lemma CartTotalSnoc(items: seq<CartItem>, x: CartItem)
    ensures CartTotal(items + [x]) == CartTotal(items) + LineTotal(x)
  {
    CartTotalAppend(items, [x]);
    assert CartTotal([x]) == CartTotal([x][..0]) + LineTotal(x);
  }

  /** Taking the first line off lowers the total by exactly that line's total. */
  lemma CartTotalCons(x: CartItem, items: seq<CartItem>)
    ensures CartTotal([x] + items) == LineTotal(x) + CartTotal(items)
  {
    CartTotalAppend([x], items);
    assert CartTotal([x]) == CartTotal([x][..0]) + LineTotal(x);
  }

  lemma {:induction false} ToppingsPriceNonNegative(ts: seq<Topping>)
    requires forall i :: 0 <= i < |ts| ==> ts[i].price >= 0
    ensures ToppingsPrice(ts) >= 0
  {
    if ts != [] {
      ToppingsPriceNonNegative(ts[..|ts| - 1]);
    }
  }

  lemma LineTotalNonNegative(item: CartItem)
    requires NonNegativeLine(item)
    ensures LineTotal(item) >= 0
  {
    ToppingsPriceNonNegative(item.selectedToppings);
    var unit := item.ramen.price + ToppingsPrice(item.selectedToppings);
    assert unit >= 0;
    assert unit * item.quantity >= 0;
  }

  /** A cart whose prices and quantities are non-negative has a non-negative total. */
  lemma {:induction false} CartTotalNonNegative(items: seq<CartItem>)
    requires forall i :: 0 <= i < |items| ==> NonNegativeLine(items[i])
    ensures CartTotal(items) >= 0
    ensures items == [] ==> CartTotal(items) == 0
  {
    if items != [] {
      CartTotalNonNegative(items[..|items| - 1]);
      LineTotalNonNegative(items[|items| - 1]);
    }
  }
}

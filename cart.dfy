/** The cart provider (src/context/CartContext.tsx): line items and placed orders, held in memory. */
module Cart {
  import opened RamenTypes
  import opened Pricing

  /**
   * The position filter of `removeFromCart`: every element except the one at
   * position `index` (of which there is none when `index` is out of range).
   */
  function WithoutIndex<T>(s: seq<T>, index: int): seq<T>
  {
    if s == [] then []
    else (if index == 0 then [] else [s[0]]) + WithoutIndex(s[1..], index - 1)
  }

  /** Removing by position: exactly entry `index` goes, anything out of range is ignored. */
  lemma {:induction false} WithoutIndexRemovesEntry<T>(s: seq<T>, index: int)
    ensures 0 <= index < |s| ==> WithoutIndex(s, index) == s[..index] + s[index + 1..]
    ensures !(0 <= index < |s|) ==> WithoutIndex(s, index) == s
  {
    if s != [] {
      WithoutIndexRemovesEntry(s[1..], index - 1);
      if index == 0 {
        assert s[..0] + s[1..] == s[1..];
        if 0 < |s[1..]| {
          assert WithoutIndex(s[1..], -1) == s[1..];
        }
        assert WithoutIndex(s[1..], -1) == s[1..];
      } else if 0 < index < |s| {
        assert [s[0]] + s[1..][..index - 1] == s[..index];
        assert s[1..][index..] == s[index + 1..];
      } else {
        assert [s[0]] + s[1..] == s;
      }
    }
  }

  class CartLedger {
    var cartItems: seq<CartItem>
    var orders: seq<Order>

    /** Both lists start empty; nothing is restored from storage. */
    constructor ()
      ensures cartItems == [] && orders == []
    {
      cartItems := [];
      orders := [];
    }

    /** The cart total the pages show: the sum of the line totals. */
    function TotalPrice(): int
      reads this
    {
      CartTotal(cartItems)
    }

    /** Appends the line at the end, without merging it into an identical earlier line. */
    method AddToCart(item: CartItem)
      modifies this
      ensures cartItems == old(cartItems) + [item]
      ensures orders == old(orders)
      ensures TotalPrice() == old(TotalPrice()) + LineTotal(item)
    {
      CartTotalSnoc(cartItems, item);
      cartItems := cartItems + [item];
    }

    /** Drops the line at `index`; an index out of range is silently ignored. */
    method RemoveFromCart(index: int)
      modifies this
      ensures cartItems == WithoutIndex(old(cartItems), index)
      ensures 0 <= index < |old(cartItems)| ==>
        && cartItems == old(cartItems)[..index] + old(cartItems)[index + 1..]
        && TotalPrice() == old(TotalPrice()) - LineTotal(old(cartItems)[index])
      ensures !(0 <= index < |old(cartItems)|) ==> cartItems == old(cartItems)
      ensures orders == old(orders)
    {
      WithoutIndexRemovesEntry(cartItems, index);
      if 0 <= index < |cartItems| {
        var s := cartItems;
        assert s == s[..index] + [s[index]] + s[index + 1..];
        CartTotalAppend(s[..index] + [s[index]], s[index + 1..]);
        CartTotalSnoc(s[..index], s[index]);
        CartTotalAppend(s[..index], s[index + 1..]);
      }
      cartItems := WithoutIndex(cartItems, index);
    }

    method ClearCart()
      modifies this
      ensures cartItems == [] && TotalPrice() == 0
      ensures orders == old(orders)
    {
      cartItems := [];
    }

    /** Puts the new order first; the earlier orders follow in their old order. */
    method AddOrder(order: Order)
      modifies this
      ensures orders == [order] + old(orders)
      ensures orders[0] == order && orders[1..] == old(orders)
      ensures cartItems == old(cartItems)
    {
      orders := [order] + orders;
    }
  }

  /** Adding one line to an empty cart and removing entry 0 leaves a cart that costs nothing. */
  method AddThenRemove(item: CartItem) returns (total: int)
    ensures total == 0
  {
    var cart := new CartLedger();
    cart.AddToCart(item);
    cart.RemoveFromCart(0);
    total := cart.TotalPrice();
  }
}

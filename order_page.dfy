/**
 * The item configurator (src/pages/Order.tsx): quantity, spice level,
 * toppings and notes for one menu entry, and the step that puts the
 * configured bowl into the cart.
 */
module OrderPage {
  import opened RamenTypes
  import opened Seqs
  import opened Pricing
  import opened Cart
  import opened Auth

  /** Some topping in `ts` has this id, so the page's lookup by id finds one. */
  predicate Selected(ts: seq<Topping>, id: string)
  {
    exists i :: 0 <= i < |ts| && ts[i].id == id
  }

  /** No two selected toppings share an id. */
  ghost predicate DistinctIds(ts: seq<Topping>)
  {
    forall i, j :: 0 <= i < j < |ts| ==> ts[i].id != ts[j].id
  }

  /** Keeps the toppings whose id differs from `id`. */
  function OtherId(id: string): Topping -> bool
  {
    (t: Topping) => t.id != id
  }

  /** The updater of `handleToppingToggle`: drop every topping with the id if one is selected, else append it. */
  function Toggled(prev: seq<Topping>, topping: Topping): seq<Topping>
  {
    if Selected(prev, topping.id) then Filter(prev, OtherId(topping.id)) else prev + [topping]
  }

  /**
   * Toggling flips whether the topping's id is selected, leaves every other
   * id's selection as it was, keeps the other toppings in their order, and
   * keeps the selection free of repeated ids.
   */
  lemma ToggleFlips(prev: seq<Topping>, topping: Topping)
    ensures Selected(Toggled(prev, topping), topping.id) <==> !Selected(prev, topping.id)
    ensures forall id :: id != topping.id ==>
      (Selected(Toggled(prev, topping), id) <==> Selected(prev, id))
    ensures Filter(Toggled(prev, topping), OtherId(topping.id)) == Filter(prev, OtherId(topping.id))
    ensures DistinctIds(prev) ==> DistinctIds(Toggled(prev, topping))
  {
    if Selected(prev, topping.id) {
      ToggleRemoves(prev, topping);
    } else {
      ToggleAppends(prev, topping);
    }
  }

  /** Toggling a selected topping removes its id and only its id. */
  lemma ToggleRemoves(prev: seq<Topping>, topping: Topping)
    requires Selected(prev, topping.id)
    ensures !Selected(Toggled(prev, topping), topping.id)
    ensures forall id :: id != topping.id ==>
      (Selected(Toggled(prev, topping), id) <==> Selected(prev, id))
    ensures Filter(Toggled(prev, topping), OtherId(topping.id)) == Filter(prev, OtherId(topping.id))
    ensures DistinctIds(prev) ==> DistinctIds(Toggled(prev, topping))
  {
    var keep := OtherId(topping.id);
    var f := Filter(prev, keep);
    assert Toggled(prev, topping) == f;
    SelectedAfterRemoval(prev, topping.id, topping.id);
    forall id | id != topping.id
      ensures Selected(f, id) <==> Selected(prev, id)
    {
      SelectedAfterRemoval(prev, topping.id, id);
    }
    assert forall i :: 0 <= i < |f| ==> f[i] in f;
    FilterKeepsAll(f, keep);
    if DistinctIds(prev) {
      FilterSubsequenceDistinct(prev, keep);
    }
  }

  /** Toggling an unselected topping selects it and nothing else. */
  lemma ToggleAppends(prev: seq<Topping>, topping: Topping)
    requires !Selected(prev, topping.id)
    ensures Selected(Toggled(prev, topping), topping.id)
    ensures forall id :: id != topping.id ==>
      (Selected(Toggled(prev, topping), id) <==> Selected(prev, id))
    ensures Filter(Toggled(prev, topping), OtherId(topping.id)) == Filter(prev, OtherId(topping.id))
    ensures DistinctIds(prev) ==> DistinctIds(Toggled(prev, topping))
  {
    var keep := OtherId(topping.id);
    var r := prev + [topping];
    assert Toggled(prev, topping) == r;
    FilterAppend(prev, [topping], keep);
    assert Filter([topping], keep) == [];
    assert r[|prev|] == topping;
    forall id | id != topping.id
      ensures Selected(r, id) <==> Selected(prev, id)
    {
      SelectedAppend(prev, [topping], id);
    }
    if DistinctIds(prev) {
      forall i, j | 0 <= i < j < |r| ensures r[i].id != r[j].id {
        if j == |prev| {
          assert r[i] == prev[i];
        } else {
          assert r[i] == prev[i] && r[j] == prev[j];
        }
      }
    }
  }

  lemma SelectedAppend(a: seq<Topping>, b: seq<Topping>, id: string)
    ensures Selected(a + b, id) <==> Selected(a, id) || Selected(b, id)
  {
    if Selected(a + b, id) {
      var i :| 0 <= i < |a + b| && (a + b)[i].id == id;
      if i >= |a| {
        assert b[i - |a|] == (a + b)[i];
      }
    }
    if Selected(b, id) {
      var i :| 0 <= i < |b| && b[i].id == id;
      assert (a + b)[i + |a|] == b[i];
    }
    if Selected(a, id) {
      var i :| 0 <= i < |a| && a[i].id == id;
      assert (a + b)[i] == a[i];
    }
  }

  /** After dropping the toppings with id `x`, an id is selected exactly when it was selected and is not `x`. */
  lemma {:induction false} SelectedAfterRemoval(ts: seq<Topping>, x: string, id: string)
    ensures Selected(Filter(ts, OtherId(x)), id) <==> id != x && Selected(ts, id)
  {
    if ts == [] {
    } else {
      var head := if OtherId(x)(ts[0]) then [ts[0]] else [];
      SelectedAfterRemoval(ts[1..], x, id);
      SelectedAppend(head, Filter(ts[1..], OtherId(x)), id);
      SelectedAppend([ts[0]], ts[1..], id);
      assert [ts[0]] + ts[1..] == ts;
      assert Selected([ts[0]], id) <==> ts[0].id == id by {
        if Selected([ts[0]], id) {
          var i :| 0 <= i < 1 && [ts[0]][i].id == id;
        }
        if ts[0].id == id {
          assert [ts[0]][0].id == id;
        }
      }
      if !OtherId(x)(ts[0]) {
        assert !Selected(head, id);
      }
    }
  }

  /** Filtering a selection with distinct ids keeps its ids distinct. */
  lemma {:induction false} FilterSubsequenceDistinct(ts: seq<Topping>, keep: Topping -> bool)
    requires DistinctIds(ts)
    ensures DistinctIds(Filter(ts, keep))
  {
    if ts != [] {
      FilterSubsequenceDistinct(ts[1..], keep);
      var rest := Filter(ts[1..], keep);
      if keep(ts[0]) {
        var r := [ts[0]] + rest;
        forall i, j | 0 <= i < j < |r| ensures r[i].id != r[j].id {
          if i == 0 {
            assert r[j] in rest;
            assert r[j] in ts[1..];
            var k :| 0 <= k < |ts[1..]| && ts[1..][k] == r[j];
            assert ts[k + 1] == r[j];
          } else {
            assert r[i] == rest[i - 1] && r[j] == rest[j - 1];
          }
        }
      }
    }
  }

  /** Toggling a topping that is not selected and then toggling it again restores the selection exactly. */
  lemma ToggleTwiceRestores(prev: seq<Topping>, topping: Topping)
    requires !Selected(prev, topping.id)
    ensures Toggled(Toggled(prev, topping), topping) == prev
  {
    var keep := OtherId(topping.id);
    var r := prev + [topping];
    assert r[|prev|] == topping;
    assert Selected(r, topping.id);
    FilterAppend(prev, [topping], keep);
    assert Filter([topping], keep) == [];
    FilterKeepsAll(prev, keep);
  }

  /**
   * Toggling a selected topping twice keeps the same toppings but moves it to
   * the end of the selection: the selection is restored as a set, not in order.
   */
  lemma ToggleTwiceMovesToEnd(prev: seq<Topping>, topping: Topping)
    requires Selected(prev, topping.id)
    ensures Toggled(Toggled(prev, topping), topping) == Filter(prev, OtherId(topping.id)) + [topping]
  {
    ToggleFlips(prev, topping);
  }

  /**
   * A cart line the configurator can build: at least one bowl, only toppings
   * the entry offers and none twice, and one of the entry's own spice levels
   * whenever it offers any.
   */
  ghost predicate WellFormedLine(item: CartItem)
  {
    && item.quantity >= 1
    && DistinctIds(item.selectedToppings)
    && (forall t :: t in item.selectedToppings ==> t in item.ramen.toppings)
    && (|item.ramen.spiceLevels| > 0 ==> item.spiceLevel in item.ramen.spiceLevels)
  }

  class ItemConfigurator {
    const ramen: RamenItem
    var quantity: int
    var spiceLevel: string
    var selectedToppings: seq<Topping>
    var specialNotes: string

    /** The current configuration is always a well-formed line for this entry. */
    ghost predicate Valid()
      reads this
    {
      WellFormedLine(CurrentItem())
    }

    /**
     * The page's initial state, after the effect that picks the first spice
     * level when the entry offers any.
     */
    constructor (ramen: RamenItem)
      ensures Valid()
      ensures this.ramen == ramen
      ensures quantity == 1 && selectedToppings == [] && specialNotes == ""
      ensures |ramen.spiceLevels| > 0 ==> spiceLevel == ramen.spiceLevels[0]
      ensures |ramen.spiceLevels| == 0 ==> spiceLevel == ""
    {
      this.ramen := ramen;
      quantity := 1;
      spiceLevel := if |ramen.spiceLevels| > 0 then ramen.spiceLevels[0] else "";
      selectedToppings := [];
      specialNotes := "";
    }

    /** `calculateTotal`: the price this configuration will have as a cart line. */
    function CalculateTotal(): (total: int)
      reads this
      ensures total == LineTotal(CurrentItem())
    {
      (ramen.price + ToppingsPrice(selectedToppings)) * quantity
    }

    /** The cart line `handleAddToCart` builds from the current state. */
    function CurrentItem(): CartItem
      reads this
    {
      CartItem(ramen, quantity, spiceLevel, selectedToppings, specialNotes)
    }

    /** The topping cards offer only the entry's own toppings. */
    method ToggleTopping(topping: Topping)
      requires Valid() && topping in ramen.toppings
      modifies this
      ensures Valid()
      ensures selectedToppings == Toggled(old(selectedToppings), topping)
      ensures quantity == old(quantity) && spiceLevel == old(spiceLevel) && specialNotes == old(specialNotes)
    {
      ToggleFlips(selectedToppings, topping);
      selectedToppings := Toggled(selectedToppings, topping);
    }

    /** The minus button: one less, but never below one. */
    method Decrement()
      requires Valid()
      modifies this
      ensures Valid()
      ensures quantity == if old(quantity) - 1 > 1 then old(quantity) - 1 else 1
      ensures selectedToppings == old(selectedToppings) && spiceLevel == old(spiceLevel)
      ensures specialNotes == old(specialNotes)
    {
      quantity := if quantity - 1 > 1 then quantity - 1 else 1;
    }

    /** The plus button. */
    method Increment()
      requires Valid()
      modifies this
      ensures Valid()
      ensures quantity == old(quantity) + 1
      ensures selectedToppings == old(selectedToppings) && spiceLevel == old(spiceLevel)
      ensures specialNotes == old(specialNotes)
    {
      quantity := quantity + 1;
    }

    /** The spice-level buttons offer only the entry's own levels. */
    method SetSpiceLevel(level: string)
      requires Valid() && level in ramen.spiceLevels
      modifies this
      ensures Valid()
      ensures spiceLevel == level
      ensures quantity == old(quantity) && selectedToppings == old(selectedToppings)
      ensures specialNotes == old(specialNotes)
    {
      spiceLevel := level;
    }

    method SetSpecialNotes(notes: string)
      requires Valid()
      modifies this
      ensures Valid()
      ensures specialNotes == notes
      ensures quantity == old(quantity) && selectedToppings == old(selectedToppings)
      ensures spiceLevel == old(spiceLevel)
    {
      specialNotes := notes;
    }

    /**
     * `handleAddToCart`: without a session the cart is left alone (the page
     * navigates to sign-in); with one, exactly one line carrying the current
     * configuration is appended.
     */
    method AddToCart(auth: AuthProvider, cart: CartLedger)
      requires Valid()
      modifies cart
      ensures !auth.IsAuthenticated() ==> cart.cartItems == old(cart.cartItems)
      ensures auth.IsAuthenticated() ==> cart.cartItems == old(cart.cartItems) + [CurrentItem()]
      ensures auth.IsAuthenticated() ==> cart.TotalPrice() == old(cart.TotalPrice()) + CalculateTotal()
      ensures auth.IsAuthenticated() ==> WellFormedLine(cart.cartItems[|cart.cartItems| - 1])
      ensures cart.orders == old(cart.orders)
    {
      if !auth.IsAuthenticated() {
        return;
      }
      cart.AddToCart(CurrentItem());
    }
  }
}

/**
 * The checkout page (src/pages/Payment.tsx): the payment-method choice, the
 * per-line totals it displays, and the step that turns the cart into an order.
 */
module Payment {
  import opened RamenTypes
  import opened Pricing
  import opened Cart
  import opened Seqs

  datatype PaymentMethod = PaymentMethod(id: string, name: string, description: string)

  /** The three methods the page offers, in display order. */
  const PaymentMethods: seq<PaymentMethod> := [
    PaymentMethod("bank", "Transfer Bank", "BCA, Mandiri, BNI, BRI"),
    PaymentMethod("ewallet", "E-Wallet", "GoPay, OVO, Dana, ShopeePay"),
    PaymentMethod("cod", "Bayar di Tempat", "Bayar saat pesanan tiba")
  ]

  /**
   * The label lookup: the name of the first method with this id, or the
   * empty string when there is none.
   */
  function FindName(methods: seq<PaymentMethod>, id: string): (name: string)
    ensures (forall i :: 0 <= i < |methods| ==> methods[i].id != id) ==> name == ""
    ensures forall i :: 0 <= i < |methods| && methods[i].id == id ==>
      (forall j :: 0 <= j < i ==> methods[j].id != id) ==> name == methods[i].name
  {
    if methods == [] then ""
    else if methods[0].id == id then methods[0].name
    else FindName(methods[1..], id)
  }

  /** The label stored in the order's `paymentMethod`. */
  function PaymentLabel(selected: string): string
  {
    FindName(PaymentMethods, selected)
  }

  /** Each offered id maps to its method's name; every other id to the empty string. */
  lemma PaymentLabels(selected: string)
    ensures selected == "bank" ==> PaymentLabel(selected) == "Transfer Bank"
    ensures selected == "ewallet" ==> PaymentLabel(selected) == "E-Wallet"
    ensures selected == "cod" ==> PaymentLabel(selected) == "Bayar di Tempat"
    ensures selected != "bank" && selected != "ewallet" && selected != "cod" ==> PaymentLabel(selected) == ""
  {
  }

  /** The per-line totals the page displays, one for each cart line, in cart order. */
  function ItemTotals(items: seq<CartItem>): (totals: seq<int>)
    ensures |totals| == |items|
    ensures forall i :: 0 <= i < |items| ==> totals[i] == LineTotal(items[i])
  {
    if items == [] then [] else [LineTotal(items[0])] + ItemTotals(items[1..])
  }

  /** The displayed line totals add up to the displayed subtotal. */
  lemma {:induction false} DisplayedTotalsAddUp(items: seq<CartItem>)
    ensures Sum(ItemTotals(items)) == CartTotal(items)
  {
    if items != [] {
      DisplayedTotalsAddUp(items[1..]);
      SumCons(LineTotal(items[0]), ItemTotals(items[1..]));
      CartTotalCons(items[0], items[1..]);
      assert [items[0]] + items[1..] == items;
    }
  }

  class PaymentPage {
    var selectedPayment: string
    var isProcessing: bool

    constructor ()
      ensures selectedPayment == "" && !isProcessing
    {
      selectedPayment := "";
      isProcessing := false;
    }

    /** Clicking a method card selects it. */
    method SelectPayment(id: string)
      modifies this
      ensures selectedPayment == id && isProcessing == old(isProcessing)
    {
      selectedPayment := id;
    }

    /**
     * `handlePayment`: with no method selected nothing happens. Otherwise the
     * cart is snapshot into an order whose total is fixed at the cart's
     * current total and whose status is `processing`; the order goes first in
     * the order list and the cart is emptied. `orderId` and `now` stand for
     * the random id and the clock.
     */
    method HandlePayment(cart: CartLedger, orderId: string, now: int) returns (placed: Option<Order>)
      modifies this, cart
      ensures old(selectedPayment) == "" ==>
        && placed == None
        && cart.cartItems == old(cart.cartItems) && cart.orders == old(cart.orders)
        && isProcessing == old(isProcessing)
      ensures old(selectedPayment) != "" ==>
        && placed.Some?
        && placed.value.id == orderId
        && placed.value.items == old(cart.cartItems)
        && placed.value.totalPrice == old(cart.TotalPrice())
        && placed.value.paymentMethod == PaymentLabel(old(selectedPayment))
        && placed.value.status == Processing
        && placed.value.createdAt == now
        && placed.value.userId == None && placed.value.userName == None
        && cart.orders == [placed.value] + old(cart.orders)
        && cart.cartItems == [] && cart.TotalPrice() == 0
        && isProcessing
      ensures selectedPayment == old(selectedPayment)
    {
      if selectedPayment == "" {
        return None;
      }
      isProcessing := true;
      var order := Order(orderId, None, None, cart.cartItems, cart.TotalPrice(),
                         PaymentLabel(selectedPayment), Processing, now);
      cart.AddOrder(order);
      cart.ClearCart();
      return Some(order);
    }

    /**
     * The pay button: it is disabled while a payment is being processed and
     * while no method is selected; otherwise it runs `HandlePayment`.
     */
    method PressPay(cart: CartLedger, orderId: string, now: int) returns (placed: Option<Order>)
      modifies this, cart
      ensures old(isProcessing) || old(selectedPayment) == "" ==>
        && placed == None
        && cart.cartItems == old(cart.cartItems) && cart.orders == old(cart.orders)
        && isProcessing == old(isProcessing)
      ensures !old(isProcessing) && old(selectedPayment) != "" ==>
        && placed.Some?
        && placed.value.id == orderId
        && placed.value.items == old(cart.cartItems)
        && placed.value.totalPrice == old(cart.TotalPrice())
        && placed.value.paymentMethod == PaymentLabel(old(selectedPayment))
        && placed.value.status == Processing
        && placed.value.createdAt == now
        && placed.value.userId == None && placed.value.userName == None
        && cart.orders == [placed.value] + old(cart.orders)
        && cart.cartItems == [] && cart.TotalPrice() == 0
        && isProcessing
      ensures selectedPayment == old(selectedPayment)
    {
      if isProcessing || selectedPayment == "" {
        return None;
      }
      placed := HandlePayment(cart, orderId, now);
    }
  }
}

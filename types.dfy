/** The records of the storefront (src/types/ramen.ts). Prices are whole Rupiah amounts. */
module RamenTypes {

  datatype Option<T> = None | Some(value: T)

  datatype Topping = Topping(id: string, name: string, price: int)

  datatype RamenItem = RamenItem(
    id: string,
    name: string,
    description: string,
    price: int,
    image: string,
    category: string,
    spiceLevels: seq<string>,
    toppings: seq<Topping>)

  /** One line of the cart: a configured bowl. */
  datatype CartItem = CartItem(
    ramen: RamenItem,
    quantity: int,
    spiceLevel: string,
    selectedToppings: seq<Topping>,
    specialNotes: string)

  /** The five order statuses, in the order the admin board advances them. */
  datatype Status = Pending | Confirmed | Processing | Completed | Delivered

  /** The string each status is stored and filtered under. */
  function StatusName(s: Status): string
  {
    match s
    case Pending => "pending"
    case Confirmed => "confirmed"
    case Processing => "processing"
    case Completed => "completed"
    case Delivered => "delivered"
  }

  /**
   * A placed order. The owner fields are optional because the checkout page
   * builds orders without them; `createdAt` is a timestamp.
   */
  datatype Order = Order(
    id: string,
    userId: Option<string>,
    userName: Option<string>,
    items: seq<CartItem>,
    totalPrice: int,
    paymentMethod: string,
    status: Status,
    createdAt: int)

  datatype Role = UserRole | AdminRole

  /** The session record. The mocked login never fills in `role`. */
  datatype User = User(id: string, name: string, email: string, role: Option<Role>)
}

/** The two localStorage keys the storefront uses: "turbokart-cart", the JSON of
    the whole cart state, and "pendingOrder", the snapshot written before the
    hosted payment page. Serialisation is abstracted: a key holds either
    nothing, text that does not parse into the expected shape, or the value. */
module Browser {
  import opened Cart

  datatype CustomerInfo = CustomerInfo(
    firstName: string, lastName: string, email: string, address: string,
    city: string, state: string, zip: string)

  /** The pending-order snapshot; an empty `chargeId` stands for a missing one. */
  datatype PendingOrder = PendingOrder(
    orderNumber: string, chargeId: string, customerInfo: CustomerInfo,
    items: seq<CartItem>, total: int)

  datatype CartSlot = NoCart | UnreadableCart | SavedCart(snapshot: CartState)

  datatype PendingSlot = NoPending | UnreadablePending | SavedPending(order: PendingOrder)

  class LocalStorage {
    var cart: CartSlot
    var pendingOrder: PendingSlot

    constructor (cart: CartSlot, pendingOrder: PendingSlot)
      ensures this.cart == cart && this.pendingOrder == pendingOrder
    {
      this.cart := cart;
      this.pendingOrder := pendingOrder;
    }
  }
}

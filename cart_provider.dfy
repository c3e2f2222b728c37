/** `CartProvider`: the cart state held by the React reducer, written to
    localStorage after every change, and rehydrated on mount by dispatching
    one ADD_ITEM per stored line. */
module CartProvider {
  import opened Cart
  import opened Browser

  class Provider {
    var state: CartState
    const storage: LocalStorage

    constructor (storage: LocalStorage)
      ensures state == Initial && this.storage == storage
    {
      state := Initial;
      this.storage := storage;
    }

    /** `dispatch(action)` followed by the persisting effect. */
    method Dispatch(a: Action)
      modifies this, storage
      ensures state == Reduce(old(state), a)
      ensures storage.cart == SavedCart(state)
      ensures storage.pendingOrder == old(storage.pendingOrder)
    {
      state := Reduce(state, a);
      storage.cart := SavedCart(state);
    }

    /** The mount effects: replay the saved lines through ADD_ITEM (text that
        does not parse, or has no `items` list, is skipped), then persist. */
    method Mount()
      modifies this, storage
      ensures state == if old(storage.cart).SavedCart?
                       then Replay(old(state), old(storage.cart).snapshot.items)
                       else old(state)
      ensures storage.cart == SavedCart(state)
      ensures storage.pendingOrder == old(storage.pendingOrder)
    {
      if storage.cart.SavedCart? {
        var stored := storage.cart.snapshot.items;
        var i := 0;
        while i < |stored|
          invariant 0 <= i <= |stored|
          invariant state == Replay(old(state), stored[..i])
          invariant storage.pendingOrder == old(storage.pendingOrder)
        {
          assert stored[..i + 1][..i] == stored[..i];
          Dispatch(AddItem(Details(stored[i])));
          i := i + 1;
        }
        assert stored[..i] == stored;
      }
      storage.cart := SavedCart(state);
    }

    /** The mount effect as intended: the saved cart comes back with its
        quantities, then is persisted again. */
    method MountRestoring()
      modifies this, storage
      ensures old(storage.cart).SavedCart? ==>
        state == Restore(old(storage.cart).snapshot.items)
      ensures old(storage.cart).SavedCart? && Consistent(old(storage.cart).snapshot) ==>
        state == old(storage.cart).snapshot.(isOpen := false)
      ensures !old(storage.cart).SavedCart? ==> state == old(state)
      ensures storage.cart == SavedCart(state)
      ensures storage.pendingOrder == old(storage.pendingOrder)
    {
      if storage.cart.SavedCart? {
        if Consistent(storage.cart.snapshot) {
          RestoreRoundTrip(storage.cart.snapshot);
        }
        state := Restore(storage.cart.snapshot.items);
      }
      storage.cart := SavedCart(state);
    }
  }
}

/** The cart store: the reducer over the closed action set of the storefront
    cart, the derived `total` and `itemCount`, and the replay of ADD_ITEM used
    to rehydrate a stored cart. Prices are whole dollars. */
module Cart {
  import opened Common

  datatype AddOn = AddOn(name: string, price: int)

  /** What a caller hands to ADD_ITEM: a cart line without its quantity. */
  datatype ItemDetails = ItemDetails(
    id: string, name: string, price: int, originalPrice: int, image: string,
    color: string, tires: string, addOns: seq<AddOn>)

  datatype CartItem = CartItem(
    id: string, name: string, price: int, originalPrice: int, image: string,
    color: string, tires: string, addOns: seq<AddOn>, quantity: int)

  datatype CartState = CartState(items: seq<CartItem>, total: int, itemCount: int, isOpen: bool)

  datatype Action =
    | AddItem(details: ItemDetails)
    | RemoveItem(id: string)
    | UpdateQuantity(id: string, quantity: int)
    | ClearCart
    | ToggleCart
    | OpenCart
    | CloseCart

  const Initial := CartState([], 0, 0, false)

  /** `{ ...details, quantity: q }` */
  function WithQuantity(d: ItemDetails, q: int): CartItem {
    CartItem(d.id, d.name, d.price, d.originalPrice, d.image, d.color, d.tires, d.addOns, q)
  }

  /** `{ ...item, quantity: undefined }`: the line stripped of its quantity. */
  function Details(item: CartItem): ItemDetails {
    ItemDetails(item.id, item.name, item.price, item.originalPrice, item.image,
                item.color, item.tires, item.addOns)
  }

  // ---------------------------------------------------------------------------
  // Derived fields

  function AddOnTotal(addOns: seq<AddOn>): int {
    if addOns == [] then 0 else addOns[0].price + AddOnTotal(addOns[1..])
  }

  /** Price of one unit of a line: the base price plus every add-on. */
  function UnitPrice(item: CartItem): int {
    item.price + AddOnTotal(item.addOns)
  }

  function LineTotal(item: CartItem): int {
    UnitPrice(item) * item.quantity
  }

  function Total(items: seq<CartItem>): int {
    if items == [] then 0 else LineTotal(items[0]) + Total(items[1..])
  }

  function ItemCount(items: seq<CartItem>): int {
    if items == [] then 0 else items[0].quantity + ItemCount(items[1..])
  }

  /** The stored totals agree with a recomputation from the lines. */
  predicate Consistent(s: CartState) {
    s.total == Total(s.items) && s.itemCount == ItemCount(s.items)
  }

  predicate HasId(items: seq<CartItem>, id: string) {
    exists i :: 0 <= i < |items| && items[i].id == id
  }

  predicate UniqueIds(items: seq<CartItem>) {
    forall i, j :: 0 <= i < j < |items| ==> items[i].id != items[j].id
  }

  /** The cart invariant: one line per id, and every line holds at least one unit. */
  predicate WellFormed(items: seq<CartItem>) {
    UniqueIds(items) && forall i :: 0 <= i < |items| ==> items[i].quantity >= 1
  }

  // ---------------------------------------------------------------------------
  // The list updates behind each action

  /** The `map` of ADD_ITEM on an id already present. */
  function Increment(items: seq<CartItem>, id: string): (r: seq<CartItem>)
    ensures |r| == |items|
    ensures forall j :: 0 <= j < |items| ==>
      r[j] == if items[j].id == id then items[j].(quantity := items[j].quantity + 1) else items[j]
  {
    if items == [] then []
    else
      [if items[0].id == id then items[0].(quantity := items[0].quantity + 1) else items[0]]
      + Increment(items[1..], id)
  }

  function AddLine(items: seq<CartItem>, d: ItemDetails): seq<CartItem> {
    if HasId(items, d.id) then Increment(items, d.id) else items + [WithQuantity(d, 1)]
  }

  /** The `filter` of REMOVE_ITEM. */
  function RemoveLines(items: seq<CartItem>, id: string): (r: seq<CartItem>)
    ensures forall x :: x in r ==> x in items
    ensures |r| <= |items|
  {
    if items == [] then []
    else if items[0].id != id then [items[0]] + RemoveLines(items[1..], id)
    else RemoveLines(items[1..], id)
  }

  /** Removal treats each line on its own and keeps the survivors in their
      order: filtering a concatenation concatenates the filtered parts. */
  lemma {:induction false} RemoveLinesAppend(a: seq<CartItem>, b: seq<CartItem>, id: string)
    ensures RemoveLines(a + b, id) == RemoveLines(a, id) + RemoveLines(b, id)
  {
    if a == [] {
      assert a + b == b;
    } else {
      assert (a + b)[1..] == a[1..] + b;
      RemoveLinesAppend(a[1..], b, id);
    }
  }

  function Clamp(q: int): int { if q < 0 then 0 else q }

  /** The `map` of UPDATE_QUANTITY: `Math.max(0, q)` on the lines with that id. */
  function SetQuantity(items: seq<CartItem>, id: string, q: int): (r: seq<CartItem>)
    ensures |r| == |items|
    ensures forall j :: 0 <= j < |items| ==>
      r[j] == if items[j].id == id then items[j].(quantity := Clamp(q)) else items[j]
  {
    if items == [] then []
    else
      [if items[0].id == id then items[0].(quantity := Clamp(q)) else items[0]]
      + SetQuantity(items[1..], id, q)
  }

  /** The `filter` of UPDATE_QUANTITY: lines with no units left disappear. */
  function DropEmpty(items: seq<CartItem>): (r: seq<CartItem>)
    ensures forall x :: x in r ==> x in items
    ensures |r| <= |items|
  {
    if items == [] then []
    else if items[0].quantity > 0 then [items[0]] + DropEmpty(items[1..])
    else DropEmpty(items[1..])
  }

  /** The filter keeps the lines with units in their order: filtering a
      concatenation concatenates the filtered parts. */
  lemma {:induction false} DropEmptyAppend(a: seq<CartItem>, b: seq<CartItem>)
    ensures DropEmpty(a + b) == DropEmpty(a) + DropEmpty(b)
  {
    if a == [] {
      assert a + b == b;
    } else {
      assert (a + b)[1..] == a[1..] + b;
      DropEmptyAppend(a[1..], b);
    }
  }

  /** Every line with units survives the filter. */
  lemma {:induction false} DropEmptyKeepsLines(items: seq<CartItem>)
    ensures forall i :: 0 <= i < |items| && items[i].quantity > 0 ==> items[i] in DropEmpty(items)
  {
    if items != [] {
      DropEmptyKeepsLines(items[1..]);
      forall i | 0 <= i < |items| && items[i].quantity > 0
        ensures items[i] in DropEmpty(items)
      {
        if i > 0 { assert items[i] == items[1..][i - 1]; }
      }
    }
  }

  /** `{ ...state, items, total, itemCount }` with both sums recomputed. */
  function WithItems(s: CartState, items: seq<CartItem>): (r: CartState)
    ensures Consistent(r) && r.items == items && r.isOpen == s.isOpen
  {
    s.(items := items, total := Total(items), itemCount := ItemCount(items))
  }

  /** `cartReducer`. */
  function Reduce(s: CartState, a: Action): (r: CartState)
    ensures (a.AddItem? || a.RemoveItem? || a.UpdateQuantity?) ==> Consistent(r)
    ensures !(a.ToggleCart? || a.OpenCart? || a.CloseCart?) ==> r.isOpen == s.isOpen
    ensures (a.ToggleCart? || a.OpenCart? || a.CloseCart?) ==>
      r.items == s.items && r.total == s.total && r.itemCount == s.itemCount
    ensures a.ClearCart? ==> r.items == [] && r.total == 0 && r.itemCount == 0
    ensures a.ToggleCart? ==> r.isOpen == !s.isOpen
    ensures a.OpenCart? ==> r.isOpen
    ensures a.CloseCart? ==> !r.isOpen
  {
    match a
    case AddItem(d) => WithItems(s, AddLine(s.items, d))
    case RemoveItem(id) => WithItems(s, RemoveLines(s.items, id))
    case UpdateQuantity(id, q) => WithItems(s, DropEmpty(SetQuantity(s.items, id, q)))
    case ClearCart => s.(items := [], total := 0, itemCount := 0)
    case ToggleCart => s.(isOpen := !s.isOpen)
    case OpenCart => s.(isOpen := true)
    case CloseCart => s.(isOpen := false)
  }

  // ---------------------------------------------------------------------------
  // ADD_ITEM

  /** Adding an id already in the cart bumps that one line by exactly one unit
      and leaves the number of lines, their order and everything else alone. */
  lemma AddExistingLine(s: CartState, d: ItemDetails, k: nat)
    requires WellFormed(s.items) && k < |s.items| && s.items[k].id == d.id
    ensures var r := Reduce(s, AddItem(d)).items;
      && |r| == |s.items|
      && r[k] == s.items[k].(quantity := s.items[k].quantity + 1)
      && forall j :: 0 <= j < |r| && j != k ==> r[j] == s.items[j]
  {
    assert HasId(s.items, d.id);
  }

  /** Adding a new id appends exactly one line, with one unit, at the end. */
  lemma AddNewLine(s: CartState, d: ItemDetails)
    requires !HasId(s.items, d.id)
    ensures Reduce(s, AddItem(d)).items == s.items + [WithQuantity(d, 1)]
    ensures WithQuantity(d, 1).quantity == 1 && Details(WithQuantity(d, 1)) == d
  {
  }

  lemma {:induction false} TotalAppend(a: seq<CartItem>, b: seq<CartItem>)
    ensures Total(a + b) == Total(a) + Total(b)
    ensures ItemCount(a + b) == ItemCount(a) + ItemCount(b)
  {
    if a == [] {
      assert a + b == b;
    } else {
      assert (a + b)[0] == a[0];
      assert (a + b)[1..] == a[1..] + b;
      TotalAppend(a[1..], b);
    }
  }

  lemma {:induction false} IncrementTotals(items: seq<CartItem>, k: nat)
    requires UniqueIds(items) && k < |items|
    ensures Total(Increment(items, items[k].id)) == Total(items) + UnitPrice(items[k])
    ensures ItemCount(Increment(items, items[k].id)) == ItemCount(items) + 1
  {
    var id := items[k].id;
    var r := Increment(items, id);
    assert r[1..] == Increment(items[1..], id);
    if k == 0 {
      assert !HasId(items[1..], id);
      IncrementAbsent(items[1..], id);
    } else {
      IncrementTotals(items[1..], k - 1);
    }
  }

  lemma {:induction false} IncrementAbsent(items: seq<CartItem>, id: string)
    requires !HasId(items, id)
    ensures Increment(items, id) == items
  {
    if items != [] {
      IncrementAbsent(items[1..], id);
    }
  }

  /** ADD_ITEM adds one unit, priced at the unit price of the line that
      receives it: the existing line when the id is already in the cart. */
  lemma AddItemTotals(s: CartState, d: ItemDetails)
    requires Consistent(s) && WellFormed(s.items)
    ensures var r := Reduce(s, AddItem(d));
      && r.itemCount == s.itemCount + 1
      && r.total == s.total + (if HasId(s.items, d.id)
                               then UnitPrice(s.items[IndexOf(s.items, d.id)])
                               else UnitPrice(WithQuantity(d, 1)))
  {
    if HasId(s.items, d.id) {
      IncrementTotals(s.items, IndexOf(s.items, d.id));
    } else {
      TotalAppend(s.items, [WithQuantity(d, 1)]);
      assert [WithQuantity(d, 1)][1..] == [];
    }
  }

  function IndexOf(items: seq<CartItem>, id: string): (k: nat)
    requires HasId(items, id)
    ensures k < |items| && items[k].id == id
  {
    if items[0].id == id then 0
    else
      assert HasId(items[1..], id) by {
        var i :| 0 <= i < |items| && items[i].id == id;
        assert items[1..][i - 1].id == id;
      }
      1 + IndexOf(items[1..], id)
  }

  // ---------------------------------------------------------------------------
  // REMOVE_ITEM

  /** REMOVE_ITEM deletes the lines with that id and keeps every other line. */
  lemma {:induction false} RemoveKeepsOthers(items: seq<CartItem>, id: string)
    ensures !HasId(RemoveLines(items, id), id)
    ensures forall i :: 0 <= i < |items| && items[i].id != id ==> items[i] in RemoveLines(items, id)
  {
    if items != [] {
      RemoveKeepsOthers(items[1..], id);
      forall i | 0 <= i < |items| && items[i].id != id
        ensures items[i] in RemoveLines(items, id)
      {
        if i > 0 { assert items[i] == items[1..][i - 1]; }
      }
    }
  }

  /** REMOVE_ITEM on an id that is not in the cart leaves the lines alone. */
  lemma {:induction false} RemoveAbsent(items: seq<CartItem>, id: string)
    requires !HasId(items, id)
    ensures RemoveLines(items, id) == items
  {
    if items != [] {
      RemoveAbsent(items[1..], id);
    }
  }

  /** Removing a line takes exactly its units and its line total off the cart. */
  lemma {:induction false} RemoveTotals(items: seq<CartItem>, k: nat)
    requires UniqueIds(items) && k < |items|
    ensures Total(RemoveLines(items, items[k].id)) == Total(items) - LineTotal(items[k])
    ensures ItemCount(RemoveLines(items, items[k].id)) == ItemCount(items) - items[k].quantity
  {
    var id := items[k].id;
    if k == 0 {
      assert !HasId(items[1..], id);
      RemoveAbsent(items[1..], id);
    } else {
      RemoveTotals(items[1..], k - 1);
    }
  }

  // ---------------------------------------------------------------------------
  // UPDATE_QUANTITY

  /** A zero and a negative quantity are the same request. */
  lemma UpdateNonPositiveSame(s: CartState, id: string, q: int)
    requires q <= 0
    ensures Reduce(s, UpdateQuantity(id, q)) == Reduce(s, UpdateQuantity(id, 0))
  {
    assert SetQuantity(s.items, id, q) == SetQuantity(s.items, id, 0);
  }

  lemma {:induction false} DropClearedIsRemove(items: seq<CartItem>, id: string)
    requires forall i :: 0 <= i < |items| ==> items[i].quantity >= 1
    ensures DropEmpty(SetQuantity(items, id, 0)) == RemoveLines(items, id)
  {
    if items != [] {
      assert SetQuantity(items, id, 0)[1..] == SetQuantity(items[1..], id, 0);
      DropClearedIsRemove(items[1..], id);
    }
  }

  /** On a well-formed cart, setting a quantity of zero or less is REMOVE_ITEM. */
  lemma UpdateNonPositiveRemoves(s: CartState, id: string, q: int)
    requires WellFormed(s.items) && q <= 0
    ensures Reduce(s, UpdateQuantity(id, q)) == Reduce(s, RemoveItem(id))
  {
    UpdateNonPositiveSame(s, id, q);
    DropClearedIsRemove(s.items, id);
  }

  lemma {:induction false} DropEmptyKeepsPositive(items: seq<CartItem>)
    requires forall i :: 0 <= i < |items| ==> items[i].quantity >= 1
    ensures DropEmpty(items) == items
  {
    if items != [] {
      DropEmptyKeepsPositive(items[1..]);
    }
  }

  /** A positive quantity sets that line and no other; no line disappears. */
  lemma UpdatePositive(s: CartState, id: string, q: int)
    requires WellFormed(s.items) && q >= 1
    ensures var r := Reduce(s, UpdateQuantity(id, q)).items;
      && |r| == |s.items|
      && forall j :: 0 <= j < |r| ==>
           r[j] == if s.items[j].id == id then s.items[j].(quantity := q) else s.items[j]
  {
    DropEmptyKeepsPositive(SetQuantity(s.items, id, q));
  }

  // ---------------------------------------------------------------------------
  // The invariant

  lemma AddKeepsWellFormed(items: seq<CartItem>, d: ItemDetails)
    requires WellFormed(items)
    ensures WellFormed(AddLine(items, d))
  {
    if !HasId(items, d.id) {
      var r := items + [WithQuantity(d, 1)];
      forall i, j | 0 <= i < j < |r| ensures r[i].id != r[j].id {
        if j == |items| {
          assert r[i] == items[i];
        }
      }
    }
  }

  lemma {:induction false} RemoveKeepsWellFormed(items: seq<CartItem>, id: string)
    requires WellFormed(items)
    ensures WellFormed(RemoveLines(items, id))
  {
    if items != [] {
      RemoveKeepsWellFormed(items[1..], id);
      HeadFreshIn(items, RemoveLines(items[1..], id));
    }
  }

  lemma {:induction false} DropKeepsUnique(items: seq<CartItem>)
    requires UniqueIds(items)
    ensures UniqueIds(DropEmpty(items))
    ensures forall i :: 0 <= i < |DropEmpty(items)| ==> DropEmpty(items)[i].quantity > 0
  {
    if items != [] {
      DropKeepsUnique(items[1..]);
      HeadFreshIn(items, DropEmpty(items[1..]));
    }
  }

  /** The head of a list with unique ids shares its id with nothing taken from the tail. */
  lemma HeadFreshIn(items: seq<CartItem>, t: seq<CartItem>)
    requires UniqueIds(items) && items != []
    requires forall x :: x in t ==> x in items[1..]
    ensures forall j :: 0 <= j < |t| ==> t[j].id != items[0].id
  {
    forall j | 0 <= j < |t| ensures t[j].id != items[0].id {
      assert t[j] in items[1..];
      var m :| 0 <= m < |items[1..]| && items[1..][m] == t[j];
      assert items[m + 1] == t[j];
    }
  }

  /** Every action keeps "ids are unique and every quantity is at least one". */
  lemma ReducePreservesWellFormed(s: CartState, a: Action)
    requires WellFormed(s.items)
    ensures WellFormed(Reduce(s, a).items)
  {
    match a
    case AddItem(d) => AddKeepsWellFormed(s.items, d);
    case RemoveItem(id) => RemoveKeepsWellFormed(s.items, id);
    case UpdateQuantity(id, q) => DropKeepsUnique(SetQuantity(s.items, id, q));
    case ClearCart =>
    case ToggleCart =>
    case OpenCart =>
    case CloseCart =>
  }

  // ---------------------------------------------------------------------------
  // Rehydration

  /** One ADD_ITEM per stored line, in stored order, over the current state;
      the stored quantity is stripped before the dispatch. */
  function Replay(s: CartState, stored: seq<CartItem>): CartState {
    if stored == [] then s
    else Reduce(Replay(s, stored[..|stored| - 1]), AddItem(Details(stored[|stored| - 1])))
  }

  /** What rehydration makes of the stored lines: the same lines, one unit each. */
  function Restored(stored: seq<CartItem>): (r: seq<CartItem>)
    ensures |r| == |stored|
    ensures forall i :: 0 <= i < |r| ==> r[i] == stored[i].(quantity := 1)
  {
    if stored == [] then [] else Restored(stored[..|stored| - 1]) + [stored[|stored| - 1].(quantity := 1)]
  }

  /** With distinct stored ids that are new to the cart, rehydration appends the
      stored lines in stored order, each with a quantity of one, and keeps the
      cart's visibility flag. */
  lemma {:induction false} ReplayDistinct(s: CartState, stored: seq<CartItem>)
    requires UniqueIds(stored)
    requires forall i :: 0 <= i < |stored| ==> !HasId(s.items, stored[i].id)
    ensures Replay(s, stored).items == s.items + Restored(stored)
    ensures Replay(s, stored).isOpen == s.isOpen
    ensures stored != [] ==> Consistent(Replay(s, stored))
  {
    if stored != [] {
      var n := |stored| - 1;
      var init, last := stored[..n], stored[n];
      assert UniqueIds(init);
      ReplayDistinct(s, init);
      var prev := Replay(s, init);
      assert !HasId(prev.items, last.id) by {
        forall i | 0 <= i < |prev.items| ensures prev.items[i].id != last.id {
          if i < |s.items| {
            assert prev.items[i] == s.items[i];
          } else {
            assert prev.items[i] == Restored(init)[i - |s.items|];
          }
        }
      }
      AddNewLine(prev, Details(last));
      assert WithQuantity(Details(last), 1) == last.(quantity := 1);
      assert Restored(stored) == Restored(init) + [last.(quantity := 1)];
    }
  }

  /** Rehydrating into the empty cart: lines come back in order, each with one
      unit, whatever quantity was stored. */
  lemma RehydrateFromEmpty(stored: seq<CartItem>)
    requires UniqueIds(stored)
    ensures Replay(Initial, stored).items == Restored(stored)
    ensures Replay(Initial, stored).isOpen == false
    ensures Consistent(Replay(Initial, stored))
  {
    ReplayDistinct(Initial, stored);
  }

  /** The stored quantity is not restored: a line saved with three units comes
      back with one. */
  lemma ReloadResetsQuantity(item: CartItem)
    requires item.quantity == 3
    ensures Replay(Initial, [item]).items == [item.(quantity := 1)]
    ensures Replay(Initial, [item]).items[0].quantity != item.quantity
  {
    RehydrateFromEmpty([item]);
  }

  /** The persisted cart as it is meant to come back: the stored lines as
      they were, quantities included, with both sums recomputed and the
      drawer closed. */
  function Restore(stored: seq<CartItem>): (r: CartState)
    ensures r.items == stored && Consistent(r) && !r.isOpen
  {
    WithItems(Initial, stored)
  }

  /** Persist then reload gives back the same cart, lines, quantities and
      sums, with the drawer closed. */
  lemma RestoreRoundTrip(s: CartState)
    requires Consistent(s)
    ensures Restore(s.items) == s.(isOpen := false)
  {
  }

  /** A single-unit line is the one case where the replay and the intended
      restoration agree. */
  lemma {:induction false} ReplayIsRestoreOnSingleUnits(stored: seq<CartItem>)
    requires UniqueIds(stored)
    requires forall i :: 0 <= i < |stored| ==> stored[i].quantity == 1
    ensures Replay(Initial, stored) == Restore(stored)
  {
    RehydrateFromEmpty(stored);
    assert Restored(stored) == stored;
  }
}

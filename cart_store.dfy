/** The browser cart (contexts/CartContext.tsx): a list of ticket lines held
    in React state and mirrored into localStorage under one key. The state
    updaters handed to setItems are the pure functions Added, Removed and
    Updated; the class Cart holds the state and the storage slot. */
module CartStore {
  import opened Wrappers

  const StorageKey := "esther-house-cart"

  /** A cart line without its quantity: Omit<CartItem, 'quantity'>. */
  datatype ItemInfo = ItemInfo(
    eventId: string,
    eventName: string,
    eventDate: string,
    eventImage: Option<string>,
    zoneId: int,
    zoneName: string,
    categoryId: int,
    categoryName: string,
    price: int)

  /** A cart line, `{ ...item, quantity }`; price is in centimes. */
  datatype CartItem = CartItem(info: ItemInfo, quantity: int)

  /** The test addItem's findIndex applies: same category and same event. */
  predicate SameLine(item: CartItem, info: ItemInfo) {
    item.info.categoryId == info.categoryId && item.info.eventId == info.eventId
  }

  /** At most one line per (eventId, categoryId) pair. */
  predicate UniqueLines(items: seq<CartItem>) {
    forall i, j :: 0 <= i < j < |items| ==> !SameLine(items[j], items[i].info)
  }

  function FindFrom(items: seq<CartItem>, info: ItemInfo, k: nat): (r: int)
    requires k <= |items|
    ensures r == -1 || k <= r < |items|
    ensures r >= 0 ==> SameLine(items[r], info) && forall j :: k <= j < r ==> !SameLine(items[j], info)
    ensures r == -1 ==> forall j :: k <= j < |items| ==> !SameLine(items[j], info)
    decreases |items| - k
  {
    if k == |items| then -1
    else if SameLine(items[k], info) then k
    else FindFrom(items, info, k + 1)
  }

  /** Array.prototype.findIndex with the SameLine test: the first matching
      index, or -1. */
  function FindIndex(items: seq<CartItem>, info: ItemInfo): (r: int)
    ensures -1 <= r < |items|
    ensures r >= 0 ==> SameLine(items[r], info) && forall j :: 0 <= j < r ==> !SameLine(items[j], info)
    ensures r == -1 <==> forall j :: 0 <= j < |items| ==> !SameLine(items[j], info)
  {
    FindFrom(items, info, 0)
  }

  /** The addItem updater: grow the matching line, or append a new one. */
  function Added(items: seq<CartItem>, info: ItemInfo, quantity: int): seq<CartItem> {
    var i := FindIndex(items, info);
    if i > -1 then items[i := items[i].(quantity := items[i].quantity + quantity)]
    else items + [CartItem(info, quantity)]
  }

  /** The removeItem updater: `filter(item => item.categoryId !== categoryId)`. */
  function Removed(items: seq<CartItem>, categoryId: int): seq<CartItem> {
    if items == [] then []
    else (if items[0].info.categoryId != categoryId then [items[0]] else []) + Removed(items[1..], categoryId)
  }

  /** The updateQuantity updater for a positive quantity: every line of the
      category gets that quantity. */
  function Updated(items: seq<CartItem>, categoryId: int, quantity: int): seq<CartItem> {
    seq(|items|, i requires 0 <= i < |items| =>
      if items[i].info.categoryId == categoryId then items[i].(quantity := quantity) else items[i])
  }

  /** getTotalItems: `reduce((total, item) => total + item.quantity, 0)`. */
  function TotalItems(items: seq<CartItem>): int {
    if items == [] then 0 else TotalItems(items[..|items| - 1]) + items[|items| - 1].quantity
  }

  /** getTotalPrice: `reduce((total, item) => total + item.price * item.quantity, 0)`. */
  function TotalPrice(items: seq<CartItem>): int {
    if items == [] then 0
    else TotalPrice(items[..|items| - 1]) + items[|items| - 1].info.price * items[|items| - 1].quantity
  }

  // ---------------------------------------------------------------------
  // addItem

  /** An existing (eventId, categoryId) line grows by the added quantity;
      the length and every other line are unchanged. */
  lemma AddMergesExistingLine(items: seq<CartItem>, info: ItemInfo, quantity: int, i: int)
    requires 0 <= i < |items| && SameLine(items[i], info) && UniqueLines(items)
    ensures |Added(items, info, quantity)| == |items|
    ensures Added(items, info, quantity)[i] == items[i].(quantity := items[i].quantity + quantity)
    ensures forall j :: 0 <= j < |items| && j != i ==> Added(items, info, quantity)[j] == items[j]
  {
  }

  /** Without such a line, exactly one line `{...item, quantity}` is appended
      at the end. */
  lemma AddAppendsNewLine(items: seq<CartItem>, info: ItemInfo, quantity: int)
    requires forall j :: 0 <= j < |items| ==> !SameLine(items[j], info)
    ensures Added(items, info, quantity) == items + [CartItem(info, quantity)]
  {
  }

  /** addItem keeps at most one line per (eventId, categoryId). */
  lemma AddKeepsLinesUnique(items: seq<CartItem>, info: ItemInfo, quantity: int)
    requires UniqueLines(items)
    ensures UniqueLines(Added(items, info, quantity))
  {
    var r := Added(items, info, quantity);
    var k := FindIndex(items, info);
    if k == -1 {
      forall i, j | 0 <= i < j < |r| ensures !SameLine(r[j], r[i].info) {
        if j == |items| {
          assert !SameLine(items[i], info);
        }
      }
    } else {
      forall i, j | 0 <= i < j < |r| ensures !SameLine(r[j], r[i].info) {
        assert r[i].info == items[i].info && r[j].info == items[j].info;
      }
    }
  }

  lemma {:induction false} TotalItemsAppend(items: seq<CartItem>, x: CartItem)
    ensures TotalItems(items + [x]) == TotalItems(items) + x.quantity
  {
    assert (items + [x])[..|items|] == items;
  }

  lemma {:induction false} TotalItemsSet(items: seq<CartItem>, i: int, x: CartItem)
    requires 0 <= i < |items|
    ensures TotalItems(items[i := x]) == TotalItems(items) - items[i].quantity + x.quantity
    decreases |items|
  {
    var n := |items| - 1;
    if i < n {
      TotalItemsSet(items[..n], i, x);
      assert items[i := x][..n] == items[..n][i := x];
    } else {
      assert items[i := x][..n] == items[..n];
    }
  }

  lemma {:induction false} TotalPriceAppend(items: seq<CartItem>, x: CartItem)
    ensures TotalPrice(items + [x]) == TotalPrice(items) + x.info.price * x.quantity
  {
    assert (items + [x])[..|items|] == items;
  }

  lemma {:induction false} TotalPriceSet(items: seq<CartItem>, i: int, x: CartItem)
    requires 0 <= i < |items|
    ensures TotalPrice(items[i := x])
         == TotalPrice(items) - items[i].info.price * items[i].quantity + x.info.price * x.quantity
    decreases |items|
  {
    var n := |items| - 1;
    if i < n {
      TotalPriceSet(items[..n], i, x);
      assert items[i := x][..n] == items[..n][i := x];
    } else {
      assert items[i := x][..n] == items[..n];
    }
  }

  /** After addItem(_, q) the item total has grown by exactly q. */
  lemma TotalItemsAfterAdd(items: seq<CartItem>, info: ItemInfo, quantity: int)
    ensures TotalItems(Added(items, info, quantity)) == TotalItems(items) + quantity
  {
    var i := FindIndex(items, info);
    if i > -1 {
      TotalItemsSet(items, i, items[i].(quantity := items[i].quantity + quantity));
    } else {
      TotalItemsAppend(items, CartItem(info, quantity));
    }
  }

  /** The unit price the added tickets are charged at: a merged line keeps
      the price it was first added with. */
  function LinePrice(items: seq<CartItem>, info: ItemInfo): int {
    var i := FindIndex(items, info);
    if i > -1 then items[i].info.price else info.price
  }

  /** After addItem(_, q) the price total has grown by q times the line's
      unit price. */
  lemma TotalPriceAfterAdd(items: seq<CartItem>, info: ItemInfo, quantity: int)
    ensures TotalPrice(Added(items, info, quantity)) == TotalPrice(items) + LinePrice(items, info) * quantity
  {
    var i := FindIndex(items, info);
    if i > -1 {
      var x := items[i].(quantity := items[i].quantity + quantity);
      TotalPriceSet(items, i, x);
      assert x.info.price * x.quantity == items[i].info.price * items[i].quantity + items[i].info.price * quantity;
    } else {
      TotalPriceAppend(items, CartItem(info, quantity));
    }
  }

  /** Repeated additions of the same line leave one line whose quantity is
      the sum of the added quantities. */
  lemma AddTwiceSumsQuantities(items: seq<CartItem>, info: ItemInfo, q1: int, q2: int)
    requires UniqueLines(items)
    ensures Added(Added(items, info, q1), info, q2) == Added(items, info, q1 + q2)
  {
    var i := FindIndex(items, info);
    var once := Added(items, info, q1);
    if i == -1 {
      assert once[|items|] == CartItem(info, q1);
      assert forall j :: 0 <= j < |items| ==> once[j] == items[j];
      assert FindIndex(once, info) == |items|;
    } else {
      AddMergesExistingLine(items, info, q1, i);
      AddKeepsLinesUnique(items, info, q1);
      assert once[i].info == items[i].info;
    }
  }

  // ---------------------------------------------------------------------
  // The addItem updater as written shares the entry it changes

  /** The addItem updater as written: `[...prevItems]` copies the array but
      not its entries, so `newItems[i].quantity += quantity` changes the entry
      that prevItems holds as well. Gives (prevItems after the call, the
      returned list). */
  function SharedEntryAdd(prev: seq<CartItem>, info: ItemInfo, quantity: int): (seq<CartItem>, seq<CartItem>) {
    var i := FindIndex(prev, info);
    if i > -1 then
      var bumped := prev[i := prev[i].(quantity := prev[i].quantity + quantity)];
      (bumped, bumped)
    else
      (prev, prev + [CartItem(info, quantity)])
  }

  /** React's StrictMode (on by default under the App Router) calls a state updater twice
      on the same previous state in development builds; the second call sees
      the entry the first one changed. */
  function SharedEntryAddInvokedTwice(prev: seq<CartItem>, info: ItemInfo, quantity: int): seq<CartItem> {
    var seen := SharedEntryAdd(prev, info, quantity).0;
    SharedEntryAdd(seen, info, quantity).1
  }

  /** So an existing line grows by twice the quantity, and the item total by
      2q instead of q. */
  lemma SharedEntryAddTwiceDoubles(prev: seq<CartItem>, info: ItemInfo, quantity: int)
    requires FindIndex(prev, info) >= 0
    ensures var i := FindIndex(prev, info);
            SharedEntryAddInvokedTwice(prev, info, quantity)[i].quantity == prev[i].quantity + 2 * quantity
    ensures TotalItems(SharedEntryAddInvokedTwice(prev, info, quantity)) == TotalItems(prev) + 2 * quantity
  {
    var i := FindIndex(prev, info);
    var seen := prev[i := prev[i].(quantity := prev[i].quantity + quantity)];
    assert SharedEntryAdd(prev, info, quantity) == (seen, seen);
    assert forall j :: 0 <= j < i ==> seen[j] == prev[j];
    assert SameLine(seen[i], info);
    assert FindIndex(seen, info) == i;
    var twice := seen[i := seen[i].(quantity := seen[i].quantity + quantity)];
    assert SharedEntryAddInvokedTwice(prev, info, quantity) == twice;
    TotalItemsSet(prev, i, seen[i]);
    TotalItemsSet(seen, i, twice[i]);
  }

  /** A concrete case: the cart holds two tickets of category 3 of event "7";
      adding one more gives four under a double call. */
  lemma SharedEntryAddCounterexample()
    ensures var info := ItemInfo("7", "", "", None, 1, "", 3, "", 4500);
            SharedEntryAddInvokedTwice([CartItem(info, 2)], info, 1) == [CartItem(info, 4)]
            && Added([CartItem(info, 2)], info, 1) == [CartItem(info, 3)]
  {
    var info := ItemInfo("7", "", "", None, 1, "", 3, "", 4500);
    assert FindIndex([CartItem(info, 2)], info) == 0;
    assert FindIndex([CartItem(info, 3)], info) == 0;
  }

  // ---------------------------------------------------------------------
  // removeItem and updateQuantity

  /** removeItem(c) drops every line of category c, whatever its event ... */
  lemma {:induction false} RemoveDropsCategory(items: seq<CartItem>, categoryId: int)
    ensures forall k :: 0 <= k < |Removed(items, categoryId)| ==> Removed(items, categoryId)[k].info.categoryId != categoryId
  {
    if items != [] {
      RemoveDropsCategory(items[1..], categoryId);
    }
  }

  /** ... keeps every other line, in order ... */
  lemma {:induction false} RemoveKeepsOthers(items: seq<CartItem>, categoryId: int, k: int)
    requires 0 <= k < |items| && items[k].info.categoryId != categoryId
    ensures CountOthers(items[..k], categoryId) < |Removed(items, categoryId)|
    ensures Removed(items, categoryId)[CountOthers(items[..k], categoryId)] == items[k]
  {
    if k > 0 {
      RemoveKeepsOthers(items[1..], categoryId, k - 1);
      assert items[1..][..k - 1] == items[..k][1..];
    }
  }

  /** The number of lines not of the category. */
  function CountOthers(items: seq<CartItem>, categoryId: int): (r: nat)
    ensures r <= |items|
  {
    if items == [] then 0
    else (if items[0].info.categoryId != categoryId then 1 else 0) + CountOthers(items[1..], categoryId)
  }

  lemma {:induction false} RemovedLength(items: seq<CartItem>, categoryId: int)
    ensures |Removed(items, categoryId)| == CountOthers(items, categoryId)
  {
    if items != [] {
      RemovedLength(items[1..], categoryId);
    }
  }

  /** ... and is a no-op when the category is absent. */
  lemma {:induction false} RemoveAbsentIsNoop(items: seq<CartItem>, categoryId: int)
    requires forall k :: 0 <= k < |items| ==> items[k].info.categoryId != categoryId
    ensures Removed(items, categoryId) == items
  {
    if items != [] {
      RemoveAbsentIsNoop(items[1..], categoryId);
    }
  }

  /** The asymmetry of the keys: addItem tells two events' lines of one
      category apart, removeItem does not and drops both. */
  lemma RemoveIgnoresEvent(a: ItemInfo, b: ItemInfo)
    requires a.categoryId == b.categoryId && a.eventId != b.eventId
    ensures |Added(Added([], a, 1), b, 1)| == 2
    ensures Removed(Added(Added([], a, 1), b, 1), a.categoryId) == []
  {
    var two := [CartItem(a, 1), CartItem(b, 1)];
    assert Added([], a, 1) == [CartItem(a, 1)];
    assert FindIndex([CartItem(a, 1)], b) == -1;
    assert Added([CartItem(a, 1)], b, 1) == two;
    assert two[1..] == [CartItem(b, 1)];
    assert Removed(two[1..], a.categoryId) == [] + Removed([], a.categoryId);
  }

  /** updateQuantity(c, q) with q > 0 sets the quantity of every line of
      category c; the length and all other fields are unchanged. */
  lemma UpdateSetsQuantity(items: seq<CartItem>, categoryId: int, quantity: int)
    ensures |Updated(items, categoryId, quantity)| == |items|
    ensures forall k :: 0 <= k < |items| ==>
      Updated(items, categoryId, quantity)[k].info == items[k].info &&
      Updated(items, categoryId, quantity)[k].quantity
        == (if items[k].info.categoryId == categoryId then quantity else items[k].quantity)
  {
  }

  // ---------------------------------------------------------------------
  // The stored snapshot

  /** The localStorage slot: nothing, text that JSON.parse rejects, or the
      JSON text of an item list (the JSON round trip is the identity). */
  datatype Slot = Absent | Unreadable | Snapshot(items: seq<CartItem>)

  /** What the mount effect restores from the slot. */
  function Loaded(slot: Slot): seq<CartItem> {
    if slot.Snapshot? then slot.items else []
  }

  /** Reloading the page from the stored snapshot reconstructs the cart. */
  lemma ReloadRestoresItems(items: seq<CartItem>)
    ensures Loaded(Snapshot(items)) == items
  {
  }

  /** The CartProvider: the `items` state and the slot under StorageKey. */
  class Cart {
    var items: seq<CartItem>
    var stored: Slot

    /** The save effect has run: the slot holds the current items. */
    ghost predicate Persisted()
      reads this
    {
      stored == Snapshot(items)
    }

    /** The save effect `localStorage.setItem(key, JSON.stringify(items))`,
        which React runs after every change of `items`. */
    method Save()
      modifies this
      ensures items == old(items) && Persisted()
    {
      stored := Snapshot(items);
    }

    /** Mounting the provider: state starts empty, the load effect reads the
        slot and the save effect writes the state, first the empty list and,
        after the re-render, the loaded one. */
    constructor Mount(saved: Slot)
      ensures items == Loaded(saved) && Persisted()
    {
      items := [];
      stored := saved;
      var restored := Loaded(saved);
      stored := Snapshot(items);
      items := restored;
      stored := Snapshot(items);
    }

    method AddItem(info: ItemInfo, quantity: int)
      modifies this
      ensures items == Added(old(items), info, quantity) && Persisted()
    {
      items := Added(items, info, quantity);
      Save();
    }

    method RemoveItem(categoryId: int)
      modifies this
      ensures items == Removed(old(items), categoryId) && Persisted()
    {
      items := Removed(items, categoryId);
      Save();
    }

    /** A non-positive quantity removes the category, exactly as removeItem. */
    method UpdateQuantity(categoryId: int, quantity: int)
      modifies this
      ensures quantity <= 0 ==> items == Removed(old(items), categoryId)
      ensures quantity > 0 ==> items == Updated(old(items), categoryId, quantity)
      ensures Persisted()
    {
      if quantity <= 0 {
        RemoveItem(categoryId);
        return;
      }
      items := Updated(items, categoryId, quantity);
      Save();
    }

    /** clearCart empties the state and removes the slot; the new (empty)
        array is a changed dependency, so the save effect then writes "[]". */
    method ClearCart()
      modifies this
      ensures items == [] && Persisted()
    {
      items := [];
      stored := Absent;
      Save();
    }
  }

  /** The "[]" the save effect leaves after clearCart loads like a removed
      slot. */
  lemma ClearedSlotLoadsEmpty()
    ensures Loaded(Snapshot([])) == Loaded(Absent) == []
  {
  }
}

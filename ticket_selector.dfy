/** The ticket picker on an event page (components/events/TicketSelector.tsx):
    per-category quantities keyed by category_id, the +/- buttons, the
    batch "add to cart" and the running totals. */
module TicketSelector {
  import opened Wrappers
  import opened ProviderTypes
  import CartStore
  import opened Maps

  /** `quantities[categoryId] || 0`. */
  function Quantity(quantities: map<int, int>, categoryId: int): int {
    if categoryId in quantities then quantities[categoryId] else 0
  }

  predicate NonNegative(quantities: map<int, int>) {
    forall c :: c in quantities ==> quantities[c] >= 0
  }

  /** The handleQuantityChange updater: `Math.max(0, current + delta)`. */
  function QuantityChanged(quantities: map<int, int>, categoryId: int, delta: int): map<int, int> {
    var next := Quantity(quantities, categoryId) + delta;
    quantities[categoryId := if next < 0 then 0 else next]
  }

  /** The changed quantity is the old one plus delta, clamped at 0; no other
      category is touched. */
  lemma QuantityChangeClamps(quantities: map<int, int>, categoryId: int, delta: int)
    ensures var r := QuantityChanged(quantities, categoryId, delta);
            && r.Keys == quantities.Keys + {categoryId}
            && r[categoryId] >= 0
            && r[categoryId] >= Quantity(quantities, categoryId) + delta
            && (Quantity(quantities, categoryId) + delta >= 0 ==> r[categoryId] == Quantity(quantities, categoryId) + delta)
            && (Quantity(quantities, categoryId) + delta < 0 ==> r[categoryId] == 0)
            && forall c :: c in quantities && c != categoryId ==> r[c] == quantities[c]
  {
  }

  /** No quantity ever becomes negative. */
  lemma QuantityChangeKeepsNonNegative(quantities: map<int, int>, categoryId: int, delta: int)
    requires NonNegative(quantities)
    ensures NonNegative(QuantityChanged(quantities, categoryId, delta))
  {
  }

  /** The +/- controls of a category are rendered when the event is not sold
      out and the category has free seats. */
  predicate ControlsShown(event: MappedEvent, category: Category) {
    !SoldOut(event) && category.freeSeats > 0
  }

  /** Clicking "+": disabled when `quantity >= free_seats`. */
  function PressPlus(event: MappedEvent, quantities: map<int, int>, category: Category): map<int, int> {
    if ControlsShown(event, category) && Quantity(quantities, category.categoryId) < category.freeSeats
    then QuantityChanged(quantities, category.categoryId, 1)
    else quantities
  }

  /** Clicking "-": disabled when `quantity === 0`. */
  function PressMinus(event: MappedEvent, quantities: map<int, int>, category: Category): map<int, int> {
    if ControlsShown(event, category) && Quantity(quantities, category.categoryId) != 0
    then QuantityChanged(quantities, category.categoryId, -1)
    else quantities
  }

  /** The quantity of a category stays between 0 and its free seats. */
  predicate WithinSeats(quantities: map<int, int>, category: Category) {
    0 <= Quantity(quantities, category.categoryId) <= (if category.freeSeats > 0 then category.freeSeats else 0)
  }

  /** Through the buttons a quantity never leaves [0, free_seats]. */
  lemma ButtonsKeepWithinSeats(event: MappedEvent, quantities: map<int, int>, category: Category)
    requires WithinSeats(quantities, category)
    ensures WithinSeats(PressPlus(event, quantities, category), category)
    ensures WithinSeats(PressMinus(event, quantities, category), category)
  {
  }

  /** On a sold-out event the buttons change nothing. */
  lemma SoldOutChangesNothing(event: MappedEvent, quantities: map<int, int>, category: Category)
    requires SoldOut(event)
    ensures PressPlus(event, quantities, category) == quantities
    ensures PressMinus(event, quantities, category) == quantities
  {
  }

  // ---------------------------------------------------------------------
  // getTotalSelected: the sum of Object.values(quantities)

  /** `Object.values(quantities).reduce((sum, qty) => sum + qty, 0)`. */
  ghost function SumValues(m: map<int, int>): int
    decreases |m|
  {
    if |m| == 0 then 0
    else
      var k := PickKey(m);
      m[k] + SumValues(m - {k})
  }

  lemma {:induction false} SumValuesWithout(m: map<int, int>, k: int)
    requires k in m
    ensures SumValues(m) == m[k] + SumValues(m - {k})
    decreases |m|
  {
    var p := PickKey(m);
    if p != k {
      var mp := m - {p};
      var mk := m - {k};
      assert k in mp && p in mk;
      SumValuesWithout(mp, k);
      SumValuesWithout(mk, p);
      assert mp - {k} == mk - {p};
    }
  }

  /** One quantity change moves the selected total by the change of that
      quantity. */
  lemma SumValuesAfterChange(quantities: map<int, int>, categoryId: int, delta: int)
    ensures SumValues(QuantityChanged(quantities, categoryId, delta))
         == SumValues(quantities) - Quantity(quantities, categoryId)
            + QuantityChanged(quantities, categoryId, delta)[categoryId]
  {
    var r := QuantityChanged(quantities, categoryId, delta);
    SumValuesWithout(r, categoryId);
    assert r - {categoryId} == quantities - {categoryId};
    if categoryId in quantities {
      SumValuesWithout(quantities, categoryId);
    } else {
      assert quantities - {categoryId} == quantities;
    }
  }

  /** With no negative quantity, the total (and with it the "add to cart"
      panel) is positive exactly when some quantity is. */
  lemma {:induction false} SumValuesPositive(m: map<int, int>)
    requires NonNegative(m)
    ensures SumValues(m) >= 0
    ensures SumValues(m) > 0 <==> exists c :: c in m && m[c] > 0
    decreases |m|
  {
    if |m| > 0 {
      var k := PickKey(m);
      SumValuesPositive(m - {k});
      if SumValues(m) == 0 {
        assert forall c :: c in m && c != k ==> c in m - {k};
      }
    }
  }

  // ---------------------------------------------------------------------
  // handleAddToCart

  /** One addItem call of handleAddToCart. */
  datatype Line = Line(zone: Zone, category: Category, quantity: int)

  function Zones(event: MappedEvent): seq<Zone> {
    event.zones.GetOr([])
  }

  /** The lines of one zone: its categories with a positive quantity, in
      order. */
  function ZoneLines(zone: Zone, categories: seq<Category>, quantities: map<int, int>): seq<Line> {
    if categories == [] then []
    else
      var c := categories[|categories| - 1];
      var q := Quantity(quantities, c.categoryId);
      ZoneLines(zone, categories[..|categories| - 1], quantities) + (if q > 0 then [Line(zone, c, q)] else [])
  }

  /** One more category adds its line when its quantity is positive. */
  lemma ZoneLinesSnoc(zone: Zone, categories: seq<Category>, ci: int, quantities: map<int, int>, done: seq<Line>)
    requires 0 <= ci < |categories|
    requires done == ZoneLines(zone, categories[..ci], quantities)
    ensures Quantity(quantities, categories[ci].categoryId) > 0 ==>
      ZoneLines(zone, categories[..ci + 1], quantities)
        == done + [Line(zone, categories[ci], Quantity(quantities, categories[ci].categoryId))]
    ensures Quantity(quantities, categories[ci].categoryId) <= 0 ==>
      ZoneLines(zone, categories[..ci + 1], quantities) == done
  {
    assert categories[..ci + 1][..ci] == categories[..ci];
  }

  /** All lines, zone by zone. */
  function Selection(zones: seq<Zone>, quantities: map<int, int>): seq<Line> {
    if zones == [] then []
    else
      var z := zones[|zones| - 1];
      Selection(zones[..|zones| - 1], quantities) + ZoneLines(z, z.categories, quantities)
  }

  /** The item handed to addItem for a category. */
  function ItemOf(event: MappedEvent, zone: Zone, category: Category): CartStore.ItemInfo {
    CartStore.ItemInfo(event.id, event.title, event.date, event.image,
                       zone.zoneId, zone.name, category.categoryId, category.name, category.amount)
  }

  /** The cart after the addItem calls for the lines, in order. */
  function AddedAll(items: seq<CartStore.CartItem>, event: MappedEvent, lines: seq<Line>): seq<CartStore.CartItem> {
    if lines == [] then items
    else
      var l := lines[|lines| - 1];
      CartStore.Added(AddedAll(items, event, lines[..|lines| - 1]), ItemOf(event, l.zone, l.category), l.quantity)
  }

  /** totalAdded. */
  function LinesCount(lines: seq<Line>): int {
    if lines == [] then 0 else LinesCount(lines[..|lines| - 1]) + lines[|lines| - 1].quantity
  }

  /** The price of the lines, amount times quantity. */
  function LinesPrice(lines: seq<Line>): int {
    if lines == [] then 0
    else LinesPrice(lines[..|lines| - 1]) + lines[|lines| - 1].category.amount * lines[|lines| - 1].quantity
  }

  /** Every line carries the positive stored quantity of its category, and
      comes from the zone it names. */
  lemma {:induction false} ZoneLinesArePositive(zone: Zone, categories: seq<Category>, quantities: map<int, int>)
    ensures forall k :: 0 <= k < |ZoneLines(zone, categories, quantities)| ==>
      var l := ZoneLines(zone, categories, quantities)[k];
      l.zone == zone && l.category in categories && l.quantity > 0 && l.quantity == Quantity(quantities, l.category.categoryId)
  {
    if categories != [] {
      ZoneLinesArePositive(zone, categories[..|categories| - 1], quantities);
    }
  }

  /** Each category of the zone with a positive quantity has its line. */
  lemma {:induction false} PositiveCategoryHasLine(zone: Zone, categories: seq<Category>, quantities: map<int, int>, j: int)
    requires 0 <= j < |categories| && Quantity(quantities, categories[j].categoryId) > 0
    ensures Line(zone, categories[j], Quantity(quantities, categories[j].categoryId)) in ZoneLines(zone, categories, quantities)
  {
    if j < |categories| - 1 {
      PositiveCategoryHasLine(zone, categories[..|categories| - 1], quantities, j);
    }
  }

  /** The item total of the cart grows by exactly totalAdded. */
  lemma {:induction false} AddedAllTotalItems(items: seq<CartStore.CartItem>, event: MappedEvent, lines: seq<Line>)
    ensures CartStore.TotalItems(AddedAll(items, event, lines)) == CartStore.TotalItems(items) + LinesCount(lines)
  {
    if lines != [] {
      var l := lines[|lines| - 1];
      AddedAllTotalItems(items, event, lines[..|lines| - 1]);
      CartStore.TotalItemsAfterAdd(AddedAll(items, event, lines[..|lines| - 1]), ItemOf(event, l.zone, l.category), l.quantity);
    }
  }

  lemma {:induction false} AddedAllAppend(items: seq<CartStore.CartItem>, event: MappedEvent, lines: seq<Line>, l: Line)
    ensures AddedAll(items, event, lines + [l])
         == CartStore.Added(AddedAll(items, event, lines), ItemOf(event, l.zone, l.category), l.quantity)
    ensures LinesCount(lines + [l]) == LinesCount(lines) + l.quantity
    ensures LinesPrice(lines + [l]) == LinesPrice(lines) + l.category.amount * l.quantity
  {
    assert (lines + [l])[..|lines|] == lines;
  }

  lemma LinesPriceSnoc(lines: seq<Line>, l: Line)
    ensures LinesPrice(lines + [l]) == LinesPrice(lines) + l.category.amount * l.quantity
  {
    assert (lines + [l])[..|lines|] == lines;
  }

  lemma {:induction false} AddedAllConcat(items: seq<CartStore.CartItem>, event: MappedEvent, a: seq<Line>, b: seq<Line>)
    ensures AddedAll(items, event, a + b) == AddedAll(AddedAll(items, event, a), event, b)
    ensures LinesCount(a + b) == LinesCount(a) + LinesCount(b)
    decreases |b|
  {
    if b == [] {
      assert a + b == a;
    } else {
      var l := b[|b| - 1];
      var b' := b[..|b| - 1];
      assert a + b == (a + b') + [l];
      assert b == b' + [l];
      AddedAllConcat(items, event, a, b');
      AddedAllAppend(items, event, a + b', l);
      AddedAllAppend(AddedAll(items, event, a), event, b', l);
    }
  }

  // ---------------------------------------------------------------------
  // getTotalPrice

  function ZonePrice(categories: seq<Category>, quantities: map<int, int>): int {
    if categories == [] then 0
    else
      var c := categories[|categories| - 1];
      ZonePrice(categories[..|categories| - 1], quantities) + Quantity(quantities, c.categoryId) * c.amount
  }

  /** getTotalPrice: `quantity * amount` over all categories of all zones,
      a missing quantity counting 0. */
  function SelectorPrice(zones: seq<Zone>, quantities: map<int, int>): int {
    if zones == [] then 0
    else SelectorPrice(zones[..|zones| - 1], quantities) + ZonePrice(zones[|zones| - 1].categories, quantities)
  }

  lemma {:induction false} LinesPriceConcat(a: seq<Line>, b: seq<Line>)
    ensures LinesPrice(a + b) == LinesPrice(a) + LinesPrice(b)
    decreases |b|
  {
    if b == [] {
      assert a + b == a;
    } else {
      var l := b[|b| - 1];
      var b' := b[..|b| - 1];
      assert a + b == (a + b') + [l];
      assert b == b' + [l];
      LinesPriceConcat(a, b');
      LinesPriceSnoc(a + b', l);
      LinesPriceSnoc(b', l);
    }
  }

  /** The displayed total is the price of what "add to cart" adds. */
  lemma {:induction false} SelectorPriceIsLinesPrice(zones: seq<Zone>, quantities: map<int, int>)
    requires NonNegative(quantities)
    ensures SelectorPrice(zones, quantities) == LinesPrice(Selection(zones, quantities))
  {
    if zones != [] {
      var z := zones[|zones| - 1];
      SelectorPriceIsLinesPrice(zones[..|zones| - 1], quantities);
      ZonePriceIsLinesPrice(z, z.categories, quantities);
      LinesPriceConcat(Selection(zones[..|zones| - 1], quantities), ZoneLines(z, z.categories, quantities));
    }
  }

  lemma {:induction false} ZonePriceIsLinesPrice(zone: Zone, categories: seq<Category>, quantities: map<int, int>)
    requires NonNegative(quantities)
    ensures ZonePrice(categories, quantities) == LinesPrice(ZoneLines(zone, categories, quantities))
  {
    if categories != [] {
      var c := categories[|categories| - 1];
      var q := Quantity(quantities, c.categoryId);
      var rest := ZoneLines(zone, categories[..|categories| - 1], quantities);
      ZonePriceIsLinesPrice(zone, categories[..|categories| - 1], quantities);
      if q > 0 {
        var l := Line(zone, c, q);
        LinesPriceSnoc(rest, l);
        assert ZoneLines(zone, categories, quantities) == rest + [l];
        assert l.category.amount * l.quantity == q * c.amount;
      } else {
        assert q == 0;
        assert ZoneLines(zone, categories, quantities) == rest + [] == rest;
      }
    }
  }

  /** The selector's state: the event it shows and the `quantities` and
      `showSuccess` state variables. */
  class Selector {
    const event: MappedEvent
    var quantities: map<int, int>
    var showSuccess: bool

    constructor (event: MappedEvent)
      ensures this.event == event && quantities == map[] && !showSuccess
    {
      this.event := event;
      quantities := map[];
      showSuccess := false;
    }

    method ChangeQuantity(categoryId: int, delta: int)
      modifies this
      ensures quantities == QuantityChanged(old(quantities), categoryId, delta)
      ensures showSuccess == old(showSuccess)
    {
      quantities := QuantityChanged(quantities, categoryId, delta);
    }

    /** The inner `zone.categories.forEach` of handleAddToCart: one addItem
        per category of the zone with a positive quantity, in order. */
    method AddZone(cart: CartStore.Cart, zone: Zone) returns (added: int)
      requires cart.Persisted()
      modifies cart
      ensures cart.items == AddedAll(old(cart.items), event, ZoneLines(zone, zone.categories, quantities))
      ensures cart.Persisted()
      ensures added == LinesCount(ZoneLines(zone, zone.categories, quantities))
    {
      added := 0;
      ghost var start := cart.items;
      var ci := 0;
      assert zone.categories[..0] == [];
      while ci < |zone.categories|
        invariant 0 <= ci <= |zone.categories|
        invariant cart.items == AddedAll(start, event, ZoneLines(zone, zone.categories[..ci], quantities))
        invariant cart.Persisted()
        invariant added == LinesCount(ZoneLines(zone, zone.categories[..ci], quantities))
      {
        var category := zone.categories[ci];
        var quantity := Quantity(quantities, category.categoryId);
        ghost var done := ZoneLines(zone, zone.categories[..ci], quantities);
        ZoneLinesSnoc(zone, zone.categories, ci, quantities, done);
        if quantity > 0 {
          AddedAllAppend(start, event, done, Line(zone, category, quantity));
          cart.AddItem(ItemOf(event, zone, category), quantity);
          added := added + quantity;
        }
        ci := ci + 1;
      }
      assert zone.categories[..ci] == zone.categories;
    }

    /** handleAddToCart: one addItem per category with a positive quantity,
        zone by zone and category by category; the quantities are reset (and
        the success banner shown) only when something was added. */
    method AddToCart(cart: CartStore.Cart) returns (totalAdded: int)
      requires cart.Persisted()
      modifies this, cart
      ensures cart.items == AddedAll(old(cart.items), event, Selection(Zones(event), old(quantities)))
      ensures cart.Persisted()
      ensures totalAdded == LinesCount(Selection(Zones(event), old(quantities)))
      ensures quantities == if totalAdded > 0 then map[] else old(quantities)
      ensures showSuccess == (totalAdded > 0 || old(showSuccess))
    {
      totalAdded := 0;
      var zones := Zones(event);
      ghost var start := cart.items;
      var zi := 0;
      while zi < |zones|
        invariant 0 <= zi <= |zones|
        invariant quantities == old(quantities) && showSuccess == old(showSuccess)
        invariant cart.items == AddedAll(start, event, Selection(zones[..zi], quantities))
        invariant cart.Persisted()
        invariant totalAdded == LinesCount(Selection(zones[..zi], quantities))
      {
        var zone := zones[zi];
        ghost var before := Selection(zones[..zi], quantities);
        ghost var mid := cart.items;
        var added := AddZone(cart, zone);
        AddedAllConcat(start, event, before, ZoneLines(zone, zone.categories, quantities));
        totalAdded := totalAdded + added;
        assert zones[..zi + 1][..zi] == zones[..zi];
        zi := zi + 1;
      }
      assert zones[..zi] == zones;
      if totalAdded > 0 {
        showSuccess := true;
        quantities := map[];
      }
    }

    /** getTotalPrice, accumulating `total += quantity * amount`. */
    method TotalPrice() returns (total: int)
      ensures total == SelectorPrice(Zones(event), quantities)
    {
      total := 0;
      var zones := Zones(event);
      for zi := 0 to |zones|
        invariant total == SelectorPrice(zones[..zi], quantities)
      {
        var zone := zones[zi];
        ghost var before := total;
        for ci := 0 to |zone.categories|
          invariant total == before + ZonePrice(zone.categories[..ci], quantities)
        {
          var category := zone.categories[ci];
          assert zone.categories[..ci + 1][..ci] == zone.categories[..ci];
          total := total + Quantity(quantities, category.categoryId) * category.amount;
        }
        assert zone.categories[..|zone.categories|] == zone.categories;
        assert zones[..zi + 1][..zi] == zones[..zi];
      }
      assert zones[..|zones|] == zones;
    }
  }
}

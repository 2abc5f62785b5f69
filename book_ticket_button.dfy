/** The booking panel beside an event (components/events/BookTicketButton.tsx):
    the price range, the count of free seats, the booking link and the list
    of categories with their prices. */
module BookTicketButton {
  import opened Wrappers
  import opened ProviderTypes
  import opened PriceList
  import opened Text

  /** Number.prototype.toFixed(2) of an amount held in centimes. */
  function Fixed2(centimes: int): (r: string)
    ensures |r| >= 4 && r[|r| - 3] == '.'
    ensures (r[0] == '-') <==> centimes < 0
  {
    var a := if centimes < 0 then -centimes else centimes;
    (if centimes < 0 then "-" else "") + UnsignedFixed2(a)
  }

  /** Reading a toFixed(2) text back as centimes. */
  function Fixed2Value(r: string): int
    requires |r| >= 4
  {
    var body := if r[0] == '-' then r[1..] else r;
    var magnitude := if |body| < 3 then 0 else DigitsValue(body[..|body| - 3]) * 100 + DigitsValue(body[|body| - 2..]);
    if r[0] == '-' then -magnitude else magnitude
  }

  /** toFixed(2) shows an amount to the centime: the text reads back as the
      same amount. */
  lemma Fixed2RoundTrip(centimes: int)
    ensures Fixed2Value(Fixed2(centimes)) == centimes
  {
    var a := if centimes < 0 then -centimes else centimes;
    var body := UnsignedFixed2(a);
    Fixed2Magnitude(a);
    var r := Fixed2(centimes);
    assert r == (if centimes < 0 then "-" else "") + body;
    assert (if r[0] == '-' then r[1..] else r) == body;
  }

  /** The text toFixed(2) writes after the sign. */
  function UnsignedFixed2(a: nat): string {
    Digits(a / 100) + "." + [DigitChar(a % 100 / 10), DigitChar(a % 10)]
  }

  /** The whole part and the two decimals read back as the amount. */
  lemma Fixed2Magnitude(a: nat)
    ensures var body := UnsignedFixed2(a);
            |body| >= 4 && DigitsValue(body[..|body| - 3]) * 100 + DigitsValue(body[|body| - 2..]) == a
  {
    var q := a / 100;
    var tail := [DigitChar(a % 100 / 10), DigitChar(a % 10)];
    assert a % 10 == a % 100 % 10;
    TwoDigitsValue(a % 100);
    var body := UnsignedFixed2(a);
    assert body[..|body| - 3] == Digits(q);
    assert body[|body| - 2..] == tail;
    DigitsRoundTrip(q);
    assert q * 100 + a % 100 == a;
  }

  /** Two digit characters read back as the number they spell. */
  lemma TwoDigitsValue(x: int)
    requires 0 <= x < 100
    ensures DigitsValue([DigitChar(x / 10), DigitChar(x % 10)]) == x
  {
    var t := [DigitChar(x / 10), DigitChar(x % 10)];
    assert t[..1] == [DigitChar(x / 10)];
    assert [DigitChar(x / 10)][..0] == [];
    assert DigitValue(DigitChar(x / 10)) == x / 10;
    assert DigitValue(DigitChar(x % 10)) == x % 10;
    assert DigitsValue(t) == DigitsValue(t[..1]) * 10 + x % 10;
    assert DigitsValue(t[..1]) == x / 10;
    assert (x / 10) * 10 + x % 10 == x;
  }

  /** `${bound.toFixed(2)}`, with JavaScript's texts for the infinities
      that Math.min and Math.max return on an empty list. */
  function BoundText(b: Bound): string {
    match b
    case Finite(v) => Fixed2(v)
    case PlusInfinity => "Infinity"
    case MinusInfinity => "-Infinity"
  }

  /** What getPriceRange decides before formatting. */
  datatype PriceLabel = SinglePrice(low: Bound) | PriceSpan(low: Bound, high: Bound)

  /** getPriceRange without the formatting: null without zones, otherwise
      the least and the greatest category amount of all zones (one price
      when they are equal). */
  function PriceRangeLabel(event: MappedEvent): (r: Option<PriceLabel>)
    ensures r.None? <==> event.zones.None? || event.zones.value == []
  {
    if event.zones.None? || event.zones.value == [] then None
    else
      var prices := AllAmounts(event.zones.value);
      var low := MathMin(prices);
      var high := MathMax(prices);
      if low == high then Some(SinglePrice(low)) else Some(PriceSpan(low, high))
  }

  /** The text shown: `CHF <min>` or `CHF <min> - <max>`. */
  function PriceRangeText(range: PriceLabel): string {
    match range
    case SinglePrice(low) => "CHF " + BoundText(low)
    case PriceSpan(low, high) => "CHF " + BoundText(low) + " - " + BoundText(high)
  }

  /** The range covers every category amount, and both of its ends are
      amounts some category has; a single price is shown exactly when every
      amount is the same. */
  lemma PriceRangeIsTight(event: MappedEvent)
    requires event.zones.Some? && AllAmounts(event.zones.value) != []
    ensures var prices := AllAmounts(event.zones.value);
      match PriceRangeLabel(event)
      case Some(SinglePrice(low)) =>
        low.Finite? && forall k :: 0 <= k < |prices| ==> prices[k] == low.value
      case Some(PriceSpan(low, high)) =>
        low.Finite? && high.Finite? && low.value < high.value
        && low.value in prices && high.value in prices
        && forall k :: 0 <= k < |prices| ==> low.value <= prices[k] <= high.value
      case None => false
  {
  }

  /** Zones without a single category make Math.min and Math.max see an empty
      list: the panel then reads "CHF Infinity - -Infinity". */
  lemma NoCategoryShowsInfinities(event: MappedEvent)
    requires event.zones.Some? && event.zones.value != []
    requires forall i :: 0 <= i < |event.zones.value| ==> event.zones.value[i].categories == []
    ensures PriceRangeLabel(event) == Some(PriceSpan(PlusInfinity, MinusInfinity))
    ensures PriceRangeText(PriceRangeLabel(event).value) == "CHF Infinity - -Infinity"
  {
    AllAmountsEmpty(event.zones.value);
  }

  /** The range as it was evidently meant: no range when there is no price. */
  function IntendedPriceRangeLabel(event: MappedEvent): (r: Option<PriceLabel>)
    ensures r.None? <==> event.zones.None? || AllAmounts(event.zones.value) == []
    ensures r.Some? ==> r.value.low.Finite? && (r.value.PriceSpan? ==> r.value.high.Finite?)
  {
    if event.zones.None? || AllAmounts(event.zones.value) == [] then None
    else PriceRangeLabel(event)
  }

  /** Where there is a price both agree; an infinity is never shown. */
  lemma IntendedPriceRangeAgrees(event: MappedEvent)
    requires event.zones.Some? && AllAmounts(event.zones.value) != []
    ensures IntendedPriceRangeLabel(event) == PriceRangeLabel(event)
  {
  }

  function ZoneSeats(categories: seq<Category>): int {
    if categories == [] then 0 else ZoneSeats(categories[..|categories| - 1]) + categories[|categories| - 1].freeSeats
  }

  /** getTotalAvailableSeats: free seats summed over all categories of all
      zones; 0 without zones. */
  function TotalAvailableSeats(zones: seq<Zone>): int {
    if zones == [] then 0 else TotalAvailableSeats(zones[..|zones| - 1]) + ZoneSeats(zones[|zones| - 1].categories)
  }

  predicate NoNegativeSeats(zones: seq<Zone>) {
    forall i, j :: 0 <= i < |zones| && 0 <= j < |zones[i].categories| ==> zones[i].categories[j].freeSeats >= 0
  }

  predicate SomeFreeSeat(zones: seq<Zone>) {
    exists i, j :: 0 <= i < |zones| && 0 <= j < |zones[i].categories| && zones[i].categories[j].freeSeats > 0
  }

  lemma {:induction false} ZoneSeatsPositive(categories: seq<Category>)
    requires forall j :: 0 <= j < |categories| ==> categories[j].freeSeats >= 0
    ensures ZoneSeats(categories) >= 0
    ensures ZoneSeats(categories) > 0 <==> exists j :: 0 <= j < |categories| && categories[j].freeSeats > 0
  {
    if categories != [] {
      var init := categories[..|categories| - 1];
      ZoneSeatsPositive(init);
      if ZoneSeats(categories) == 0 {
        assert forall j :: 0 <= j < |init| ==> init[j] == categories[j];
      } else {
        assert ZoneSeats(init) > 0 ==> exists j :: 0 <= j < |init| && init[j].freeSeats > 0;
      }
    }
  }

  /** With no negative seat count, the "seats available" line appears exactly
      when some category still has a free seat. */
  lemma {:induction false} AvailableSeatsShownIffFreeSeat(zones: seq<Zone>)
    requires NoNegativeSeats(zones)
    ensures TotalAvailableSeats(zones) >= 0
    ensures TotalAvailableSeats(zones) > 0 <==> SomeFreeSeat(zones)
  {
    if zones != [] {
      var init := zones[..|zones| - 1];
      var last := zones[|zones| - 1];
      assert forall i :: 0 <= i < |init| ==> init[i] == zones[i];
      AvailableSeatsShownIffFreeSeat(init);
      ZoneSeatsPositive(last.categories);
      if SomeFreeSeat(zones) {
        var i, j :| 0 <= i < |zones| && 0 <= j < |zones[i].categories| && zones[i].categories[j].freeSeats > 0;
        if i < |init| {
          assert SomeFreeSeat(init);
        }
      }
      if SomeFreeSeat(init) {
        var i, j :| 0 <= i < |init| && 0 <= j < |init[i].categories| && init[i].categories[j].freeSeats > 0;
        assert zones[i].categories[j].freeSeats > 0;
      }
      if ZoneSeats(last.categories) > 0 {
        var j :| 0 <= j < |last.categories| && last.categories[j].freeSeats > 0;
        assert zones[|zones| - 1].categories[j].freeSeats > 0;
      }
    }
  }

  /** The link of the booking button. */
  function BookingHref(event: MappedEvent): (r: string)
    ensures StartsWith(r, "/events/") && |r| == |event.id| + 13
    ensures r[8..|r| - 5] == event.id && r[|r| - 5..] == "/book"
  {
    "/events/" + event.id + "/book"
  }

  /** One row of the category list: its name and its `CHF <amount>`. */
  datatype PriceRow = PriceRow(name: string, price: string)

  function PriceRows(categories: seq<Category>): (r: seq<PriceRow>)
    ensures |r| == |categories|
    ensures forall j :: 0 <= j < |r| ==> r[j] == PriceRow(categories[j].name, "CHF " + Fixed2(categories[j].amount))
  {
    seq(|categories|, j requires 0 <= j < |categories| => PriceRow(categories[j].name, "CHF " + Fixed2(categories[j].amount)))
  }

  /** Each row names its category and shows `CHF ` and a price text that
      reads back as the category's amount. */
  lemma PriceRowReadsBack(categories: seq<Category>, j: int)
    requires 0 <= j < |categories|
    ensures var row := PriceRows(categories)[j];
            row.name == categories[j].name && StartsWith(row.price, "CHF ")
            && Fixed2Value(row.price[4..]) == categories[j].amount
  {
    var text := Fixed2(categories[j].amount);
    assert PriceRows(categories)[j].price == "CHF " + text;
    assert ("CHF " + text)[4..] == text;
    assert ("CHF " + text)[..4] == "CHF ";
    Fixed2RoundTrip(categories[j].amount);
  }

  /** The list heading of one zone: its name, its colour and its rows. */
  datatype ZoneBlock = ZoneBlock(name: string, color: string, rows: seq<PriceRow>)

  /** What the panel shows. */
  datatype Panel =
    | SoldOutNotice
    | Offer(priceRange: Option<string>, availableSeats: Option<int>, href: string, blocks: Option<seq<ZoneBlock>>)

  /** The rendered panel: a sold-out notice, or the offer with the price
      range when there is one, the seat count when it is positive, the
      booking link and, when there are zones, the category list. */
  function Render(event: MappedEvent): (r: Panel)
    ensures r == SoldOutNotice <==> SoldOut(event)
    ensures r.Offer? ==> r.href == BookingHref(event)
    ensures r.Offer? ==> (r.priceRange.Some? <==> event.zones.Some? && event.zones.value != [])
    ensures r.Offer? && r.availableSeats.Some? ==> r.availableSeats.value > 0
    ensures r.Offer? && event.zones.Some? && NoNegativeSeats(event.zones.value) ==>
              (r.availableSeats.Some? <==> SomeFreeSeat(event.zones.value))
    ensures r.Offer? && r.blocks.Some? ==> |r.blocks.value| == |event.zones.GetOr([])|
    ensures r.Offer? ==>
              r.priceRange == if PriceRangeLabel(event).Some? then Some(PriceRangeText(PriceRangeLabel(event).value)) else None
    ensures r.Offer? ==>
              r.availableSeats == if TotalAvailableSeats(event.zones.GetOr([])) > 0
                                  then Some(TotalAvailableSeats(event.zones.GetOr([]))) else None
    ensures r.Offer? ==> (r.blocks.Some? <==> event.zones.GetOr([]) != [])
    ensures r.Offer? && r.blocks.Some? ==>
              forall i :: 0 <= i < |r.blocks.value| ==>
                var zone := event.zones.GetOr([])[i];
                r.blocks.value[i] == ZoneBlock(zone.name, "#" + zone.bgColor, PriceRows(zone.categories))
  {
    if SoldOut(event) then SoldOutNotice
    else
      var range := PriceRangeLabel(event);
      var zones := event.zones.GetOr([]);
      var seats := TotalAvailableSeats(zones);
      assert NoNegativeSeats(zones) ==> (seats > 0 <==> SomeFreeSeat(zones)) by {
        if NoNegativeSeats(zones) { AvailableSeatsShownIffFreeSeat(zones); }
      }
      Offer(
        if range.Some? then Some(PriceRangeText(range.value)) else None,
        if seats > 0 then Some(seats) else None,
        BookingHref(event),
        if zones != [] then
          Some(seq(|zones|, i requires 0 <= i < |zones| =>
            ZoneBlock(zones[i].name, "#" + zones[i].bgColor, PriceRows(zones[i].categories))))
        else None)
  }
}

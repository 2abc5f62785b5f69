/** The ticketing provider's records and the site's mapped event, as
    datatypes. Prices are integer centimes; coordinates and all other
    JavaScript numbers are integers. */
module ProviderTypes {
  import opened Wrappers

  /** 'visible' | 'full' */
  datatype Status = Visible | Full

  /** 'visible' | 'hidden' */
  datatype PropertyStatus = Shown | Hidden

  /** A JavaScript number that may be infinite: Math.min and Math.max of no
      arguments give +Infinity and -Infinity. */
  datatype Bound = Finite(value: int) | PlusInfinity | MinusInfinity

  datatype Geo = Geo(title: Option<string>, placeId: Option<string>, latitude: int, longitude: int)

  datatype Address = Address(
    id: int,
    title: string,
    street: Option<string>,
    number: Option<string>,
    zipcode: string,
    city: string,
    country: string,
    google: Geo)

  datatype EventProperty = EventProperty(name: string, value: string, status: PropertyStatus)

  datatype Event = Event(
    eventId: int,
    name: string,
    description: string,
    start: string,
    date: string,
    category: string,
    status: Status,
    capacity: Option<int>,
    portal: string,
    portalHorizontal: string,
    thumbnail: string,
    portalLinkPreview: string,
    address: Address,
    properties: Option<seq<EventProperty>>)

  datatype Category = Category(
    categoryId: int,
    name: string,
    status: Status,
    amount: int,
    freeSeats: int,
    limit: Option<int>)

  datatype Zone = Zone(
    zoneId: int,
    name: string,
    status: Status,
    bgColor: string,
    freeSeats: int,
    totalSeats: int,
    categories: seq<Category>)

  /** 'concert' | 'theatre' | 'exposition' | 'autre' */
  datatype AppCategory = Concert | Theatre | Exposition | Autre

  datatype LatLng = LatLng(lat: int, lng: int)

  datatype Venue = Venue(
    name: string,
    address: string,
    city: string,
    country: string,
    coordinates: Option<LatLng>)

  datatype MappedEvent = MappedEvent(
    id: string,
    title: string,
    description: string,
    date: string,
    location: string,
    image: Option<string>,
    price: Bound,
    category: AppCategory,
    capacity: Option<int>,
    status: Status,
    ticketUrl: Option<string>,
    venue: Venue,
    properties: Option<map<string, string>>,
    zones: Option<seq<Zone>>)

  /** `event.status === 'full'`: the event page shows "sold out" instead of
      ticket controls. */
  predicate SoldOut(event: MappedEvent) {
    event.status == Full
  }
}

/** The price list of an event: `zones.flatMap(z => z.categories.map(c =>
    c.amount))` and Math.min / Math.max spread over it. */
module PriceList {
  import opened ProviderTypes

  function CategoryAmounts(categories: seq<Category>): (r: seq<int>)
    ensures |r| == |categories|
    ensures forall j :: 0 <= j < |categories| ==> r[j] == categories[j].amount
  {
    seq(|categories|, j requires 0 <= j < |categories| => categories[j].amount)
  }

  function AllAmounts(zones: seq<Zone>): seq<int> {
    if zones == [] then [] else CategoryAmounts(zones[0].categories) + AllAmounts(zones[1..])
  }

  /** Every category amount of every zone is in the price list. */
  lemma {:induction false} AmountInAllAmounts(zones: seq<Zone>, i: int, j: int)
    requires 0 <= i < |zones| && 0 <= j < |zones[i].categories|
    ensures zones[i].categories[j].amount in AllAmounts(zones)
  {
    if i > 0 {
      AmountInAllAmounts(zones[1..], i - 1, j);
    } else {
      assert CategoryAmounts(zones[0].categories)[j] == zones[0].categories[j].amount;
    }
  }

  /** And nothing else is. */
  lemma {:induction false} AllAmountsFromCategories(zones: seq<Zone>, a: int)
    requires a in AllAmounts(zones)
    ensures exists i, j :: 0 <= i < |zones| && 0 <= j < |zones[i].categories|
                           && zones[i].categories[j].amount == a
  {
    if a in CategoryAmounts(zones[0].categories) {
      var j :| 0 <= j < |zones[0].categories| && CategoryAmounts(zones[0].categories)[j] == a;
      assert zones[0].categories[j].amount == a;
    } else {
      AllAmountsFromCategories(zones[1..], a);
      var i, j :| 0 <= i < |zones[1..]| && 0 <= j < |zones[1..][i].categories|
                  && zones[1..][i].categories[j].amount == a;
      assert zones[i + 1].categories[j].amount == a;
    }
  }

  /** The price list is empty exactly when no zone has a category. */
  lemma {:induction false} AllAmountsEmpty(zones: seq<Zone>)
    ensures AllAmounts(zones) == [] <==> forall i :: 0 <= i < |zones| ==> zones[i].categories == []
  {
    if zones != [] {
      AllAmountsEmpty(zones[1..]);
      assert forall i :: 1 <= i < |zones| ==> zones[i] == zones[1..][i - 1];
    }
  }

  /** Math.min(...s). */
  function MathMin(s: seq<int>): (r: Bound)
    ensures s == [] <==> r == PlusInfinity
    ensures s != [] ==> r.Finite? && r.value in s && forall k :: 0 <= k < |s| ==> r.value <= s[k]
  {
    if s == [] then PlusInfinity
    else
      var rest := MathMin(s[1..]);
      if rest.Finite? && rest.value < s[0] then rest else Finite(s[0])
  }

  /** Math.max(...s). */
  function MathMax(s: seq<int>): (r: Bound)
    ensures s == [] <==> r == MinusInfinity
    ensures s != [] ==> r.Finite? && r.value in s && forall k :: 0 <= k < |s| ==> s[k] <= r.value
  {
    if s == [] then MinusInfinity
    else
      var rest := MathMax(s[1..]);
      if rest.Finite? && rest.value > s[0] then rest else Finite(s[0])
  }
}

/** The event mapping and the events query of lib/infomaniak.ts: the
    category classifier, the lowest price, mapEventToApp and the query
    string getEvents builds. The fetches themselves are not modelled. */
module Infomaniak {
  import opened Wrappers
  import opened Text
  import opened Uri
  import opened ProviderTypes
  import opened PriceList
  import opened Maps

  // ---------------------------------------------------------------------
  // mapCategory

  const ConcertWords: seq<string> := ["concert", "music", "rock", "electro", "jazz"]
  const TheatreWords: seq<string> := ["th\U{E9}\U{E2}tre", "theater", "spectacle"]
  const ExpositionWords: seq<string> := ["exposition", "exhibition", "galerie"]

  /** Some keyword of the list occurs in the text. */
  predicate MentionsAny(text: string, words: seq<string>) {
    exists k :: 0 <= k < |words| && Contains(text, words[k])
  }

  /** mapCategory: the lower-cased category is matched against the concert,
      theatre and exposition keywords in that order; anything else is
      'autre'. */
  function MapCategory(category: string): (r: AppCategory)
    ensures r == Concert <==> MentionsAny(Lower(category), ConcertWords)
    ensures r == Theatre <==> !MentionsAny(Lower(category), ConcertWords) && MentionsAny(Lower(category), TheatreWords)
    ensures r == Autre <==> !MentionsAny(Lower(category), ConcertWords) && !MentionsAny(Lower(category), TheatreWords)
                            && !MentionsAny(Lower(category), ExpositionWords)
  {
    var lower := Lower(category);
    if MentionsAny(lower, ConcertWords) then Concert
    else if MentionsAny(lower, TheatreWords) then Theatre
    else if MentionsAny(lower, ExpositionWords) then Exposition
    else Autre
  }

  /** The classifier ignores case: lower-casing first changes nothing. */
  lemma MapCategoryIgnoresCase(category: string)
    ensures MapCategory(Lower(category)) == MapCategory(category)
  {
    LowerIdempotent(category);
  }

  /** The priority order, concert first and 'autre' last. */
  function Priority(c: AppCategory): int {
    match c
    case Concert => 0
    case Theatre => 1
    case Exposition => 2
    case Autre => 3
  }

  lemma MentionsAnyInAppend(a: string, b: string, words: seq<string>)
    ensures MentionsAny(Lower(a), words) ==> MentionsAny(Lower(a + b), words)
    ensures MentionsAny(Lower(b), words) ==> MentionsAny(Lower(a + b), words)
  {
    LowerAppend(a, b);
    if MentionsAny(Lower(a), words) {
      var k :| 0 <= k < |words| && Contains(Lower(a), words[k]);
      ContainsInAppend(Lower(a), Lower(b), words[k]);
    }
    if MentionsAny(Lower(b), words) {
      var k :| 0 <= k < |words| && Contains(Lower(b), words[k]);
      ContainsInAppend(Lower(a), Lower(b), words[k]);
    }
  }

  /** More text can only raise a category's rank: a keyword of a higher
      class wins wherever it stands, so "jazz spectacle" is a concert. */
  lemma MapCategoryPriority(a: string, b: string)
    ensures Priority(MapCategory(a + b)) <= Priority(MapCategory(a))
    ensures Priority(MapCategory(a + b)) <= Priority(MapCategory(b))
  {
    MentionsAnyInAppend(a, b, ConcertWords);
    MentionsAnyInAppend(a, b, TheatreWords);
    MentionsAnyInAppend(a, b, ExpositionWords);
  }

  lemma JazzSpectacleIsConcert()
    ensures MapCategory("Jazz spectacle") == Concert
  {
    assert Lower("Jazz spectacle")[0..4] == "jazz";
    assert OccursAt(Lower("Jazz spectacle"), ConcertWords[4], 0);
  }

  // ---------------------------------------------------------------------
  // getLowestPrice

  /** getLowestPrice: 0 for missing or empty zones, otherwise Math.min of
      every category amount (+Infinity if no zone has a category). */
  function LowestPrice(zones: Option<seq<Zone>>): (r: Bound)
    ensures zones.None? || zones.value == [] ==> r == Finite(0)
    ensures zones.Some? && zones.value != [] && AllAmounts(zones.value) == [] ==> r == PlusInfinity
  {
    if zones.None? || zones.value == [] then Finite(0) else MathMin(AllAmounts(zones.value))
  }

  /** When some category exists, the lowest price is the amount of one of
      them and at most every amount. */
  lemma LowestPriceIsLeast(zones: seq<Zone>)
    requires AllAmounts(zones) != []
    ensures LowestPrice(Some(zones)).Finite?
    ensures exists i, j :: 0 <= i < |zones| && 0 <= j < |zones[i].categories|
                           && zones[i].categories[j].amount == LowestPrice(Some(zones)).value
    ensures forall i, j :: 0 <= i < |zones| && 0 <= j < |zones[i].categories| ==>
                           LowestPrice(Some(zones)).value <= zones[i].categories[j].amount
  {
    AllAmountsEmpty(zones);
    var r := MathMin(AllAmounts(zones));
    AllAmountsFromCategories(zones, r.value);
    forall i, j | 0 <= i < |zones| && 0 <= j < |zones[i].categories|
      ensures r.value <= zones[i].categories[j].amount
    {
      AmountInAllAmounts(zones, i, j);
    }
  }

  // ---------------------------------------------------------------------
  // mapEventToApp

  /** The property `name` was last set, by a visible property, at index i. */
  predicate LastVisibleAt(props: seq<EventProperty>, name: string, i: int) {
    0 <= i < |props| && props[i].name == name && props[i].status == Shown
    && forall j :: i < j < |props| && props[j].name == name ==> props[j].status == Hidden
  }

  /** The one name that an assignment to a `{}` literal does not store: it
      runs the inherited `__proto__` setter, which ignores a string value. */
  const ProtoName: string := "__proto__"

  /** The forEach filling propertiesObj: each visible property sets its name
      to its value, so a later visible duplicate overrides an earlier one,
      hidden ones are skipped and `__proto__` creates no key. */
  method VisibleProperties(props: seq<EventProperty>) returns (obj: map<string, string>)
    ensures ProtoName !in obj
    ensures forall name :: name in obj <==>
              name != ProtoName && exists i :: 0 <= i < |props| && props[i].name == name && props[i].status == Shown
    ensures forall name :: name in obj ==> exists i :: LastVisibleAt(props, name, i) && obj[name] == props[i].value
  {
    obj := map[];
    for n := 0 to |props|
      invariant forall name :: name in obj <==>
                  name != ProtoName && exists i :: 0 <= i < n && props[i].name == name && props[i].status == Shown
      invariant forall name :: name in obj ==>
                  exists i :: (0 <= i < n && props[i].name == name && props[i].status == Shown
                               && obj[name] == props[i].value
                               && forall j :: i < j < n && props[j].name == name ==> props[j].status == Hidden)
    {
      if props[n].status == Shown && props[n].name != ProtoName {
        obj := obj[props[n].name := props[n].value];
      }
    }
  }

  /** An optional address part that `.filter(Boolean)` keeps. */
  predicate NonBlank(part: Option<string>) {
    part.Some? && part.value != ""
  }

  /** What `.filter(Boolean)` keeps of one part. */
  function KeptPart(part: Option<string>): seq<string> {
    if NonBlank(part) then [part.value] else []
  }

  function KeptParts(parts: seq<Option<string>>): (r: seq<string>)
    ensures |r| <= |parts|
    ensures forall k :: 0 <= k < |r| ==> r[k] != ""
  {
    if parts == [] then [] else KeptPart(parts[0]) + KeptParts(parts[1..])
  }

  /** Every non-blank part is kept, and nothing else is. */
  lemma {:induction false} KeptPartsMembers(parts: seq<Option<string>>)
    ensures forall k :: 0 <= k < |parts| && NonBlank(parts[k]) ==> parts[k].value in KeptParts(parts)
    ensures forall s :: s in KeptParts(parts) ==> exists j :: 0 <= j < |parts| && NonBlank(parts[j]) && parts[j].value == s
    decreases |parts|
  {
    if parts != [] {
      KeptPartsMembers(parts[1..]);
      assert forall k :: 1 <= k < |parts| ==> parts[k] == parts[1..][k - 1];
      forall s | s in KeptParts(parts)
        ensures exists j :: 0 <= j < |parts| && NonBlank(parts[j]) && parts[j].value == s
      {
        if s !in KeptParts(parts[1..]) {
          assert NonBlank(parts[0]) && s == parts[0].value;
        } else {
          var j :| 0 <= j < |parts[1..]| && NonBlank(parts[1..][j]) && parts[1..][j].value == s;
          assert parts[j + 1] == parts[1..][j];
        }
      }
    }
  }

  /** The filter keeps the order: filtering two lists one after the other is
      filtering their concatenation. */
  lemma {:induction false} KeptPartsAppend(p: seq<Option<string>>, q: seq<Option<string>>)
    ensures KeptParts(p + q) == KeptParts(p) + KeptParts(q)
    decreases |p|
  {
    if p != [] {
      assert (p + q)[0] == p[0];
      assert (p + q)[1..] == p[1..] + q;
      KeptPartsAppend(p[1..], q);
      assert KeptParts(p + q) == KeptPart(p[0]) + (KeptParts(p[1..]) + KeptParts(q));
    } else {
      assert p + q == q;
    }
  }

  /** The filter of one more part adds that part exactly when it is not
      blank. */
  lemma KeptPartsSnoc(p: seq<Option<string>>, x: Option<string>)
    ensures KeptParts(p + [x]) == KeptParts(p) + KeptPart(x)
  {
    KeptPartsAppend(p, [x]);
    assert [x][1..] == [];
  }

  /** venue.address: street, number, zipcode and city without the empty
      ones, joined by ", ". */
  function AddressLine(address: Address): string {
    Join(KeptParts([address.street, address.number, Some(address.zipcode), Some(address.city)]), ", ")
  }

  /** For every address: the non-blank parts among street, number, zipcode
      and city, in that order, joined by ", ". */
  lemma AddressLineRule(address: Address)
    ensures AddressLine(address)
         == Join(KeptPart(address.street) + KeptPart(address.number)
                 + KeptPart(Some(address.zipcode)) + KeptPart(Some(address.city)), ", ")
  {
    var ps := [address.street, address.number, Some(address.zipcode), Some(address.city)];
    assert ps[3..][1..] == [];
    assert KeptParts(ps[3..]) == KeptPart(Some(address.city));
    assert ps[2..][1..] == ps[3..];
    assert KeptParts(ps[2..]) == KeptPart(Some(address.zipcode)) + KeptParts(ps[3..]);
    assert ps[1..][1..] == ps[2..];
    assert KeptParts(ps[1..]) == KeptPart(address.number) + KeptParts(ps[2..]);
    assert KeptParts(ps) == KeptPart(address.street) + KeptParts(ps[1..]);
    assert KeptParts(ps) == KeptPart(address.street) + KeptPart(address.number)
                            + KeptPart(Some(address.zipcode)) + KeptPart(Some(address.city));
  }

  /** A full address reads "street, number, zipcode, city"; a missing street
      or number is dropped with its separator. */
  lemma AddressLineShapes(address: Address)
    ensures NonBlank(address.street) && NonBlank(address.number) && address.zipcode != "" && address.city != "" ==>
      AddressLine(address) == address.street.value + ", " + address.number.value + ", " + address.zipcode + ", " + address.city
    ensures !NonBlank(address.street) && !NonBlank(address.number) && address.zipcode != "" && address.city != "" ==>
      AddressLine(address) == address.zipcode + ", " + address.city
    ensures !NonBlank(address.street) && !NonBlank(address.number) && address.zipcode == "" && address.city == "" ==>
      AddressLine(address) == ""
  {
    AddressLineRule(address);
    var zip, city := address.zipcode, address.city;
    if NonBlank(address.street) && NonBlank(address.number) && zip != "" && city != "" {
      var all := [address.street.value, address.number.value, zip, city];
      assert [address.street.value] + [address.number.value] + [zip] + [city] == all;
      assert all[1..] == [address.number.value, zip, city];
      assert all[1..][1..] == [zip, city];
      assert all[1..][1..][1..] == [city];
      assert Join(all[1..][1..], ", ") == zip + ", " + city;
      assert Join(all[1..], ", ") == address.number.value + ", " + (zip + ", " + city);
      assert Join(all, ", ") == address.street.value + ", " + (address.number.value + ", " + (zip + ", " + city));
    } else if !NonBlank(address.street) && !NonBlank(address.number) && zip != "" && city != "" {
      assert [] + [] + [zip] + [city] == [zip, city];
      assert [zip, city][1..] == [city];
      assert Join([zip, city], ", ") == zip + ", " + city;
    } else if !NonBlank(address.street) && !NonBlank(address.number) && zip == "" && city == "" {
      assert KeptPart(address.street) + KeptPart(address.number) + KeptPart(Some(zip)) + KeptPart(Some(city)) == [];
    }
  }

  /** `a || b` on strings. */
  function OrText(a: string, b: string): (r: string)
    ensures r == (if a != "" then a else b)
  {
    if a != "" then a else b
  }

  /** The coordinates rule: both latitude and longitude truthy. */
  function Coordinates(geo: Geo): (r: Option<LatLng>)
    ensures r.Some? <==> geo.latitude != 0 && geo.longitude != 0
    ensures r.Some? ==> r.value == LatLng(geo.latitude, geo.longitude)
  {
    if geo.latitude != 0 && geo.longitude != 0 then Some(LatLng(geo.latitude, geo.longitude)) else None
  }

  /** mapEventToApp. `zones` is the optional second argument. */
  method MapEventToApp(event: Event, zones: Option<seq<Zone>>) returns (m: MappedEvent)
    ensures m.id == Decimal(event.eventId) && m.title == event.name && m.description == event.description
    ensures m.date == (if event.date != "" then event.date else event.start)
    ensures m.image == Some(if event.portalHorizontal != "" then event.portalHorizontal
                            else if event.portal != "" then event.portal else event.thumbnail)
    ensures m.location == event.address.title && m.category == MapCategory(event.category)
    ensures m.capacity == event.capacity && m.status == event.status && m.zones == zones
    ensures m.price == (if zones.Some? then LowestPrice(zones) else Finite(0))
    ensures m.venue == Venue(event.address.title, AddressLine(event.address), event.address.city,
                             event.address.country, Coordinates(event.address.google))
    ensures m.ticketUrl == (if event.portalLinkPreview != "" then Some(event.portalLinkPreview) else None)
    ensures event.properties.None? ==> m.properties.None?
    ensures event.properties.Some? ==>
      && (m.properties.None? <==> forall i :: 0 <= i < |event.properties.value| ==>
            event.properties.value[i].status == Hidden || event.properties.value[i].name == ProtoName)
      && (m.properties.Some? ==> ProtoName !in m.properties.value)
      && (m.properties.Some? ==> forall name :: name in m.properties.value ==>
            exists i :: LastVisibleAt(event.properties.value, name, i) && m.properties.value[name] == event.properties.value[i].value)
      && (m.properties.Some? ==> forall i :: (0 <= i < |event.properties.value| && event.properties.value[i].status == Shown
            && event.properties.value[i].name != ProtoName) ==> event.properties.value[i].name in m.properties.value)
  {
    var obj: map<string, string> := map[];
    if event.properties.Some? {
      obj := VisibleProperties(event.properties.value);
      if |obj| == 0 {
        EmptyHasNoKey(obj);
        forall i | 0 <= i < |event.properties.value|
          ensures event.properties.value[i].status == Hidden || event.properties.value[i].name == ProtoName
        {
          assert event.properties.value[i].name !in obj;
        }
      } else {
        HasKey(obj);
      }
    }
    m := MappedEvent(
      Decimal(event.eventId),
      event.name,
      event.description,
      OrText(event.date, event.start),
      event.address.title,
      Some(OrText(event.portalHorizontal, OrText(event.portal, event.thumbnail))),
      if zones.Some? then LowestPrice(zones) else Finite(0),
      MapCategory(event.category),
      event.capacity,
      event.status,
      if event.portalLinkPreview != "" then Some(event.portalLinkPreview) else None,
      Venue(event.address.title, AddressLine(event.address), event.address.city,
            event.address.country, Coordinates(event.address.google)),
      if |obj| > 0 then Some(obj) else None,
      zones);
  }

  // ---------------------------------------------------------------------
  // getEvents

  /** The optional parameters of getEvents. */
  datatype EventsParams = EventsParams(
    ids: Option<string>,
    search: Option<string>,
    limit: Option<int>,
    offset: Option<int>,
    withQuota: Option<bool>,
    withProperties: Option<bool>,
    sort: Option<string>)

  /** `if (value)` on an optional string. */
  predicate TruthyText(v: Option<string>) {
    v.Some? && v.value != ""
  }

  /** `if (value)` on an optional number (NaN is not modelled). */
  predicate TruthyNumber(v: Option<int>) {
    v.Some? && v.value != 0
  }

  function Flag(b: bool): string {
    if b then "1" else "0"
  }

  /** A parameter getEvents may append: its name, whether it is appended
      and the text appended. */
  datatype Candidate = Candidate(key: string, present: bool, value: string)

  /** The candidates in the order getEvents tests them. */
  function Candidates(p: EventsParams): seq<Candidate> {
    [ Candidate("ids", TruthyText(p.ids), p.ids.GetOr("")),
      Candidate("search", TruthyText(p.search), p.search.GetOr("")),
      Candidate("limit", TruthyNumber(p.limit), Decimal(p.limit.GetOr(0))),
      Candidate("offset", TruthyNumber(p.offset), Decimal(p.offset.GetOr(0))),
      Candidate("withQuota", p.withQuota.Some?, Flag(p.withQuota.GetOr(false))),
      Candidate("withProperties", p.withProperties.Some?, Flag(p.withProperties.GetOr(false))),
      Candidate("sort", TruthyText(p.sort), p.sort.GetOr("")) ]
  }

  /** The pairs appended, in order. */
  function Appended(cs: seq<Candidate>): seq<(string, string)> {
    if cs == [] then []
    else
      var c := cs[|cs| - 1];
      Appended(cs[..|cs| - 1]) + (if c.present then [(c.key, c.value)] else [])
  }

  lemma AppendedStep(cs: seq<Candidate>, k: int)
    requires 0 < k <= |cs|
    ensures Appended(cs[..k]) == Appended(cs[..k - 1]) + (if cs[k - 1].present then [(cs[k - 1].key, cs[k - 1].value)] else [])
  {
    assert cs[..k][..k - 1] == cs[..k - 1];
  }

  /** The position of a parameter name in the order above. */
  function Rank(key: string): int {
    if key == "ids" then 0
    else if key == "search" then 1
    else if key == "limit" then 2
    else if key == "offset" then 3
    else if key == "withQuota" then 4
    else if key == "withProperties" then 5
    else if key == "sort" then 6
    else 7
  }

  predicate StrictlyRanked(cs: seq<Candidate>) {
    forall i, j :: 0 <= i < j < |cs| ==> Rank(cs[i].key) < Rank(cs[j].key)
  }

  predicate Increasing(pairs: seq<(string, string)>) {
    forall i, j :: 0 <= i < j < |pairs| ==> Rank(pairs[i].0) < Rank(pairs[j].0)
  }

  /** The value stored under `key`, if any: URLSearchParams.get. */
  function Entry(pairs: seq<(string, string)>, key: string): Option<string> {
    if pairs == [] then None
    else if pairs[0].0 == key then Some(pairs[0].1)
    else Entry(pairs[1..], key)
  }

  lemma {:induction false} EntrySnoc(pairs: seq<(string, string)>, x: (string, string), key: string)
    ensures Entry(pairs + [x], key)
         == if Entry(pairs, key).Some? then Entry(pairs, key) else if x.0 == key then Some(x.1) else None
  {
    if pairs != [] {
      assert (pairs + [x])[1..] == pairs[1..] + [x];
      EntrySnoc(pairs[1..], x, key);
    }
  }

  lemma {:induction false} AppendedLacks(cs: seq<Candidate>, key: string)
    requires forall j :: 0 <= j < |cs| ==> cs[j].key != key
    ensures Entry(Appended(cs), key) == None
  {
    if cs != [] {
      var c := cs[|cs| - 1];
      AppendedLacks(cs[..|cs| - 1], key);
      if c.present {
        EntrySnoc(Appended(cs[..|cs| - 1]), (c.key, c.value), key);
      } else {
        assert Appended(cs) == Appended(cs[..|cs| - 1]);
      }
    }
  }

  /** When the names are in strict order, each name is stored with its
      value exactly when its candidate is appended. */
  lemma {:induction false} AppendedEntry(cs: seq<Candidate>, i: int)
    requires StrictlyRanked(cs) && 0 <= i < |cs|
    ensures Entry(Appended(cs), cs[i].key) == if cs[i].present then Some(cs[i].value) else None
  {
    var n := |cs| - 1;
    var init := cs[..n];
    var c := cs[n];
    var key := cs[i].key;
    if i == n {
      assert forall j :: 0 <= j < |init| ==> Rank(init[j].key) < Rank(key);
      AppendedLacks(init, key);
    } else {
      AppendedEntry(init, i);
      assert Rank(c.key) != Rank(key);
    }
    if c.present {
      EntrySnoc(Appended(init), (c.key, c.value), key);
    } else {
      assert Appended(cs) == Appended(init);
    }
  }

  /** The appended names keep the strict order. */
  lemma {:induction false} AppendedIncreasing(cs: seq<Candidate>)
    requires StrictlyRanked(cs)
    ensures Increasing(Appended(cs))
    ensures cs != [] ==> forall k :: 0 <= k < |Appended(cs)| ==> Rank(Appended(cs)[k].0) <= Rank(cs[|cs| - 1].key)
  {
    if cs != [] {
      var n := |cs| - 1;
      var init := cs[..n];
      AppendedIncreasing(init);
      var a := Appended(init);
      assert init != [] ==> Rank(init[n - 1].key) < Rank(cs[n].key);
      assert forall k :: 0 <= k < |a| ==> Rank(a[k].0) < Rank(cs[n].key);
    }
  }

  /** The candidates appended one after the other. */
  lemma CandidatesAppended(p: EventsParams)
    ensures Appended(Candidates(p))
         == [] + (if TruthyText(p.ids) then [("ids", p.ids.value)] else [])
               + (if TruthyText(p.search) then [("search", p.search.value)] else [])
               + (if TruthyNumber(p.limit) then [("limit", Decimal(p.limit.value))] else [])
               + (if TruthyNumber(p.offset) then [("offset", Decimal(p.offset.value))] else [])
               + (if p.withQuota.Some? then [("withQuota", Flag(p.withQuota.value))] else [])
               + (if p.withProperties.Some? then [("withProperties", Flag(p.withProperties.value))] else [])
               + (if TruthyText(p.sort) then [("sort", p.sort.value)] else [])
  {
    var cs := Candidates(p);
    assert cs[..0] == [];
    AppendedStep(cs, 1);
    AppendedStep(cs, 2);
    AppendedStep(cs, 3);
    AppendedStep(cs, 4);
    AppendedStep(cs, 5);
    AppendedStep(cs, 6);
    AppendedStep(cs, 7);
    assert cs[..7] == cs;
  }

  /** The pairs appended to the URLSearchParams. */
  function QueryPairs(params: Option<EventsParams>): seq<(string, string)> {
    if params.None? then [] else Appended(Candidates(params.value))
  }

  /** getEvents' query: strings and numbers are appended when truthy,
      booleans whenever given, as '1' or '0'; the names come in the fixed
      order ids, search, limit, offset, withQuota, withProperties, sort. */
  lemma QueryPairsContents(params: Option<EventsParams>)
    ensures Increasing(QueryPairs(params))
    ensures forall k :: 0 <= k < |QueryPairs(params)| ==> Rank(QueryPairs(params)[k].0) < 7
    ensures params.None? ==> QueryPairs(params) == []
    ensures params.Some? ==>
      var p := params.value;
      var pairs := QueryPairs(params);
      && Entry(pairs, "ids") == (if TruthyText(p.ids) then p.ids else None)
      && Entry(pairs, "search") == (if TruthyText(p.search) then p.search else None)
      && Entry(pairs, "limit") == (if TruthyNumber(p.limit) then Some(Decimal(p.limit.value)) else None)
      && Entry(pairs, "offset") == (if TruthyNumber(p.offset) then Some(Decimal(p.offset.value)) else None)
      && Entry(pairs, "withQuota") == (if p.withQuota.Some? then Some(Flag(p.withQuota.value)) else None)
      && Entry(pairs, "withProperties") == (if p.withProperties.Some? then Some(Flag(p.withProperties.value)) else None)
      && Entry(pairs, "sort") == (if TruthyText(p.sort) then p.sort else None)
  {
    if params.Some? {
      var cs := Candidates(params.value);
      assert StrictlyRanked(cs);
      AppendedIncreasing(cs);
      AppendedEntry(cs, 0);
      AppendedEntry(cs, 1);
      AppendedEntry(cs, 2);
      AppendedEntry(cs, 3);
      AppendedEntry(cs, 4);
      AppendedEntry(cs, 5);
      AppendedEntry(cs, 6);
    }
  }

  /** getEvents: the URLSearchParams filled step by step, then the path
      `/events`, with `?` and the serialized query only when something was
      appended. */
  method EventsPath(params: Option<EventsParams>) returns (path: string)
    ensures path == "/events" + (if QueryPairs(params) == [] then "" else "?" + SerializeQuery(QueryPairs(params)))
    ensures path == "/events" <==> QueryPairs(params) == []
  {
    var pairs: seq<(string, string)> := [];
    if params.Some? {
      var p := params.value;
      pairs := pairs + (if TruthyText(p.ids) then [("ids", p.ids.value)] else []);
      pairs := pairs + (if TruthyText(p.search) then [("search", p.search.value)] else []);
      pairs := pairs + (if TruthyNumber(p.limit) then [("limit", Decimal(p.limit.value))] else []);
      pairs := pairs + (if TruthyNumber(p.offset) then [("offset", Decimal(p.offset.value))] else []);
      pairs := pairs + (if p.withQuota.Some? then [("withQuota", Flag(p.withQuota.value))] else []);
      pairs := pairs + (if p.withProperties.Some? then [("withProperties", Flag(p.withProperties.value))] else []);
      pairs := pairs + (if TruthyText(p.sort) then [("sort", p.sort.value)] else []);
      CandidatesAppended(p);
    }
    var query := SerializeQuery(pairs);
    path := "/events" + (if query != "" then "?" + query else "");
  }
}

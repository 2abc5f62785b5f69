/** The order route (app/api/orders/create/route.ts): it checks the cart,
    groups the lines by event, creates an order at the ticketing provider
    for the first group, attaches its tickets, and then either registers a
    free payment operation or asks for a payment URL. Every provider call
    is answered by the `provider` function given as a parameter; the route
    returns its reply together with the calls it made, in order. */
module OrderCreate {
  import opened Wrappers
  import opened Text
  import opened Uri
  import opened JsValues
  import opened Http
  import CartStore

  type CartItem = CartStore.CartItem

  const CartEmptyMessage := "Cart is empty"
  const ServerErrorMessage := "Internal server error"
  const CreateFailedMessage := "Failed to create order with Infomaniak"
  const InvalidResponseMessage := "Invalid response from Infomaniak"
  const AttachFailedMessage := "Failed to add tickets to order"
  const AttachErrorMessage := "Error adding tickets to order"
  const PaymentInitFailedMessage := "Payment initialization failed, but order was created"
  const NoPaymentUrlMessage := "No payment URL received"
  const DefaultPaymentMethod := "card"
  const FreeModeWord := "gratuit"
  const CookieMaxAge := 86400 * 7

  /** The names every plain object inherits from Object.prototype: for such
      an event id `acc[item.eventId]` is already set, and the push on it
      throws. */
  const InheritedNames: set<string> := {
    "__proto__", "constructor", "hasOwnProperty", "isPrototypeOf",
    "propertyIsEnumerable", "toLocaleString", "toString", "valueOf",
    "__defineGetter__", "__defineSetter__", "__lookupGetter__", "__lookupSetter__"}

  datatype Customer = Customer(
    firstName: string,
    lastName: string,
    email: string,
    phone: string,
    address: string,
    city: string,
    postalCode: string,
    country: string)

  /** The parsed request body; None when `request.json()` fails or the body
      is null. A missing field is None. */
  datatype OrderRequest = OrderRequest(
    customer: Option<Customer>,
    items: Option<seq<CartItem>>,
    paymentMethod: Option<string>)

  /** `{ category_id, count }` */
  datatype TicketLine = TicketLine(categoryId: int, count: int)

  /** The customer record the provider expects. */
  datatype CustomerPayload = CustomerPayload(
    firstname: string,
    lastname: string,
    email: string,
    phone: string,
    address: string,
    city: string,
    zip: string,
    country: string)

  datatype Verb = HttpGet | HttpPost

  /** The JSON bodies the route sends; an event id of None is NaN, which
      JSON.stringify writes as null. */
  datatype Payload =
    | NoBody
    | OrderBody(eventId: Option<int>, customer: CustomerPayload, tickets: seq<TicketLine>)
    | TicketsBody(tickets: seq<TicketLine>)
    | OperationsBody(paymentId: JsValue, amount: int)
    | PaymentBody(paymentMethod: string, returnUrl: string, cancelUrl: string)

  /** One fetch to the provider: verb, path below the API base, body. */
  datatype ProviderCall = ProviderCall(verb: Verb, path: string, body: Payload)

  datatype Cookie = Cookie(name: string, value: string, maxAge: int, httpOnly: bool, sameSite: string)

  /** The JSON of a 200 reply. paymentUrl None is null; warning and
      confirmationUrl None are absent fields; isFree false is absent too. */
  datatype Placement = Placement(
    orderId: JsValue,
    email: string,
    paymentUrl: Option<JsValue>,
    isFree: bool,
    warning: Option<string>,
    confirmationUrl: Option<string>)

  datatype Reply =
    | Failed(status: int, error: string, details: Option<string>)
    | Placed(placement: Placement, cookie: Option<Cookie>)

  function ServerError(): Reply {
    Failed(500, ServerErrorMessage, None)
  }

  // ---------------------------------------------------------------------
  // Grouping the cart by event

  /** The event ids in the order `acc` first receives them. */
  function EventKeys(items: seq<CartItem>): (r: seq<string>)
    ensures items != [] ==> r != []
  {
    if items == [] then []
    else
      var keys := EventKeys(items[..|items| - 1]);
      var e := items[|items| - 1].info.eventId;
      if e in keys then keys else keys + [e]
  }

  /** No event id is listed twice. */
  lemma {:induction false} EventKeysDistinct(items: seq<CartItem>)
    ensures forall i, j :: 0 <= i < j < |EventKeys(items)| ==> EventKeys(items)[i] != EventKeys(items)[j]
  {
    if items != [] {
      var prefix := items[..|items| - 1];
      EventKeysDistinct(prefix);
      var keys := EventKeys(prefix);
      var e := items[|items| - 1].info.eventId;
      if e !in keys {
        var r := keys + [e];
        assert EventKeys(items) == r;
        forall i, j | 0 <= i < j < |r|
          ensures r[i] != r[j]
        {
          assert r[i] == keys[i];
          if j == |keys| {
            assert keys[i] in keys;
          } else {
            assert r[j] == keys[j];
          }
        }
      }
    }
  }

  /** The keys are exactly the event ids of the cart's lines. */
  lemma {:induction false} EventKeysMembers(items: seq<CartItem>, e: string)
    ensures e in EventKeys(items) <==> exists i :: 0 <= i < |items| && items[i].info.eventId == e
  {
    if items != [] {
      var prefix := items[..|items| - 1];
      EventKeysMembers(prefix, e);
      if e in EventKeys(prefix) {
        var i :| 0 <= i < |prefix| && prefix[i].info.eventId == e;
        assert items[i] == prefix[i];
      } else if exists i :: 0 <= i < |items| && items[i].info.eventId == e {
        var i :| 0 <= i < |items| && items[i].info.eventId == e;
        if i < |prefix| {
          assert prefix[i] == items[i];
        }
      }
    }
  }

  /** `acc[eventId]`: the lines of one event, in cart order. */
  function ItemsOfEvent(items: seq<CartItem>, e: string): (r: seq<CartItem>)
    ensures |r| <= |items|
  {
    if items == [] then []
    else
      var rest := ItemsOfEvent(items[..|items| - 1], e);
      var last := items[|items| - 1];
      if last.info.eventId == e then rest + [last] else rest
  }

  /** A group holds lines of its event only, taken from the cart, and is
      empty when no line has that event. */
  lemma {:induction false} ItemsOfEventMembers(items: seq<CartItem>, e: string)
    ensures var r := ItemsOfEvent(items, e);
            forall k :: 0 <= k < |r| ==> r[k].info.eventId == e && r[k] in items
    ensures (forall i :: 0 <= i < |items| ==> items[i].info.eventId != e) ==> ItemsOfEvent(items, e) == []
  {
    if items != [] {
      var prefix := items[..|items| - 1];
      var last := items[|items| - 1];
      ItemsOfEventMembers(prefix, e);
      var rest := ItemsOfEvent(prefix, e);
      var r := ItemsOfEvent(items, e);
      assert r == rest + (if last.info.eventId == e then [last] else []);
      forall k | 0 <= k < |r|
        ensures r[k].info.eventId == e && r[k] in items
      {
        if k < |rest| {
          assert r[k] == rest[k];
          var j :| 0 <= j < |prefix| && prefix[j] == rest[k];
          assert items[j] == prefix[j];
        } else {
          assert r[k] == last;
        }
      }
      if forall i :: 0 <= i < |items| ==> items[i].info.eventId != e {
        forall i | 0 <= i < |prefix|
          ensures prefix[i].info.eventId != e
        {
          assert prefix[i] == items[i];
        }
      }
    }
  }

  /** A line belongs to the group of its own event and of no other. */
  lemma {:induction false} ItemInItsGroup(items: seq<CartItem>, i: int, e: string)
    requires 0 <= i < |items|
    ensures items[i] in ItemsOfEvent(items, e) <==> items[i].info.eventId == e
  {
    var prefix := items[..|items| - 1];
    if |items| > 1 {
      ItemsOfEventMembers(prefix, e);
    }
    if i < |items| - 1 {
      assert items[i] == prefix[i];
      ItemInItsGroup(prefix, i, e);
      if items[i].info.eventId == e {
        assert items[i] in ItemsOfEvent(items, e);
      }
    } else if items[i].info.eventId == e {
      assert ItemsOfEvent(items, e)[|ItemsOfEvent(items, e)| - 1] == items[i];
    }
  }

  /** The sizes of the groups of the given keys, added up. */
  function GroupSizes(items: seq<CartItem>, keys: seq<string>): nat {
    if keys == [] then 0
    else GroupSizes(items, keys[..|keys| - 1]) + |ItemsOfEvent(items, keys[|keys| - 1])|
  }

  /** How many times e occurs in keys. */
  function Occurrences(keys: seq<string>, e: string): nat {
    if keys == [] then 0
    else Occurrences(keys[..|keys| - 1], e) + (if keys[|keys| - 1] == e then 1 else 0)
  }

  lemma EventKeysSnoc(items: seq<CartItem>, x: CartItem)
    ensures EventKeys(items + [x])
         == EventKeys(items) + (if x.info.eventId in EventKeys(items) then [] else [x.info.eventId])
  {
    assert (items + [x])[..|items|] == items;
  }

  lemma ItemsOfEventSnoc(items: seq<CartItem>, x: CartItem, e: string)
    ensures ItemsOfEvent(items + [x], e) == ItemsOfEvent(items, e) + (if x.info.eventId == e then [x] else [])
  {
    assert (items + [x])[..|items|] == items;
  }

  lemma {:induction false} GroupSizesSnoc(items: seq<CartItem>, x: CartItem, keys: seq<string>)
    ensures GroupSizes(items + [x], keys) == GroupSizes(items, keys) + Occurrences(keys, x.info.eventId)
  {
    if keys != [] {
      GroupSizesSnoc(items, x, keys[..|keys| - 1]);
      ItemsOfEventSnoc(items, x, keys[|keys| - 1]);
    }
  }

  lemma {:induction false} OccurrencesOfDistinct(keys: seq<string>, e: string)
    requires forall i, j :: 0 <= i < j < |keys| ==> keys[i] != keys[j]
    ensures Occurrences(keys, e) == if e in keys then 1 else 0
  {
    if keys != [] {
      var prefix := keys[..|keys| - 1];
      OccurrencesOfDistinct(prefix, e);
      assert keys == prefix + [keys[|keys| - 1]];
      if keys[|keys| - 1] == e {
        assert e !in prefix;
      }
    }
  }

  lemma PartitionStepKnownKey(prefix: seq<CartItem>, x: CartItem)
    requires x.info.eventId in EventKeys(prefix)
    requires GroupSizes(prefix, EventKeys(prefix)) == |prefix|
    ensures GroupSizes(prefix + [x], EventKeys(prefix + [x])) == |prefix| + 1
  {
    var keys := EventKeys(prefix);
    EventKeysSnoc(prefix, x);
    GroupSizesSnoc(prefix, x, keys);
    EventKeysDistinct(prefix);
    OccurrencesOfDistinct(keys, x.info.eventId);
  }

  lemma PartitionStepNewKey(prefix: seq<CartItem>, x: CartItem)
    requires x.info.eventId !in EventKeys(prefix)
    requires GroupSizes(prefix, EventKeys(prefix)) == |prefix|
    ensures GroupSizes(prefix + [x], EventKeys(prefix + [x])) == |prefix| + 1
  {
    var keys := EventKeys(prefix);
    var e := x.info.eventId;
    var items := prefix + [x];
    EventKeysSnoc(prefix, x);
    assert EventKeys(items) == keys + [e];
    GroupSizesSnoc(prefix, x, keys);
    EventKeysDistinct(prefix);
    OccurrencesOfDistinct(keys, e);
    assert GroupSizes(items, keys) == |prefix|;
    assert (keys + [e])[..|keys|] == keys;
    assert GroupSizes(items, keys + [e]) == GroupSizes(items, keys) + |ItemsOfEvent(items, e)|;
    ItemsOfEventSnoc(prefix, x, e);
    EventKeysMembers(prefix, e);
    ItemsOfEventMembers(prefix, e);
    assert ItemsOfEvent(prefix, e) == [];
  }

  /** The groups split the cart: every line lands in exactly one of them, so
      their sizes add up to the number of lines. */
  lemma {:induction false} GroupsPartitionCart(items: seq<CartItem>)
    ensures GroupSizes(items, EventKeys(items)) == |items|
  {
    if items != [] {
      var prefix := items[..|items| - 1];
      var x := items[|items| - 1];
      assert items == prefix + [x];
      GroupsPartitionCart(prefix);
      if x.info.eventId in EventKeys(prefix) {
        PartitionStepKnownKey(prefix, x);
      } else {
        PartitionStepNewKey(prefix, x);
      }
    }
  }

  /** What the grouping reduce has built after a prefix of the cart: the
      keys in insertion order and each key's lines. */
  ghost predicate Grouped(prefix: seq<CartItem>, keys: seq<string>, groups: map<string, seq<CartItem>>) {
    keys == EventKeys(prefix)
    && (forall e :: e in groups <==> e in keys)
    && (forall e :: e in groups ==> groups[e] == ItemsOfEvent(prefix, e))
  }

  /** One step of the reduce: `if (!acc[id]) acc[id] = []; acc[id].push(item)`. */
  lemma GroupedSnoc(prefix: seq<CartItem>, x: CartItem, keys: seq<string>, groups: map<string, seq<CartItem>>,
                    keys': seq<string>, groups': map<string, seq<CartItem>>)
    requires Grouped(prefix, keys, groups)
    requires var e := x.info.eventId;
             var started := if e in groups then groups else groups[e := []];
             keys' == (if e in groups then keys else keys + [e]) && groups' == started[e := started[e] + [x]]
    ensures Grouped(prefix + [x], keys', groups')
  {
    EventKeysSnoc(prefix, x);
    EventKeysMembers(prefix, x.info.eventId);
    ItemsOfEventMembers(prefix, x.info.eventId);
    forall d
      ensures ItemsOfEvent(prefix + [x], d) == ItemsOfEvent(prefix, d) + (if x.info.eventId == d then [x] else [])
    {
      ItemsOfEventSnoc(prefix, x, d);
    }
  }

  /** The grouping reduce: the keys in insertion order and each key's lines. */
  method GroupByEvent(items: seq<CartItem>) returns (keys: seq<string>, groups: map<string, seq<CartItem>>)
    ensures keys == EventKeys(items)
    ensures forall e :: e in groups <==> e in keys
    ensures forall e :: e in groups ==> groups[e] == ItemsOfEvent(items, e)
  {
    keys := [];
    groups := map[];
    for i := 0 to |items|
      invariant Grouped(items[..i], keys, groups)
    {
      var item := items[i];
      var e := item.info.eventId;
      ghost var keys0, groups0 := keys, groups;
      if e !in groups {
        groups := groups[e := []];
        keys := keys + [e];
      }
      groups := groups[e := groups[e] + [item]];
      GroupedSnoc(items[..i], item, keys0, groups0, keys, groups);
      assert items[..i + 1] == items[..i] + [item];
    }
    assert items[..|items|] == items;
  }

  /** The route throws while grouping when an event id names an inherited
      property. */
  predicate GroupingThrows(items: seq<CartItem>) {
    exists i :: 0 <= i < |items| && items[i].info.eventId in InheritedNames
  }

  // ---------------------------------------------------------------------
  // Object.keys(eventGroups)[0]

  /** A canonical array index: "0" or digits without a leading zero, below
      2^32 - 1. Object.keys lists such keys first, in numeric order. */
  predicate IsArrayIndex(s: string) {
    |s| >= 1 && (forall k :: 0 <= k < |s| ==> '0' <= s[k] <= '9')
    && (s[0] != '0' || |s| == 1) && DigitsValue(s) < 0xFFFF_FFFF
  }

  /** The array-index key of least value, if there is one. */
  function LeastIndexKey(keys: seq<string>): (r: Option<string>)
    ensures r.None? <==> forall k :: 0 <= k < |keys| ==> !IsArrayIndex(keys[k])
    ensures r.Some? ==> r.value in keys && IsArrayIndex(r.value)
    ensures r.Some? ==> forall k :: 0 <= k < |keys| && IsArrayIndex(keys[k]) ==> DigitsValue(r.value) <= DigitsValue(keys[k])
  {
    if keys == [] then None
    else
      var rest := LeastIndexKey(keys[1..]);
      assert forall k :: 1 <= k < |keys| ==> keys[k] == keys[1..][k - 1];
      if !IsArrayIndex(keys[0]) then rest
      else if rest.Some? && DigitsValue(rest.value) < DigitsValue(keys[0]) then rest
      else Some(keys[0])
  }

  /** The first key Object.keys lists for an object whose own keys were
      added in the given order: the least array index if there is one,
      the first added key otherwise. */
  function FirstOwnKey(keys: seq<string>): (r: string)
    requires keys != []
    ensures r in keys
    ensures (exists k :: 0 <= k < |keys| && IsArrayIndex(keys[k])) ==>
              IsArrayIndex(r) && forall k :: 0 <= k < |keys| && IsArrayIndex(keys[k]) ==> DigitsValue(r) <= DigitsValue(keys[k])
    ensures (forall k :: 0 <= k < |keys| ==> !IsArrayIndex(keys[k])) ==> r == keys[0]
  {
    match LeastIndexKey(keys)
    case None => keys[0]
    case Some(k) => k
  }

  /** Numeric keys come first in numeric order, not in insertion order. */
  lemma FirstOwnKeyPrefersLeastNumber()
    ensures FirstOwnKey(["12", "7"]) == "7"
  {
    var keys := ["12", "7"];
    assert DigitsValue("1") == 1;
    assert DigitsValue("12") == 12 by { assert "12"[..1] == "1"; }
    assert DigitsValue("7") == 7;
    assert IsArrayIndex(keys[0]) && IsArrayIndex(keys[1]);
  }

  /** The event whose lines are sent. */
  function EventKey(items: seq<CartItem>): string
    requires items != []
  {
    FirstOwnKey(EventKeys(items))
  }

  /** The first line's event when no event id is a number: the first group
      is the event of the first line in the cart. */
  lemma {:induction false} EventKeysStartWithFirstItem(items: seq<CartItem>)
    requires items != []
    ensures EventKeys(items)[0] == items[0].info.eventId
  {
    if |items| > 1 {
      var prefix := items[..|items| - 1];
      EventKeysStartWithFirstItem(prefix);
      assert prefix[0] == items[0];
    }
  }

  lemma EventKeyWithoutNumericIds(items: seq<CartItem>)
    requires items != []
    requires forall i :: 0 <= i < |items| ==> !IsArrayIndex(items[i].info.eventId)
    ensures EventKey(items) == items[0].info.eventId
  {
    EventKeysStartWithFirstItem(items);
    var keys := EventKeys(items);
    forall k | 0 <= k < |keys|
      ensures !IsArrayIndex(keys[k])
    {
      EventKeysMembers(items, keys[k]);
      var i :| 0 <= i < |items| && items[i].info.eventId == keys[k];
    }
  }

  /** `eventItems.map(item => ({ category_id: item.categoryId, count: item.quantity }))` */
  function Lines(group: seq<CartItem>): (r: seq<TicketLine>)
    ensures |r| == |group|
    ensures forall k :: 0 <= k < |group| ==> r[k] == TicketLine(group[k].info.categoryId, group[k].quantity)
  {
    seq(|group|, k requires 0 <= k < |group| => TicketLine(group[k].info.categoryId, group[k].quantity))
  }

  /** The number of tickets a list of ticket lines orders. */
  function TicketCount(lines: seq<TicketLine>): int {
    if lines == [] then 0 else TicketCount(lines[..|lines| - 1]) + lines[|lines| - 1].count
  }

  /** The lines order exactly as many tickets as the group holds, and each
      line names the category of the cart line it comes from. */
  lemma {:induction false} LinesOrderTheGroup(group: seq<CartItem>)
    ensures TicketCount(Lines(group)) == CartStore.TotalItems(group)
    ensures forall k :: 0 <= k < |group| ==>
              Lines(group)[k].categoryId == group[k].info.categoryId && Lines(group)[k].count == group[k].quantity
    decreases |group|
  {
    if group != [] {
      var init := group[..|group| - 1];
      LinesOrderTheGroup(init);
      assert Lines(group)[..|group| - 1] == Lines(init);
    }
  }

  /** The ticket lines both payloads carry: those of the chosen event only. */
  function ChosenLines(items: seq<CartItem>): seq<TicketLine>
    requires items != []
  {
    Lines(ItemsOfEvent(items, EventKey(items)))
  }

  // ---------------------------------------------------------------------
  // The calls

  function CustomerPayloadOf(c: Customer): CustomerPayload {
    CustomerPayload(c.firstName, c.lastName, c.email, c.phone, c.address, c.city, c.postalCode, c.country)
  }

  function CreateCall(eventKey: string, customer: Customer, lines: seq<TicketLine>): ProviderCall {
    ProviderCall(HttpPost, "/order/create", OrderBody(ParseInt(eventKey), CustomerPayloadOf(customer), lines))
  }

  function AttachCall(idText: string, lines: seq<TicketLine>): ProviderCall {
    ProviderCall(HttpPost, "/order/" + idText + "/tickets", TicketsBody(lines))
  }

  function PaymentsCall(idText: string): ProviderCall {
    ProviderCall(HttpGet, "/order/" + idText + "/payments", NoBody)
  }

  function OperationCall(idText: string, mode: JsValue): ProviderCall
    requires !Nullish(mode)
  {
    ProviderCall(HttpPost, "/order/" + idText + "/operations", OperationsBody(Prop(mode, "payment_id"), 0))
  }

  /** The payment endpoints, in the order they are tried. */
  function PaymentEndpoints(idText: string): seq<string> {
    ["/order/" + idText + "/payment", "/order/" + idText + "/pay", "/payment/" + idText]
  }

  /** `${origin}/order/confirmation/${orderId}`, followed by
      `?email=${encodeURIComponent(email)}` when an e-mail is given. */
  function ConfirmationUrl(origin: string, idText: string, email: Option<string>): string {
    origin + "/order/confirmation/" + idText
    + (if email.Some? then "?email=" + EncodeUriComponent(email.value) else "")
  }

  function CancelUrl(origin: string, eventKey: string): string {
    origin + "/events/" + eventKey + "/book?error=payment_cancelled"
  }

  function PaymentRequest(paymentMethod: string, origin: string, idText: string, email: string, eventKey: string): Payload {
    PaymentBody(paymentMethod, ConfirmationUrl(origin, idText, Some(email)), CancelUrl(origin, eventKey))
  }

  function EmailCookie(idText: string, email: string): Cookie {
    Cookie("order_" + idText + "_email", email, CookieMaxAge, false, "lax")
  }

  function FreePlacement(orderId: JsValue, email: string, origin: string): Placement {
    Placement(orderId, email, None, true, None, Some(ConfirmationUrl(origin, ToText(orderId), Some(email))))
  }

  function UnpaidPlacement(orderId: JsValue, email: string, origin: string, warning: string): Placement {
    Placement(orderId, email, None, false, Some(warning), Some(ConfirmationUrl(origin, ToText(orderId), None)))
  }

  function PaidPlacement(orderId: JsValue, email: string, url: JsValue): Placement {
    Placement(orderId, email, Some(url), false, None, None)
  }

  // ---------------------------------------------------------------------
  // Reading the provider's answers

  /** `typeof data === 'number' ? data : (data.data?.id || data.id)` */
  function OrderIdOf(data: JsValue): (r: JsValue)
    requires !Nullish(data)
    ensures data.Num? ==> r == data
    ensures !data.Num? ==> (Truthy(r) <==> Truthy(OptProp(Prop(data, "data"), "id")) || Truthy(Prop(data, "id")))
    ensures !data.Num? && Truthy(OptProp(Prop(data, "data"), "id")) ==> r == OptProp(Prop(data, "data"), "id")
    ensures !data.Num? && !Truthy(OptProp(Prop(data, "data"), "id")) ==> r == Prop(data, "id")
  {
    if data.Num? then data else Or(OptProp(Prop(data, "data"), "id"), Prop(data, "id"))
  }

  datatype Created =
    | CreateThrew
    | CreateRejected(status: int, text: string)
    | NoOrderId
    | CreatedAs(orderId: JsValue)

  /** What the route makes of the create-order answer. */
  function CreateStep(o: Outcome): (r: Created)
    ensures r.CreateRejected? <==> o.Answered? && !o.Ok()
    ensures r.CreateRejected? ==> r.status == o.status && r.text == o.text
    ensures r.CreateThrew? <==> o.Thrown? || (o.Ok() && (o.json.None? || Nullish(o.json.value)))
    ensures r.CreatedAs? ==> o.Ok() && o.json.Some? && !Nullish(o.json.value)
                             && r.orderId == OrderIdOf(o.json.value) && Truthy(r.orderId)
    ensures r.NoOrderId? ==> o.Ok() && o.json.Some? && !Nullish(o.json.value) && !Truthy(OrderIdOf(o.json.value))
  {
    match o
    case Thrown(_) => CreateThrew
    case Answered(status, text, json) =>
      if !o.Ok() then CreateRejected(status, text)
      else if json.None? || Nullish(json.value) then CreateThrew
      else
        var id := OrderIdOf(json.value);
        if Truthy(id) then CreatedAs(id) else NoOrderId
  }

  datatype Attached = AttachThrew | AttachRejected(status: int, text: string) | TicketsAdded

  /** What the route makes of the attach-tickets answer. */
  function AttachStep(o: Outcome): (r: Attached)
    ensures r.AttachRejected? <==> o.Answered? && !o.Ok()
    ensures r.AttachRejected? ==> r.status == o.status && r.text == o.text
    ensures r.TicketsAdded? <==> o.Ok() && o.json.Some?
  {
    match o
    case Thrown(_) => AttachThrew
    case Answered(status, text, json) =>
      if !o.Ok() then AttachRejected(status, text)
      else if json.None? then AttachThrew
      else TicketsAdded
  }

  /** `paymentData.payment_url || paymentData.data?.payment_url || paymentData.url` */
  function PaymentUrlOf(data: JsValue): (r: JsValue)
    requires !Nullish(data)
    ensures Truthy(r) <==> Truthy(Prop(data, "payment_url")) || Truthy(OptProp(Prop(data, "data"), "payment_url"))
                           || Truthy(Prop(data, "url"))
    ensures Truthy(Prop(data, "payment_url")) ==> r == Prop(data, "payment_url")
    ensures !Truthy(Prop(data, "payment_url")) && Truthy(OptProp(Prop(data, "data"), "payment_url"))
            ==> r == OptProp(Prop(data, "data"), "payment_url")
    ensures !Truthy(Prop(data, "payment_url")) && !Truthy(OptProp(Prop(data, "data"), "payment_url"))
            ==> r == Prop(data, "url")
  {
    Or(Or(Prop(data, "payment_url"), OptProp(Prop(data, "data"), "payment_url")), Prop(data, "url"))
  }

  datatype PaymentAnswer = PaymentBodyThrew | NoPaymentUrl | PaymentUrl(url: JsValue)

  /** What the route makes of a successful payment answer. */
  function PaymentStep(o: Outcome): (r: PaymentAnswer)
    requires o.Ok()
    ensures r.PaymentBodyThrew? <==> o.json.None? || Nullish(o.json.value)
    ensures r.PaymentUrl? ==> !Nullish(o.json.value) && r.url == PaymentUrlOf(o.json.value) && Truthy(r.url)
    ensures r.NoPaymentUrl? <==> o.json.Some? && !Nullish(o.json.value) && !Truthy(PaymentUrlOf(o.json.value))
  {
    if o.json.None? || Nullish(o.json.value) then PaymentBodyThrew
    else
      var url := PaymentUrlOf(o.json.value);
      if Truthy(url) then PaymentUrl(url) else NoPaymentUrl
  }

  datatype NameTest = NameThrows | NameMatches | NameDiffers

  /** `m.name?.toLowerCase().includes('gratuit')` on a payment mode that is
      not null: a name that is not a string has no toLowerCase and throws. */
  function TestName(mode: JsValue): (r: NameTest)
    requires !Nullish(mode)
    ensures r == NameMatches <==> Prop(mode, "name").Str? && Contains(Lower(Prop(mode, "name").s), FreeModeWord)
    ensures r == NameThrows <==> !Nullish(Prop(mode, "name")) && !Prop(mode, "name").Str?
  {
    var name := Prop(mode, "name");
    if Nullish(name) then NameDiffers
    else if !name.Str? then NameThrows
    else if Contains(Lower(name.s), FreeModeWord) then NameMatches
    else NameDiffers
  }

  datatype FreeSearch = SearchThrew | NotListed | NoFreeMode | FreeMode(index: nat, mode: JsValue)

  /** Array.prototype.find with TestName, from index i on. */
  function FirstFreeFrom(modes: seq<JsValue>, i: nat): (r: FreeSearch)
    requires i <= |modes|
    requires forall k :: 0 <= k < |modes| ==> !Nullish(modes[k])
    ensures r.SearchThrew? || r.NoFreeMode? || r.FreeMode?
    ensures r.FreeMode? ==> i <= r.index < |modes| && r.mode == modes[r.index] && TestName(modes[r.index]) == NameMatches
                            && forall k :: i <= k < r.index ==> TestName(modes[k]) == NameDiffers
    ensures r.NoFreeMode? <==> forall k :: i <= k < |modes| ==> TestName(modes[k]) == NameDiffers
    decreases |modes| - i
  {
    if i == |modes| then NoFreeMode
    else
      match TestName(modes[i])
      case NameThrows => SearchThrew
      case NameMatches => FreeMode(i, modes[i])
      case NameDiffers => FirstFreeFrom(modes, i + 1)
  }

  /** The free-mode search on the payment-modes answer. The list is first
      mapped for logging, which reads a field of every element, so a null
      element throws; anything but an array has no map and throws too. */
  function FreeModeOf(o: Outcome): (r: FreeSearch)
    ensures r.NotListed? <==> o.Answered? && !o.Ok()
    ensures r.FreeMode? ==> o.Ok() && o.json.Some? && o.json.value.Arr?
                            && r.index < |o.json.value.elems| && r.mode == o.json.value.elems[r.index]
                            && !Nullish(r.mode) && TestName(r.mode) == NameMatches
    ensures (o.Thrown? || (o.Ok() && (o.json.None? || !o.json.value.Arr?))) ==> r.SearchThrew?
  {
    match o
    case Thrown(_) => SearchThrew
    case Answered(_, _, json) =>
      if !o.Ok() then NotListed
      else if json.None? || !json.value.Arr? then SearchThrew
      else
        var modes := json.value.elems;
        if exists k :: 0 <= k < |modes| && Nullish(modes[k]) then SearchThrew
        else FirstFreeFrom(modes, 0)
  }

  // ---------------------------------------------------------------------
  // The specification of each stage, as a relation between the inputs,
  // the provider and what the route returns

  /** The free path: the payments listing is fetched, an operation is posted
      only for a free mode found in it, and the reply never depends on
      either answer. */
  predicate FreeOutcome(orderId: JsValue, email: string, origin: string, provider: ProviderCall -> Outcome,
                        reply: Reply, calls: seq<ProviderCall>)
  {
    var idText := ToText(orderId);
    reply == Placed(FreePlacement(orderId, email, origin), None)
    && 1 <= |calls| <= 2
    && calls[0] == PaymentsCall(idText)
    && (|calls| == 2 <==> FreeModeOf(provider(calls[0])).FreeMode?)
    && (|calls| == 2 ==> var search := FreeModeOf(provider(calls[0]));
                        search.FreeMode? && !Nullish(search.mode) && calls[1] == OperationCall(idText, search.mode))
  }

  /** The payment attempts: the endpoints in order, each with the same
      body, none before the last answered ok, and the last one tried is
      the first that answered ok or the last endpoint. */
  predicate TriedInOrder(endpoints: seq<string>, payload: Payload, provider: ProviderCall -> Outcome,
                         calls: seq<ProviderCall>)
  {
    |calls| <= |endpoints|
    && (forall k :: 0 <= k < |calls| ==> calls[k] == ProviderCall(HttpPost, endpoints[k], payload))
    && (forall k :: 0 <= k < |calls| - 1 ==> !provider(calls[k]).Ok())
    && (|calls| < |endpoints| ==> calls != [] && provider(calls[|calls| - 1]).Ok())
  }

  predicate LastAnsweredOk(provider: ProviderCall -> Outcome, calls: seq<ProviderCall>) {
    calls != [] && provider(calls[|calls| - 1]).Ok()
  }

  /** The paid path. */
  predicate PaidOutcome(orderId: JsValue, email: string, eventKey: string, paymentMethod: string, origin: string,
                        provider: ProviderCall -> Outcome, reply: Reply, calls: seq<ProviderCall>)
  {
    var idText := ToText(orderId);
    TriedInOrder(PaymentEndpoints(idText), PaymentRequest(paymentMethod, origin, idText, email, eventKey), provider, calls)
    && if LastAnsweredOk(provider, calls) then
         match PaymentStep(provider(calls[|calls| - 1]))
         case PaymentBodyThrew => reply == ServerError()
         case NoPaymentUrl => reply == Placed(UnpaidPlacement(orderId, email, origin, NoPaymentUrlMessage), None)
         case PaymentUrl(url) => reply == Placed(PaidPlacement(orderId, email, url), Some(EmailCookie(idText, email)))
       else
         reply == Placed(UnpaidPlacement(orderId, email, origin, PaymentInitFailedMessage), None)
  }

  /** From the create-order call on. */
  predicate SubmitOutcome(eventKey: string, customer: Customer, lines: seq<TicketLine>, total: int,
                          paymentMethod: string, origin: string, provider: ProviderCall -> Outcome,
                          reply: Reply, calls: seq<ProviderCall>)
  {
    |calls| >= 1 && calls[0] == CreateCall(eventKey, customer, lines)
    && match CreateStep(provider(calls[0]))
       case CreateThrew => reply == ServerError() && |calls| == 1
       case CreateRejected(status, text) => reply == Failed(status, CreateFailedMessage, Some(text)) && |calls| == 1
       case NoOrderId => reply == Failed(500, InvalidResponseMessage, None) && |calls| == 1
       case CreatedAs(orderId) =>
         |calls| >= 2 && calls[1] == AttachCall(ToText(orderId), lines)
         && match AttachStep(provider(calls[1]))
            case AttachThrew => reply == Failed(500, AttachErrorMessage, None) && |calls| == 2
            case AttachRejected(status, text) => reply == Failed(status, AttachFailedMessage, Some(text)) && |calls| == 2
            case TicketsAdded =>
              if total == 0 then FreeOutcome(orderId, customer.email, origin, provider, reply, calls[2..])
              else PaidOutcome(orderId, customer.email, eventKey, paymentMethod, origin, provider, reply, calls[2..])
  }

  predicate EmptyCart(items: Option<seq<CartItem>>) {
    items.None? || items.value == []
  }

  /** The whole route. */
  predicate PostOutcome(request: Option<OrderRequest>, origin: string, provider: ProviderCall -> Outcome,
                        reply: Reply, calls: seq<ProviderCall>)
  {
    match request
    case None => reply == ServerError() && calls == []
    case Some(body) =>
      if EmptyCart(body.items) then reply == Failed(400, CartEmptyMessage, None) && calls == []
      else if GroupingThrows(body.items.value) || body.customer.None? then reply == ServerError() && calls == []
      else
        var items := body.items.value;
        SubmitOutcome(EventKey(items), body.customer.value, ChosenLines(items), CartStore.TotalPrice(items),
                      body.paymentMethod.GetOr(DefaultPaymentMethod), origin, provider, reply, calls)
  }

  // ---------------------------------------------------------------------
  // The route

  /** The free path (lines 181-237): every failure in it is caught. */
  method FinishFree(orderId: JsValue, email: string, origin: string, provider: ProviderCall -> Outcome)
    returns (reply: Reply, calls: seq<ProviderCall>)
    ensures FreeOutcome(orderId, email, origin, provider, reply, calls)
  {
    var idText := ToText(orderId);
    var listing := PaymentsCall(idText);
    calls := [listing];
    var search := FreeModeOf(provider(listing));
    if search.FreeMode? {
      // the operation's answer is only logged
      calls := calls + [OperationCall(idText, search.mode)];
    }
    reply := Placed(FreePlacement(orderId, email, origin), None);
  }

  /** The endpoint loop: stop at the first ok answer; a thrown call or a
      not-ok answer moves on to the next endpoint. */
  method TryPaymentEndpoints(endpoints: seq<string>, payload: Payload, provider: ProviderCall -> Outcome)
    returns (response: Option<Outcome>, calls: seq<ProviderCall>)
    ensures TriedInOrder(endpoints, payload, provider, calls)
    ensures response.Some? <==> LastAnsweredOk(provider, calls)
    ensures response.Some? ==> response.value == provider(calls[|calls| - 1])
  {
    response := None;
    calls := [];
    for i := 0 to |endpoints|
      invariant |calls| == i
      invariant forall k :: 0 <= k < i ==> calls[k] == ProviderCall(HttpPost, endpoints[k], payload)
      invariant forall k :: 0 <= k < i ==> !provider(calls[k]).Ok()
      invariant response.None?
    {
      var call := ProviderCall(HttpPost, endpoints[i], payload);
      calls := calls + [call];
      var outcome := provider(call);
      if outcome.Ok() {
        response := Some(outcome);
        break;
      }
    }
  }

  /** The paid path (lines 244-332). */
  method FinishPaid(orderId: JsValue, email: string, eventKey: string, paymentMethod: string, origin: string,
                    provider: ProviderCall -> Outcome)
    returns (reply: Reply, calls: seq<ProviderCall>)
    ensures PaidOutcome(orderId, email, eventKey, paymentMethod, origin, provider, reply, calls)
  {
    var idText := ToText(orderId);
    var payload := PaymentRequest(paymentMethod, origin, idText, email, eventKey);
    var response;
    response, calls := TryPaymentEndpoints(PaymentEndpoints(idText), payload, provider);
    if response.None? {
      reply := Placed(UnpaidPlacement(orderId, email, origin, PaymentInitFailedMessage), None);
      return;
    }
    match PaymentStep(response.value)
    case PaymentBodyThrew =>
      reply := ServerError();
    case NoPaymentUrl =>
      reply := Placed(UnpaidPlacement(orderId, email, origin, NoPaymentUrlMessage), None);
    case PaymentUrl(url) =>
      reply := Placed(PaidPlacement(orderId, email, url), Some(EmailCookie(idText, email)));
  }

  /** Create the order, attach the tickets, then the free or the paid path. */
  method Submit(eventKey: string, customer: Customer, lines: seq<TicketLine>, total: int, paymentMethod: string,
                origin: string, provider: ProviderCall -> Outcome)
    returns (reply: Reply, calls: seq<ProviderCall>)
    ensures SubmitOutcome(eventKey, customer, lines, total, paymentMethod, origin, provider, reply, calls)
  {
    var create := CreateCall(eventKey, customer, lines);
    calls := [create];
    match CreateStep(provider(create))
    case CreateThrew =>
      reply := ServerError();
    case CreateRejected(status, text) =>
      reply := Failed(status, CreateFailedMessage, Some(text));
    case NoOrderId =>
      reply := Failed(500, InvalidResponseMessage, None);
    case CreatedAs(orderId) =>
      var attach := AttachCall(ToText(orderId), lines);
      calls := calls + [attach];
      match AttachStep(provider(attach))
      case AttachThrew =>
        reply := Failed(500, AttachErrorMessage, None);
      case AttachRejected(status, text) =>
        reply := Failed(status, AttachFailedMessage, Some(text));
      case TicketsAdded =>
        var more;
        if total == 0 {
          reply, more := FinishFree(orderId, customer.email, origin, provider);
        } else {
          reply, more := FinishPaid(orderId, customer.email, eventKey, paymentMethod, origin, provider);
        }
        assert (calls + more)[2..] == more;
        calls := calls + more;
  }

  /** POST /api/orders/create. */
  method Post(request: Option<OrderRequest>, origin: string, provider: ProviderCall -> Outcome)
    returns (reply: Reply, calls: seq<ProviderCall>)
    ensures PostOutcome(request, origin, provider, reply, calls)
  {
    calls := [];
    if request.None? {
      reply := ServerError();
      return;
    }
    var body := request.value;
    var paymentMethod := body.paymentMethod.GetOr(DefaultPaymentMethod);
    if body.items.None? || body.items.value == [] {
      reply := Failed(400, CartEmptyMessage, None);
      return;
    }
    var items := body.items.value;
    if GroupingThrows(items) {
      reply := ServerError();
      return;
    }
    var keys, groups := GroupByEvent(items);
    var eventKey := FirstOwnKey(keys);
    var lines := Lines(groups[eventKey]);
    if body.customer.None? {
      reply := ServerError();
      return;
    }
    var total := CartStore.TotalPrice(items);
    reply, calls := Submit(eventKey, body.customer.value, lines, total, paymentMethod, origin, provider);
  }
}

/** Properties of the order route, derived from its specification. */
module OrderCreateProperties {
  import opened Wrappers
  import opened Text
  import opened Uri
  import opened JsValues
  import opened Http
  import CartStore
  import opened OrderCreate

  /** Every reply of the paid path belongs to the given order and is not
      free; a warning comes with no payment URL, no cookie and a
      confirmation URL without the e-mail. */
  lemma PaidPathReplies(orderId: JsValue, email: string, eventKey: string, paymentMethod: string, origin: string,
                        provider: ProviderCall -> Outcome, reply: Reply, calls: seq<ProviderCall>)
    requires PaidOutcome(orderId, email, eventKey, paymentMethod, origin, provider, reply, calls)
    ensures reply.Placed? ==>
              !reply.placement.isFree && reply.placement.orderId == orderId && reply.placement.email == email
    ensures reply.Placed? && reply.placement.warning.Some? ==>
              reply.placement.paymentUrl.None? && reply.cookie.None?
              && reply.placement.warning.value in {PaymentInitFailedMessage, NoPaymentUrlMessage}
              && reply.placement.confirmationUrl == Some(origin + "/order/confirmation/" + ToText(orderId))
              && 1 <= |calls| <= 3
              && (reply.placement.warning.value == PaymentInitFailedMessage <==>
                    |calls| == 3 && forall k :: 0 <= k < |calls| ==> !provider(calls[k]).Ok())
    ensures reply.Placed? && reply.cookie.Some? ==>
              reply.placement.paymentUrl.Some? && Truthy(reply.placement.paymentUrl.value)
              && reply.cookie.value == EmailCookie(ToText(orderId), email)
    ensures reply.Placed? && reply.placement.paymentUrl.Some? ==> reply.cookie.Some?
    ensures forall k :: 0 <= k < |calls| ==> calls[k].path == PaymentEndpoints(ToText(orderId))[k]
  {
    var idText := ToText(orderId);
    assert |PaymentEndpoints(idText)| == 3;
    var base := origin + "/order/confirmation/" + idText;
    assert base + "" == base;
    if LastAnsweredOk(provider, calls) {
      var answer := PaymentStep(provider(calls[|calls| - 1]));
    }
  }

  /** The free path's reply. */
  lemma FreePathReply(orderId: JsValue, email: string, origin: string, provider: ProviderCall -> Outcome,
                      reply: Reply, calls: seq<ProviderCall>)
    requires FreeOutcome(orderId, email, origin, provider, reply, calls)
    ensures reply.Placed? && reply.placement.isFree && reply.placement.paymentUrl.None? && reply.cookie.None?
    ensures reply.placement.warning.None? && reply.placement.orderId == orderId && reply.placement.email == email
    ensures reply.placement.confirmationUrl
         == Some(origin + "/order/confirmation/" + ToText(orderId) + "?email=" + EncodeUriComponent(email))
  {
    var base := origin + "/order/confirmation/" + ToText(orderId);
    assert base + ("?email=" + EncodeUriComponent(email)) == base + "?email=" + EncodeUriComponent(email);
  }

  /** The e-mail cookie is set only together with a payment URL, which is
      truthy, and only on a reply that is not free; a payment URL always
      comes with the cookie. */
  lemma CookieOnlyWithPaymentUrl(request: Option<OrderRequest>, origin: string, provider: ProviderCall -> Outcome,
                                 reply: Reply, calls: seq<ProviderCall>)
    requires PostOutcome(request, origin, provider, reply, calls)
    ensures reply.Placed? && reply.cookie.Some? ==>
              reply.placement.paymentUrl.Some? && Truthy(reply.placement.paymentUrl.value) && !reply.placement.isFree
              && reply.cookie.value == EmailCookie(ToText(reply.placement.orderId), reply.placement.email)
              && reply.cookie.value.maxAge == 604800
    ensures reply.Placed? && reply.placement.paymentUrl.Some? ==> reply.cookie.Some?
  {
    if request.Some? && !EmptyCart(request.value.items) && !GroupingThrows(request.value.items.value)
       && request.value.customer.Some? {
      var body := request.value;
      var items := body.items.value;
      var created := CreateStep(provider(calls[0]));
      if created.CreatedAs? && AttachStep(provider(calls[1])).TicketsAdded? {
        var email := body.customer.value.email;
        if CartStore.TotalPrice(items) == 0 {
          FreePathReply(created.orderId, email, origin, provider, reply, calls[2..]);
        } else {
          PaidPathReplies(created.orderId, email, EventKey(items), body.paymentMethod.GetOr(DefaultPaymentMethod),
                          origin, provider, reply, calls[2..]);
        }
      }
    }
  }

  /** The route makes at most five calls: create, attach, and then either
      at most two on the free path or at most three payment attempts. */
  lemma CallsAreBounded(request: Option<OrderRequest>, origin: string, provider: ProviderCall -> Outcome,
                        reply: Reply, calls: seq<ProviderCall>)
    requires PostOutcome(request, origin, provider, reply, calls)
    ensures |calls| <= 5
    ensures |calls| >= 3 ==> calls[1].body.TicketsBody? && AttachStep(provider(calls[1])).TicketsAdded?
  {
    if request.Some? && !EmptyCart(request.value.items) && !GroupingThrows(request.value.items.value)
       && request.value.customer.Some? {
      var created := CreateStep(provider(calls[0]));
      if created.CreatedAs? && AttachStep(provider(calls[1])).TicketsAdded? {
        var idText := ToText(created.orderId);
        assert |PaymentEndpoints(idText)| == 3;
        assert |calls[2..]| <= 3;
      }
    }
  }

  /** The create and attach payloads carry the same lines: those of the
      chosen event, `(categoryId, quantity)` in cart order. */
  lemma PayloadsCarryChosenLines(request: Option<OrderRequest>, origin: string, provider: ProviderCall -> Outcome,
                                 reply: Reply, calls: seq<ProviderCall>)
    requires PostOutcome(request, origin, provider, reply, calls)
    ensures calls != [] ==>
              request.Some? && request.value.items.Some? && request.value.items.value != []
              && calls[0].body.OrderBody? && calls[0].body.tickets == ChosenLines(request.value.items.value)
    ensures |calls| >= 2 ==> calls[1].body.TicketsBody? && calls[1].body.tickets == calls[0].body.tickets
  {
  }

  /** A create-order call that is answered but not ok ends the route with
      the provider's status and text, and no call follows it. */
  lemma RejectedCreateStops(request: Option<OrderRequest>, origin: string, provider: ProviderCall -> Outcome,
                            reply: Reply, calls: seq<ProviderCall>)
    requires PostOutcome(request, origin, provider, reply, calls)
    requires calls != [] && provider(calls[0]).Answered? && !provider(calls[0]).Ok()
    ensures |calls| == 1
    ensures reply == Failed(provider(calls[0]).status, CreateFailedMessage, Some(provider(calls[0]).text))
  {
    var created := CreateStep(provider(calls[0]));
    assert created.CreateRejected?;
  }

  /** On a free cart the reply depends only on the create and attach
      answers: whatever the payment-modes listing and the free operation
      return, two providers that agree on the first two calls give the same
      reply. */
  lemma FreeReplyIgnoresFreeCalls(request: Option<OrderRequest>, origin: string,
                                 p1: ProviderCall -> Outcome, r1: Reply, c1: seq<ProviderCall>,
                                 p2: ProviderCall -> Outcome, r2: Reply, c2: seq<ProviderCall>)
    requires PostOutcome(request, origin, p1, r1, c1) && PostOutcome(request, origin, p2, r2, c2)
    requires request.Some? && request.value.items.Some? && CartStore.TotalPrice(request.value.items.value) == 0
    requires forall c: ProviderCall :: c.body.OrderBody? || c.body.TicketsBody? ==> p1(c) == p2(c)
    ensures r1 == r2
  {
    if !EmptyCart(request.value.items) && !GroupingThrows(request.value.items.value) && request.value.customer.Some? {
      assert c1[0] == c2[0];
      if CreateStep(p1(c1[0])).CreatedAs? {
        assert c1[1] == c2[1];
      }
    }
  }

  /** A free order is always confirmed with the customer's e-mail in the
      confirmation URL and no payment URL, and only a cart whose total is 0
      is free. */
  lemma FreeOrderConfirmsWithEmail(request: Option<OrderRequest>, origin: string, provider: ProviderCall -> Outcome,
                                   reply: Reply, calls: seq<ProviderCall>)
    requires PostOutcome(request, origin, provider, reply, calls)
    requires reply.Placed? && reply.placement.isFree
    ensures reply.placement.paymentUrl.None? && reply.cookie.None?
    ensures reply.placement.confirmationUrl
         == Some(origin + "/order/confirmation/" + ToText(reply.placement.orderId)
                 + "?email=" + EncodeUriComponent(reply.placement.email))
    ensures request.Some? && request.value.items.Some? && CartStore.TotalPrice(request.value.items.value) == 0
  {
    var body := request.value;
    var items := body.items.value;
    var created := CreateStep(provider(calls[0]));
    var orderId := created.orderId;
    var email := body.customer.value.email;
    if CartStore.TotalPrice(items) == 0 {
      FreePathReply(orderId, email, origin, provider, reply, calls[2..]);
    } else {
      PaidPathReplies(orderId, email, EventKey(items), body.paymentMethod.GetOr(DefaultPaymentMethod), origin,
                      provider, reply, calls[2..]);
    }
  }

  /** A reply with a warning comes from the paid path: no payment URL, no
      cookie, a confirmation URL without the e-mail, after one to three
      payment attempts made in the fixed order; the "initialization
      failed" warning means all three answered not ok. */
  lemma UnpaidReplyOmitsEmail(request: Option<OrderRequest>, origin: string, provider: ProviderCall -> Outcome,
                              reply: Reply, calls: seq<ProviderCall>)
    requires PostOutcome(request, origin, provider, reply, calls)
    requires reply.Placed? && reply.placement.warning.Some?
    ensures reply.placement.paymentUrl.None? && reply.cookie.None? && !reply.placement.isFree
    ensures reply.placement.warning.value in {PaymentInitFailedMessage, NoPaymentUrlMessage}
    ensures reply.placement.confirmationUrl == Some(origin + "/order/confirmation/" + ToText(reply.placement.orderId))
    ensures 3 <= |calls| <= 5
    ensures forall k :: 2 <= k < |calls| ==>
              calls[k].path == PaymentEndpoints(ToText(reply.placement.orderId))[k - 2]
    ensures reply.placement.warning.value == PaymentInitFailedMessage <==>
              (|calls| == 5 && forall k :: 2 <= k < |calls| ==> !provider(calls[k]).Ok())
  {
    var body := request.value;
    var items := body.items.value;
    var created := CreateStep(provider(calls[0]));
    var orderId := created.orderId;
    var email := body.customer.value.email;
    if CartStore.TotalPrice(items) == 0 {
      FreePathReply(orderId, email, origin, provider, reply, calls[2..]);
    } else {
      var rest := calls[2..];
      PaidPathReplies(orderId, email, EventKey(items), body.paymentMethod.GetOr(DefaultPaymentMethod), origin,
                      provider, reply, rest);
      assert forall k :: 2 <= k < |calls| ==> calls[k] == rest[k - 2];
    }
  }

  /** A free line of event 1 and a paid line of event 2. */
  const FreeLine := CartStore.CartItem(CartStore.ItemInfo("1", "A", "d", None, 1, "z", 10, "c", 0), 1)
  const PaidLine := CartStore.CartItem(CartStore.ItemInfo("2", "B", "d", None, 2, "z", 20, "c", 5000), 1)

  lemma MixedCartKeys()
    ensures EventKeys([PaidLine, FreeLine]) == ["2", "1"]
  {
    assert [PaidLine, FreeLine][..1] == [PaidLine];
    assert [PaidLine][..0] == [];
    assert PaidLine.info.eventId == "2" && FreeLine.info.eventId == "1";
    assert EventKeys([PaidLine]) == ["2"];
    assert "1" !in ["2"];
  }

  lemma MixedCartChoosesEventOne()
    ensures EventKey([PaidLine, FreeLine]) == "1"
  {
    MixedCartKeys();
    var keys := ["2", "1"];
    assert DigitsValue("2") == 2 && DigitsValue("1") == 1;
    assert IsArrayIndex(keys[0]) && IsArrayIndex(keys[1]);
    assert LeastIndexKey(keys[1..]) == Some("1");
  }

  lemma MixedCartGroup()
    ensures ItemsOfEvent([PaidLine, FreeLine], "1") == [FreeLine]
  {
    assert [PaidLine, FreeLine][..1] == [PaidLine];
    assert [PaidLine][..0] == [];
  }

  lemma MixedCartTotal()
    ensures CartStore.TotalPrice([PaidLine, FreeLine]) == 5000
  {
    assert [PaidLine, FreeLine][..1] == [PaidLine];
    assert [PaidLine][..0] == [];
    assert CartStore.TotalPrice([PaidLine]) == 5000;
    assert FreeLine.info.price * FreeLine.quantity == 0;
  }

  /** Only the chosen event's lines are sent, but the free-or-paid decision
      uses the total of the whole cart: the free line of event 1 is ordered
      alone, yet on the paid path. */
  lemma TotalCoversTheWholeCart()
    ensures EventKey([PaidLine, FreeLine]) == "1"
    ensures ChosenLines([PaidLine, FreeLine]) == [TicketLine(10, 1)]
    ensures CartStore.TotalPrice([ItemsOfEvent([PaidLine, FreeLine], "1")[0]]) == 0
    ensures CartStore.TotalPrice([PaidLine, FreeLine]) == 5000
  {
    MixedCartChoosesEventOne();
    MixedCartGroup();
    MixedCartTotal();
    assert CartStore.TotalPrice([FreeLine]) == 0 by {
      assert [FreeLine][..0] == [];
    }
  }

  /** The event id sent to the provider is the number the cart's event id
      spells. */
  lemma CreateCallSendsEventNumber(n: int, customer: Customer, lines: seq<TicketLine>)
    ensures CreateCall(Decimal(n), customer, lines).body.eventId == Some(n)
  {
    ParseIntOfDecimal(n);
  }
}

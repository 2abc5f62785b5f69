/** The JavaScript values the routes read out of JSON bodies: truthiness,
    property access (which throws on null and undefined), `||`, optional
    chaining and the string conversion used by template literals. */
module JsValues {
  import opened Wrappers
  import opened Text

  datatype JsValue =
    | Undefined
    | Null
    | Bool(b: bool)
    | Num(n: int)
    | Str(s: string)
    | Arr(elems: seq<JsValue>)
    | Obj(fields: map<string, JsValue>)

  predicate Nullish(v: JsValue) {
    v.Undefined? || v.Null?
  }

  /** The values `if (v)` accepts: everything except undefined, null, false,
      0 and the empty string. */
  predicate Truthy(v: JsValue) {
    match v
    case Undefined => false
    case Null => false
    case Bool(b) => b
    case Num(n) => n != 0
    case Str(s) => s != ""
    case _ => true
  }

  /** `a || b`. */
  function Or(a: JsValue, b: JsValue): (r: JsValue)
    ensures Truthy(r) <==> Truthy(a) || Truthy(b)
    ensures Truthy(a) ==> r == a
  {
    if Truthy(a) then a else b
  }

  /** `v.key` on a value that is not null or undefined: an object's own field,
      undefined for anything else (the keys read here are no index, length or
      prototype names). */
  function Prop(v: JsValue, key: string): JsValue
    requires !Nullish(v)
  {
    if v.Obj? && key in v.fields then v.fields[key] else Undefined
  }

  /** `v?.key`. */
  function OptProp(v: JsValue, key: string): (r: JsValue)
    ensures Nullish(v) ==> r == Undefined
  {
    if Nullish(v) then Undefined else Prop(v, key)
  }

  /** String(v), as `${v}` writes it. */
  function ToText(v: JsValue): string
    decreases v, 1, 0
  {
    match v
    case Undefined => "undefined"
    case Null => "null"
    case Bool(b) => if b then "true" else "false"
    case Num(n) => Decimal(n)
    case Str(s) => s
    case Arr(elems) => JoinElements(v, |elems|)
    case Obj(_) => "[object Object]"
  }

  /** Array.prototype.join(",") of the first n elements of an array, which
      writes null and undefined elements as empty strings. */
  function JoinElements(arr: JsValue, n: nat): string
    requires arr.Arr? && n <= |arr.elems|
    decreases arr, 0, n
  {
    if n == 0 then ""
    else
      var e := arr.elems[n - 1];
      var last := if Nullish(e) then "" else ToText(e);
      if n == 1 then last else JoinElements(arr, n - 1) + "," + last
  }

  /** The characters parseInt skips before a number: white space and line
      terminators. */
  predicate IsJsSpace(c: char) {
    c == ' ' || c == '\t' || c == '\n' || c == '\r' || c == '\U{B}' || c == '\U{C}'
    || c == '\U{A0}' || c == '\U{1680}' || '\U{2000}' <= c <= '\U{200A}'
    || c == '\U{2028}' || c == '\U{2029}' || c == '\U{202F}' || c == '\U{205F}'
    || c == '\U{3000}' || c == '\U{FEFF}'
  }

  /** The string without its leading white space. */
  function TrimStart(s: string): string {
    if s != [] && IsJsSpace(s[0]) then TrimStart(s[1..]) else s
  }

  /** TrimStart drops a run of white space from the front: what it keeps
      is an end of the string. */
  lemma {:induction false} TrimStartIsSuffix(s: string)
    ensures |TrimStart(s)| <= |s| && TrimStart(s) == s[|s| - |TrimStart(s)|..]
  {
    if s != [] && IsJsSpace(s[0]) {
      TrimStartIsSuffix(s[1..]);
      assert s[1..][|s| - 1 - |TrimStart(s)|..] == s[|s| - |TrimStart(s)|..];
    }
  }

  /** What TrimStart keeps does not start with white space. */
  lemma {:induction false} TrimStartStops(s: string)
    ensures TrimStart(s) != [] ==> !IsJsSpace(TrimStart(s)[0])
  {
    if s != [] && IsJsSpace(s[0]) {
      TrimStartStops(s[1..]);
    }
  }

  /** The value of a digit in bases up to 36, or 36 for a non-digit. */
  function DigitIn(c: char): int {
    if '0' <= c <= '9' then c as int - '0' as int
    else if 'a' <= c <= 'z' then c as int - 'a' as int + 10
    else if 'A' <= c <= 'Z' then c as int - 'A' as int + 10
    else 36
  }

  /** The length of the longest start of s made of digits of the radix. */
  function DigitCount(s: string, radix: int): (n: nat)
    ensures n <= |s|
    ensures forall k :: 0 <= k < n ==> DigitIn(s[k]) < radix
    ensures n < |s| ==> radix <= DigitIn(s[n])
  {
    if s != [] && DigitIn(s[0]) < radix then 1 + DigitCount(s[1..], radix) else 0
  }

  /** The value of a string of hexadecimal digits, most significant first. */
  function HexValue(s: string): int {
    if s == [] then 0 else HexValue(s[..|s| - 1]) * 16 + DigitIn(s[|s| - 1])
  }

  /** The digits after the sign: a "0x" or "0X" prefix selects base 16,
      then the longest run of digits is read; None when there is none. */
  function ParseUnsigned(u: string): Option<int> {
    var hex := |u| >= 2 && u[0] == '0' && (u[1] == 'x' || u[1] == 'X');
    var radix := if hex then 16 else 10;
    var digits := if hex then u[2..] else u;
    var n := DigitCount(digits, radix);
    if n == 0 then None
    else if hex then Some(HexValue(digits[..n]))
    else Some(DigitsValue(digits[..n]))
  }

  /** parseInt(s) with no radix argument: leading white space, an optional
      sign, then ParseUnsigned; None is NaN. Values are exact (no rounding
      to a double). */
  function ParseInt(s: string): Option<int> {
    ParseSigned(TrimStart(s))
  }

  function Negated(v: Option<int>): Option<int> {
    if v.Some? then Some(-v.value) else None
  }

  lemma NegatedSome(x: int)
    ensures Negated(Some(x)) == Some(-x)
  {
  }

  /** The optional sign and the number after it. */
  function ParseSigned(t: string): Option<int> {
    if t != [] && t[0] == '-' then Negated(ParseUnsigned(t[1..]))
    else if t != [] && t[0] == '+' then ParseUnsigned(t[1..])
    else ParseUnsigned(t)
  }

  lemma ParseUnsignedDigits(d: string)
    requires |d| >= 1 && forall k :: 0 <= k < |d| ==> '0' <= d[k] <= '9'
    ensures ParseUnsigned(d) == Some(DigitsValue(d))
  {
    assert !(|d| >= 2 && d[0] == '0' && (d[1] == 'x' || d[1] == 'X'));
    assert DigitCount(d, 10) == |d|;
    assert d[..|d|] == d;
  }

  lemma TrimStartKeeps(s: string)
    requires s != [] && !IsJsSpace(s[0])
    ensures TrimStart(s) == s
  {
  }

  /** After a leading minus sign, parseInt negates what follows. */
  lemma ParseIntMinus(s: string)
    requires s != [] && s[0] == '-'
    ensures ParseInt(s) == Negated(ParseUnsigned(s[1..]))
  {
    TrimStartKeeps(s);
  }

  /** A minus sign before a digit string negates its value. */
  lemma ParseIntOfNegated(d: string)
    requires |d| >= 1 && forall k :: 0 <= k < |d| ==> '0' <= d[k] <= '9'
    ensures ParseInt("-" + d) == Negated(Some(DigitsValue(d)))
  {
    ParseIntMinus("-" + d);
    assert ("-" + d)[1..] == d;
    ParseUnsignedDigits(d);
  }

  /** A digit string reads as its value. */
  lemma ParseIntOfDigits(d: string)
    requires |d| >= 1 && forall k :: 0 <= k < |d| ==> '0' <= d[k] <= '9'
    ensures ParseInt(d) == Some(DigitsValue(d))
  {
    TrimStartKeeps(d);
    ParseUnsignedDigits(d);
    assert ParseSigned(d) == Some(DigitsValue(d));
  }

  /** parseInt reads back what String(n) writes. */
  lemma ParseIntOfDecimal(n: int)
    ensures ParseInt(Decimal(n)) == Some(n)
  {
    if n < 0 {
      var d := Digits(-n);
      DigitsRoundTrip(-n);
      ParseIntOfNegated(d);
      assert Decimal(n) == "-" + d;
      var v := DigitsValue(d);
      assert v == -n;
      NegatedSome(v);
    } else {
      DigitsRoundTrip(n);
      ParseIntOfDigits(Digits(n));
    }
  }
}

/** The outcome of one `fetch` to the ticketing provider, as the route
    handlers see it. */
module Http {
  import opened Wrappers
  import opened JsValues

  datatype Outcome =
    | Thrown(reason: string)
    | Answered(status: int, text: string, json: Option<JsValue>)
  {
    /** Response.ok. */
    predicate Ok() {
      Answered? && 200 <= status <= 299
    }
  }
}

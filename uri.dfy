/** Percent-encoding as the routes use it: encodeURIComponent for the e-mail
    placed in a confirmation URL, and the application/x-www-form-urlencoded
    serializer behind URLSearchParams.toString() for the events query. Both
    encode a character as the UTF-8 bytes of its code point, each written
    `%XY` with upper-case hexadecimal digits. */
module Uri {
  import opened Text

  function HexDigit(d: int): char
    requires 0 <= d < 16
  {
    "0123456789ABCDEF"[d]
  }

  predicate IsHexDigit(c: char) {
    '0' <= c <= '9' || 'A' <= c <= 'F'
  }

  predicate IsAsciiAlphanumeric(c: char) {
    'a' <= c <= 'z' || 'A' <= c <= 'Z' || '0' <= c <= '9'
  }

  predicate IsByte(b: int) {
    0 <= b < 256
  }

  /** The UTF-8 encoding of one Unicode scalar value. */
  function Utf8(c: char): (r: seq<int>)
    ensures 1 <= |r| <= 4
    ensures forall k :: 0 <= k < |r| ==> IsByte(r[k])
    ensures (|r| == 1) <==> (c as int < 0x80)
  {
    var n := c as int;
    if n < 0x80 then [n]
    else if n < 0x800 then [0xC0 + n / 0x40, 0x80 + n % 0x40]
    else if n < 0x10000 then [0xE0 + n / 0x1000, 0x80 + (n / 0x40) % 0x40, 0x80 + n % 0x40]
    else [0xF0 + n / 0x40000, 0x80 + (n / 0x1000) % 0x40, 0x80 + (n / 0x40) % 0x40, 0x80 + n % 0x40]
  }

  function PercentBytes(bytes: seq<int>): (r: string)
    requires forall k :: 0 <= k < |bytes| ==> IsByte(bytes[k])
    ensures |r| == 3 * |bytes|
    ensures forall k :: 0 <= k < |r| ==> r[k] == '%' || IsHexDigit(r[k])
  {
    if bytes == [] then ""
    else
      var b := bytes[0];
      assert IsByte(b);
      ['%', HexDigit(b / 16), HexDigit(b % 16)] + PercentBytes(bytes[1..])
  }

  /** The characters encodeURIComponent leaves as they are. */
  predicate UriUnreserved(c: char) {
    IsAsciiAlphanumeric(c) || c in "-_.!~*'()"
  }

  /** What may appear in the output of encodeURIComponent. */
  predicate UriSafe(c: char) {
    UriUnreserved(c) || c == '%'
  }

  function EncodeUriChar(c: char): string {
    if UriUnreserved(c) then [c] else PercentBytes(Utf8(c))
  }

  function EncodeUriComponent(s: string): string {
    if s == [] then "" else EncodeUriChar(s[0]) + EncodeUriComponent(s[1..])
  }

  /** The output holds only unreserved characters and percent escapes, so it
      never contains '&', '=', '#', '?', '/' or a space: it stays one query
      parameter value. */
  lemma {:induction false} EncodeUriComponentIsSafe(s: string)
    ensures forall k :: 0 <= k < |EncodeUriComponent(s)| ==> UriSafe(EncodeUriComponent(s)[k])
  {
    if s != [] {
      EncodeUriComponentIsSafe(s[1..]);
      var head := EncodeUriChar(s[0]);
      assert forall k :: 0 <= k < |head| ==> UriSafe(head[k]) by {
        if !UriUnreserved(s[0]) {
          var b := Utf8(s[0]);
          assert forall k :: 0 <= k < |head| ==> head[k] == '%' || IsHexDigit(head[k]);
        }
      }
    }
  }

  /** A string of unreserved characters is its own encoding. */
  lemma {:induction false} EncodeUriComponentOfUnreserved(s: string)
    requires forall k :: 0 <= k < |s| ==> UriUnreserved(s[k])
    ensures EncodeUriComponent(s) == s
  {
    if s != [] {
      EncodeUriComponentOfUnreserved(s[1..]);
    }
  }

  /** The characters the form-urlencoded serializer leaves as they are. */
  predicate FormUnreserved(c: char) {
    IsAsciiAlphanumeric(c) || c in "*-._"
  }

  function FormEncodeChar(c: char): string {
    if FormUnreserved(c) then [c] else if c == ' ' then "+" else PercentBytes(Utf8(c))
  }

  function FormEncode(s: string): string {
    if s == [] then "" else FormEncodeChar(s[0]) + FormEncode(s[1..])
  }

  /** A form-encoded name or value holds no '&' and no '=', so the pairs of a
      serialized query can be told apart. */
  lemma {:induction false} FormEncodeHasNoDelimiters(s: string)
    ensures '&' !in FormEncode(s) && '=' !in FormEncode(s)
  {
    if s != [] {
      FormEncodeHasNoDelimiters(s[1..]);
      var head := FormEncodeChar(s[0]);
      if !FormUnreserved(s[0]) && s[0] != ' ' {
        assert forall k :: 0 <= k < |head| ==> head[k] == '%' || IsHexDigit(head[k]);
      }
      assert '&' !in head && '=' !in head;
    }
  }

  /** URLSearchParams.prototype.toString: `name=value` pairs in order, joined
      by '&'. */
  function SerializeQuery(pairs: seq<(string, string)>): (r: string)
    ensures r == "" <==> pairs == []
  {
    if pairs == [] then ""
    else
      var p := FormEncode(pairs[0].0) + "=" + FormEncode(pairs[0].1);
      if |pairs| == 1 then p else p + "&" + SerializeQuery(pairs[1..])
  }

  function EncodedPair(pair: (string, string)): string {
    FormEncode(pair.0) + "=" + FormEncode(pair.1)
  }

  /** The serialized query splits at '&' back into its encoded pairs, one
      per pair and in order. */
  lemma {:induction false} SerializeQuerySplits(pairs: seq<(string, string)>)
    requires pairs != []
    ensures Split(SerializeQuery(pairs), '&') == seq(|pairs|, i requires 0 <= i < |pairs| => EncodedPair(pairs[i]))
  {
    var pieces := seq(|pairs|, i requires 0 <= i < |pairs| => EncodedPair(pairs[i]));
    SerializeIsJoin(pairs);
    forall k | 0 <= k < |pieces|
      ensures '&' !in pieces[k]
    {
      FormEncodeHasNoDelimiters(pairs[k].0);
      FormEncodeHasNoDelimiters(pairs[k].1);
    }
    SplitJoin(pieces, '&');
  }

  lemma {:induction false} SerializeIsJoin(pairs: seq<(string, string)>)
    ensures SerializeQuery(pairs) == Join(seq(|pairs|, i requires 0 <= i < |pairs| => EncodedPair(pairs[i])), "&")
  {
    var pieces := seq(|pairs|, i requires 0 <= i < |pairs| => EncodedPair(pairs[i]));
    if |pairs| > 1 {
      SerializeIsJoin(pairs[1..]);
      assert pieces[1..] == seq(|pairs[1..]|, i requires 0 <= i < |pairs[1..]| => EncodedPair(pairs[1..][i]));
    }
  }
}

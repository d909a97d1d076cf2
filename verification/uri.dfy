/** `encodeURIComponent` and `decodeURIComponent` (ECMA-262, section 19.2.6):
    every character outside the unescaped set is written as the
    percent-encoded octets of its UTF-8 form (section 2.1 of RFC 3986), and
    decoding reverses this, failing with a URIError on a malformed escape or
    an invalid UTF-8 sequence.

    Seller cards build their links with the encoder
    (js/systemavendedores.js:94) and the router reads the name back with the
    decoder (js/router.js:89). */
module Uri {
  import opened Common

  /** The URIError that `decodeURIComponent` throws. */
  datatype UriError = UriError

  /** ECMA-262 uriUnescaped: letters, digits and the marks - _ . ! ~ * ' ( ). */
  predicate Unescaped(c: char) {
    ('a' <= c <= 'z') || ('A' <= c <= 'Z') || ('0' <= c <= '9') ||
    c == '-' || c == '_' || c == '.' || c == '!' || c == '~' || c == '*' ||
    c == '\'' || c == '(' || c == ')'
  }

  /** The upper-case hexadecimal digit for `n`. */
  function HexDigit(n: nat): (c: char)
    requires n < 16
    ensures ('0' <= c <= '9') || ('A' <= c <= 'F')
  {
    if n < 10 then ('0' as int + n) as char else ('A' as int + n - 10) as char
  }

  /** The value of a hexadecimal digit of either case. */
  function HexValue(c: char): (r: Option<nat>)
    ensures r.Some? ==> r.value < 16
  {
    if '0' <= c <= '9' then Some(c as int - '0' as int)
    else if 'A' <= c <= 'F' then Some(c as int - 'A' as int + 10)
    else if 'a' <= c <= 'f' then Some(c as int - 'a' as int + 10)
    else None
  }

  predicate IsByte(b: nat) { b < 256 }

  /** `%XX` for one octet. */
  function PercentByte(b: nat): (r: string)
    requires IsByte(b)
    ensures |r| == 3 && r[0] == '%'
  {
    ['%', HexDigit(b / 16), HexDigit(b % 16)]
  }

  function PercentBytes(bs: seq<nat>): (r: string)
    requires forall i :: 0 <= i < |bs| ==> IsByte(bs[i])
    ensures |r| == 3 * |bs|
  {
    if bs == [] then [] else PercentByte(bs[0]) + PercentBytes(bs[1..])
  }

  /** A Unicode scalar value: what a Dafny `char` holds. */
  predicate IsScalar(cp: nat) {
    cp < 0xD800 || (0xE000 <= cp < 0x110000)
  }

  /** The UTF-8 octets of a code point (RFC 3629, section 3). */
  function Utf8(cp: nat): (bs: seq<nat>)
    requires IsScalar(cp)
    ensures 1 <= |bs| <= 4
    ensures forall i :: 0 <= i < |bs| ==> IsByte(bs[i])
    ensures cp < 0x80 <==> |bs| == 1
  {
    if cp < 0x80 then [cp]
    else if cp < 0x800 then [0xC0 + cp / 64, 0x80 + cp % 64]
    else if cp < 0x10000 then [0xE0 + cp / 4096, 0x80 + (cp / 64) % 64, 0x80 + cp % 64]
    else [0xF0 + cp / 262144, 0x80 + (cp / 4096) % 64, 0x80 + (cp / 64) % 64, 0x80 + cp % 64]
  }

  /** One character of `encodeURIComponent`'s output. */
  function EncodeChar(c: char): (r: string)
    ensures Unescaped(c) ==> r == [c]
    ensures !Unescaped(c) ==> |r| >= 3 && r[0] == '%'
  {
    if Unescaped(c) then [c] else PercentBytes(Utf8(c as int))
  }

  /** `encodeURIComponent(s)`. */
  function Encode(s: string): (r: string)
    ensures |r| >= |s|
  {
    if s == [] then [] else EncodeChar(s[0]) + Encode(s[1..])
  }

  /** The octet written at the start of `s` as `%XX`, if any. */
  function ReadByte(s: string): (r: Option<nat>)
    ensures r.Some? ==> |s| >= 3 && s[0] == '%' && IsByte(r.value)
  {
    if |s| < 3 || s[0] != '%' then None
    else
      match (HexValue(s[1]), HexValue(s[2]))
      case (Some(hi), Some(lo)) => Some(hi * 16 + lo)
      case _ => None
  }

  /** `n` consecutive `%XX` octets at the start of `s`. */
  function ReadBytes(s: string, n: nat): (r: Option<seq<nat>>)
    ensures r.Some? ==> |r.value| == n && |s| >= 3 * n
    ensures r.Some? ==> forall i :: 0 <= i < n ==> IsByte(r.value[i])
    decreases n
  {
    if n == 0 then Some([])
    else
      match ReadByte(s)
      case None => None
      case Some(b) =>
        match ReadBytes(s[3..], n - 1)
        case None => None
        case Some(rest) => Some([b] + rest)
  }

  /** The length of the UTF-8 sequence a leading octet announces, 0 when
      the octet cannot lead one. */
  function LeadLength(b: nat): (n: nat)
    ensures n <= 4
  {
    if b < 0x80 then 1
    else if 0xC0 <= b < 0xE0 then 2
    else if 0xE0 <= b < 0xF0 then 3
    else if 0xF0 <= b < 0xF8 then 4
    else 0
  }

  predicate IsContinuation(b: nat) { 0x80 <= b < 0xC0 }

  /** The character a complete UTF-8 sequence stands for; None for an
      overlong form, a surrogate or a value beyond U+10FFFF. */
  function DecodeUtf8(bs: seq<nat>): (r: Option<char>)
  {
    if |bs| == 0 || LeadLength(bs[0]) != |bs| then None
    else if !(forall i :: 1 <= i < |bs| ==> IsContinuation(bs[i])) then None
    else
      var cp :=
        if |bs| == 1 then bs[0]
        else if |bs| == 2 then (bs[0] - 0xC0) * 64 + (bs[1] - 0x80)
        else if |bs| == 3 then (bs[0] - 0xE0) * 4096 + (bs[1] - 0x80) * 64 + (bs[2] - 0x80)
        else (bs[0] - 0xF0) * 262144 + (bs[1] - 0x80) * 4096 + (bs[2] - 0x80) * 64 + (bs[3] - 0x80);
      var least := if |bs| == 1 then 0 else if |bs| == 2 then 0x80 else if |bs| == 3 then 0x800 else 0x10000;
      if cp < least || !IsScalar(cp) then None else Some(cp as char)
  }

  function Cons(c: char, r: Result<string, UriError>): Result<string, UriError> {
    match r
    case Ok(t) => Ok([c] + t)
    case Err(e) => Err(e)
  }

  /** `decodeURIComponent(s)`: Err is the URIError it throws. */
  function Decode(s: string): (r: Result<string, UriError>)
    ensures r.Ok? ==> |r.value| <= |s|
    ensures (forall i :: 0 <= i < |s| ==> s[i] != '%') ==> r == Ok(s)
    decreases |s|
  {
    if s == [] then Ok([])
    else if s[0] != '%' then
      assert s == [s[0]] + s[1..];
      Cons(s[0], Decode(s[1..]))
    else
      match ReadByte(s)
      case None => Err(UriError)
      case Some(lead) =>
        var n := LeadLength(lead);
        if n == 0 then Err(UriError)
        else
          match ReadBytes(s, n)
          case None => Err(UriError)
          case Some(bs) =>
            match DecodeUtf8(bs)
            case None => Err(UriError)
            case Some(c) => Cons(c, Decode(s[3 * n..]))
  }

  // ---------------------------------------------------------------------
  // Round trip: decodeURIComponent(encodeURIComponent(s)) == s
  // ---------------------------------------------------------------------

  lemma HexRoundTrip(n: nat)
    requires n < 16
    ensures HexValue(HexDigit(n)) == Some(n)
  {
  }

  lemma ReadPercentByte(b: nat, t: string)
    requires IsByte(b)
    ensures ReadByte(PercentByte(b) + t) == Some(b)
  {
    HexRoundTrip(b / 16);
    HexRoundTrip(b % 16);
  }

  lemma {:induction false} ReadPercentBytes(bs: seq<nat>, t: string)
    requires forall i :: 0 <= i < |bs| ==> IsByte(bs[i])
    ensures ReadBytes(PercentBytes(bs) + t, |bs|) == Some(bs)
    ensures (PercentBytes(bs) + t)[3 * |bs|..] == t
    decreases |bs|
  {
    if bs != [] {
      var s := PercentBytes(bs) + t;
      assert s == PercentByte(bs[0]) + (PercentBytes(bs[1..]) + t);
      ReadPercentByte(bs[0], PercentBytes(bs[1..]) + t);
      assert s[3..] == PercentBytes(bs[1..]) + t;
      ReadPercentBytes(bs[1..], t);
      assert bs == [bs[0]] + bs[1..];
    }
  }

  lemma Utf8TwoBytes(cp: nat)
    requires 0x80 <= cp < 0x800
    ensures DecodeUtf8(Utf8(cp)) == Some(cp as char)
  {
    var q, r := cp / 64, cp % 64;
    assert cp == q * 64 + r;
    var bs := Utf8(cp);
    assert bs == [0xC0 + q, 0x80 + r];
  }

  lemma Utf8ThreeBytes(cp: nat)
    requires 0x800 <= cp < 0x10000 && IsScalar(cp)
    ensures DecodeUtf8(Utf8(cp)) == Some(cp as char)
  {
    var a, m, r := cp / 4096, (cp / 64) % 64, cp % 64;
    var q := cp / 64;
    assert cp == q * 64 + r;
    assert q == a * 64 + m;
    assert cp == a * 4096 + m * 64 + r;
    var bs := Utf8(cp);
    assert bs == [0xE0 + a, 0x80 + m, 0x80 + r];
  }

  lemma Utf8FourBytes(cp: nat)
    requires 0x10000 <= cp < 0x110000
    ensures DecodeUtf8(Utf8(cp)) == Some(cp as char)
  {
    var r := cp % 64;
    var q := cp / 64;
    var m := q % 64;
    var q2 := q / 64;
    var m2 := q2 % 64;
    var a := q2 / 64;
    assert cp == q * 64 + r;
    assert q == q2 * 64 + m;
    assert q2 == a * 64 + m2;
    assert q2 == cp / 4096;
    assert a == cp / 262144;
    assert a < 5;
    assert cp == a * 262144 + m2 * 4096 + m * 64 + r;
    var bs := Utf8(cp);
    assert bs == [0xF0 + a, 0x80 + m2, 0x80 + m, 0x80 + r];
  }

  lemma Utf8RoundTrip(c: char)
    ensures IsScalar(c as int)
    ensures LeadLength(Utf8(c as int)[0]) == |Utf8(c as int)|
    ensures DecodeUtf8(Utf8(c as int)) == Some(c)
  {
    var cp := c as int;
    if cp < 0x80 {
    } else if cp < 0x800 {
      Utf8TwoBytes(cp);
    } else if cp < 0x10000 {
      Utf8ThreeBytes(cp);
    } else {
      Utf8FourBytes(cp);
    }
  }

  lemma DecodeEncodedChar(c: char, t: string)
    ensures Decode(EncodeChar(c) + t) == Cons(c, Decode(t))
  {
    if Unescaped(c) {
      var s := EncodeChar(c) + t;
      assert s[0] == c && s[1..] == t;
    } else {
      DecodeEscapedChar(c, t);
    }
  }

  /** A character written as `%XX` octets decodes back from them. */
  lemma DecodeEscapedChar(c: char, t: string)
    requires !Unescaped(c)
    ensures Decode(PercentBytes(Utf8(c as int)) + t) == Cons(c, Decode(t))
  {
    var bs := Utf8(c as int);
    Utf8RoundTrip(c);
    ReadPercentBytes(bs, t);
    LeadOctet(bs, t);
    DecodeOctets(PercentBytes(bs) + t, bs, c, t);
  }

  /** The first `%XX` of written octets reads back as the first octet. */
  lemma LeadOctet(bs: seq<nat>, t: string)
    requires |bs| >= 1 && forall i :: 0 <= i < |bs| ==> IsByte(bs[i])
    ensures ReadByte(PercentBytes(bs) + t) == Some(bs[0])
  {
    ReadPercentByte(bs[0], PercentBytes(bs[1..]) + t);
    assert PercentBytes(bs) + t == PercentByte(bs[0]) + (PercentBytes(bs[1..]) + t);
  }

  /** One step of `Decode` over a complete escaped sequence. */
  lemma DecodeOctets(s: string, bs: seq<nat>, c: char, t: string)
    requires |bs| >= 1 && LeadLength(bs[0]) == |bs|
    requires ReadByte(s) == Some(bs[0]) && ReadBytes(s, |bs|) == Some(bs)
    requires DecodeUtf8(bs) == Some(c)
    requires |s| >= 3 * |bs| && s[3 * |bs|..] == t
    ensures Decode(s) == Cons(c, Decode(t))
  {
  }

  /** Decoding what was encoded gives the original text back, for every
      string: the seller name a card link carries survives the trip through
      the URL. */
  lemma {:induction false} DecodeEncode(s: string)
    ensures Decode(Encode(s)) == Ok(s)
  {
    if s != [] {
      DecodeEncode(s[1..]);
      DecodeEncodedChar(s[0], Encode(s[1..]));
      assert [s[0]] + s[1..] == s;
    }
  }

  /** No `/` survives encoding, so an encoded name is always a single path
      segment. */
  lemma {:induction false} EncodeHasNoSlash(s: string)
    ensures forall i :: 0 <= i < |Encode(s)| ==> Encode(s)[i] != '/'
  {
    if s != [] {
      EncodeHasNoSlash(s[1..]);
      var e := EncodeChar(s[0]);
      if !Unescaped(s[0]) {
        PercentBytesNoSlash(Utf8(s[0] as int));
      }
      assert Encode(s) == e + Encode(s[1..]);
    }
  }

  lemma {:induction false} PercentBytesNoSlash(bs: seq<nat>)
    requires forall i :: 0 <= i < |bs| ==> IsByte(bs[i])
    ensures forall i :: 0 <= i < |PercentBytes(bs)| ==> PercentBytes(bs)[i] != '/'
  {
    if bs != [] {
      PercentBytesNoSlash(bs[1..]);
    }
  }

  /** A lone `%`, or `%` followed by anything but two hexadecimal digits,
      makes `decodeURIComponent` throw. */
  lemma MalformedEscapeThrows(t: string)
    requires |t| < 2 || HexValue(t[0]).None? || HexValue(t[1]).None?
    ensures Decode("%" + t).Err?
  {
  }
}

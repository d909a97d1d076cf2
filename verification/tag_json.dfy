/** The tag list a seller's product form keeps in `data-selected-tags`
    (js/systemavendedor.js): `JSON.stringify` of an array of strings, and
    the part of `JSON.parse` that reads such an array back. */
module TagJson {
  import opened Common
  import Uri

  // ---------------------------------------------------------------------
  // Hex digits of `\uXXXX` escapes
  // ---------------------------------------------------------------------

  /** The lower-case hex digit `JSON.stringify` writes. */
  function HexLower(n: nat): (c: char)
    requires n < 16
  {
    if n < 10 then ('0' as int + n) as char else ('a' as int + n - 10) as char
  }

  lemma HexLowerRoundTrip(n: nat)
    requires n < 16
    ensures Uri.HexValue(HexLower(n)) == Some(n)
  {
  }

  /** The code unit spelled by four hex digits. */
  function Hex4(h: string): (r: Option<nat>)
    requires |h| == 4
    ensures r.Some? ==> r.value < 0x10000
  {
    match (Uri.HexValue(h[0]), Uri.HexValue(h[1]), Uri.HexValue(h[2]), Uri.HexValue(h[3]))
    case (Some(a), Some(b), Some(c), Some(d)) => Some(((a * 16 + b) * 16 + c) * 16 + d)
    case _ => None
  }

  // ---------------------------------------------------------------------
  // JSON.stringify
  // ---------------------------------------------------------------------

  /** How `JSON.stringify` writes one character inside a string: the quote
      and the backslash are escaped, the control characters take their short
      escape or `\u00XX`, and every other character stands for itself. */
  function EscapeChar(c: char): (r: string)
    ensures |r| >= 1
    ensures r[0] != '"'
    ensures (c as int) >= 0x20 && c != '"' && c != '\\' <==> r == [c]
  {
    if c == '"' then ['\\', '"']
    else if c == '\\' then ['\\', '\\']
    else if c == '\U{0008}' then ['\\', 'b']
    else if c == '\U{000C}' then ['\\', 'f']
    else if c == '\n' then ['\\', 'n']
    else if c == '\r' then ['\\', 'r']
    else if c == '\t' then ['\\', 't']
    else if (c as int) < 0x20 then ['\\', 'u', '0', '0', HexLower(c as int / 16), HexLower(c as int % 16)]
    else [c]
  }

  function EscapeString(s: string): string {
    if s == [] then [] else EscapeChar(s[0]) + EscapeString(s[1..])
  }

  /** A string value: its escaped characters between double quotes. */
  function Quote(s: string): (r: string)
    ensures |r| >= 2 && r[0] == '"'
  {
    "\"" + EscapeString(s) + "\""
  }

  /** The elements of an array, separated by commas. */
  function JoinItems(tags: seq<string>): string {
    if tags == [] then ""
    else if |tags| == 1 then Quote(tags[0])
    else Quote(tags[0]) + "," + JoinItems(tags[1..])
  }

  /** `JSON.stringify(tags)` for an array of strings. */
  function Stringify(tags: seq<string>): (r: string)
    ensures |r| >= 2 && r[0] == '[' && r[|r| - 1] == ']'
    ensures r == "[]" <==> tags == []
  {
    var r := "[" + JoinItems(tags) + "]";
    assert tags != [] ==> |JoinItems(tags)| >= 2 && r[1] == '"';
    r
  }

  // ---------------------------------------------------------------------
  // JSON.parse, on arrays of strings
  // ---------------------------------------------------------------------

  /** The character of a one-letter escape `\x`. */
  function Unescape(e: char): Option<char> {
    if e == '"' then Some('"')
    else if e == '\\' then Some('\\')
    else if e == '/' then Some('/')
    else if e == 'b' then Some('\U{0008}')
    else if e == 'f' then Some('\U{000C}')
    else if e == 'n' then Some('\n')
    else if e == 'r' then Some('\r')
    else if e == 't' then Some('\t')
    else None
  }

  /** A code unit that is a character on its own (not half of a surrogate pair). */
  predicate IsScalar(v: nat) {
    v < 0xD800 || (0xE000 <= v < 0x110000)
  }

  function Prepend(c: char, r: Option<(string, string)>): Option<(string, string)> {
    match r
    case Some((body, rest)) => Some(([c] + body, rest))
    case None => None
  }

  /** The contents of a string literal whose opening quote was just read:
      the decoded characters and the text after the closing quote. An
      unescaped control character, an unknown escape or a missing closing
      quote is a syntax error (`None`). */
  function ParseString(s: string): (r: Option<(string, string)>)
    ensures r.Some? ==> |r.value.1| < |s|
    decreases |s|
  {
    if s == [] then None
    else if s[0] == '"' then Some(([], s[1..]))
    else if s[0] == '\\' then
      if |s| >= 2 && Unescape(s[1]).Some? then Prepend(Unescape(s[1]).value, ParseString(s[2..]))
      else if |s| >= 6 && s[1] == 'u' && Hex4(s[2..6]).Some? && IsScalar(Hex4(s[2..6]).value) then
        Prepend(Hex4(s[2..6]).value as char, ParseString(s[6..]))
      else None
    else if (s[0] as int) < 0x20 then None
    else Prepend(s[0], ParseString(s[1..]))
  }

  /** The elements of an array whose `[` (or the comma before this element)
      was just read. */
  function ParseItems(s: string): Option<seq<string>>
    decreases |s|
  {
    if |s| == 0 || s[0] != '"' then None
    else match ParseString(s[1..])
      case None => None
      case Some((item, rest)) =>
        if rest == "]" then Some([item])
        else if |rest| > 0 && rest[0] == ',' then
          match ParseItems(rest[1..])
          case Some(more) => Some([item] + more)
          case None => None
        else None
  }

  /** `JSON.parse(s)` where the result is an array of strings written
      without white space; `None` for anything else. */
  function ParseTags(s: string): (r: Option<seq<string>>)
    ensures s == "[]" ==> r == Some([])
    ensures |s| == 0 || s[0] != '[' ==> r.None?
  {
    if s == "[]" then Some([])
    else if |s| > 0 && s[0] == '[' then ParseItems(s[1..])
    else None
  }

  // ---------------------------------------------------------------------
  // Round trip
  // ---------------------------------------------------------------------

  /** Reading one escaped character gives it back. */
  lemma ParseEscapedChar(c: char, u: string)
    ensures ParseString(EscapeChar(c) + u) == Prepend(c, ParseString(u))
  {
    var s := EscapeChar(c) + u;
    if c == '"' || c == '\\' || c == '\U{0008}' || c == '\U{000C}' || c == '\n' || c == '\r' || c == '\t' {
      assert s[2..] == u;
    } else if (c as int) < 0x20 {
      var hi, lo := c as int / 16, c as int % 16;
      HexLowerRoundTrip(hi);
      HexLowerRoundTrip(lo);
      assert s[2..6] == ['0', '0', HexLower(hi), HexLower(lo)];
      assert Hex4(s[2..6]) == Some(c as int);
      assert s[6..] == u;
    } else {
      assert s[1..] == u;
    }
  }

  /** Reading an escaped string and its closing quote gives the string
      back and leaves what follows. */
  lemma {:induction false} ParseEscapedString(s: string, t: string)
    ensures ParseString(EscapeString(s) + "\"" + t) == Some((s, t))
  {
    if s == [] {
      assert EscapeString(s) + "\"" + t == "\"" + t;
    } else {
      assert EscapeString(s) + "\"" + t == EscapeChar(s[0]) + (EscapeString(s[1..]) + "\"" + t);
      ParseEscapedChar(s[0], EscapeString(s[1..]) + "\"" + t);
      ParseEscapedString(s[1..], t);
      assert [s[0]] + s[1..] == s;
    }
  }

  lemma ParseLastItem(item: string)
    ensures ParseItems(Quote(item) + "]") == Some([item])
  {
    var s := Quote(item) + "]";
    assert s[1..] == EscapeString(item) + "\"" + "]";
    ParseEscapedString(item, "]");
  }

  lemma ParseNextItem(item: string, u: string, more: seq<string>)
    requires ParseItems(u) == Some(more)
    ensures ParseItems(Quote(item) + "," + u) == Some([item] + more)
  {
    var s := Quote(item) + "," + u;
    assert s[1..] == EscapeString(item) + "\"" + ("," + u);
    ParseEscapedString(item, "," + u);
    assert ("," + u)[1..] == u;
  }

  lemma {:induction false} ParseJoinedItems(tags: seq<string>)
    requires tags != []
    ensures ParseItems(JoinItems(tags) + "]") == Some(tags)
  {
    if |tags| == 1 {
      assert JoinItems(tags) == Quote(tags[0]) && tags == [tags[0]];
      ParseLastItem(tags[0]);
    } else {
      var u := JoinItems(tags[1..]) + "]";
      assert JoinItems(tags) + "]" == Quote(tags[0]) + "," + u;
      ParseJoinedItems(tags[1..]);
      ParseNextItem(tags[0], u, tags[1..]);
      assert [tags[0]] + tags[1..] == tags;
    }
  }

  /** `JSON.parse(JSON.stringify(tags))` is `tags`: the tag list a form
      stores is the one its submit reads back. */
  lemma StringifyParse(tags: seq<string>)
    ensures ParseTags(Stringify(tags)) == Some(tags)
  {
    if tags != [] {
      assert Stringify(tags)[1..] == JoinItems(tags) + "]";
      ParseJoinedItems(tags);
    }
  }
}

/** Shared vocabulary of the model: optional values, results, and the handful
    of JavaScript string operations the storefront relies on (`startsWith`,
    `includes`, `split`, `trim`, `replace` with a string pattern, and the
    truthiness of strings). */
module Common {

  datatype Option<+T> = None | Some(value: T) {
    function GetOr(default: T): T {
      match this
      case Some(v) => v
      case None => default
    }
  }

  datatype Result<+T, +E> = Ok(value: T) | Err(error: E)

  /** A JavaScript string is truthy iff it is not empty. */
  predicate Truthy(s: string) {
    |s| > 0
  }

  /** `a || b` on strings: the first operand when it is truthy. */
  function OrElse(a: string, b: string): (r: string)
    ensures Truthy(a) ==> r == a
    ensures !Truthy(a) ==> r == b
  {
    if |a| > 0 then a else b
  }

  /** `x || fallback` where `x` may be `undefined`/`null` (None) or a string. */
  function OptOr(x: Option<string>, fallback: string): (r: string)
    ensures x.Some? && Truthy(x.value) ==> r == x.value
    ensures (x.None? || !Truthy(x.value)) ==> r == fallback
  {
    if x.Some? && |x.value| > 0 then x.value else fallback
  }

  /** `s.startsWith(p)`. */
  predicate StartsWith(s: string, p: string) {
    |p| <= |s| && s[..|p|] == p
  }

  /** `s.includes(p)`: some position of `s` begins an occurrence of `p`. */
  predicate Contains(s: string, p: string) {
    exists i :: 0 <= i <= |s| - |p| && StartsWith(s[i..], p)
  }

  /** A one-character pattern occurs exactly when the character does. */
  lemma ContainsChar(s: string, c: char)
    ensures Contains(s, [c]) <==> c in s
  {
    if c in s {
      var i :| 0 <= i < |s| && s[i] == c;
      assert StartsWith(s[i..], [c]);
    }
    if Contains(s, [c]) {
      var i :| 0 <= i <= |s| - 1 && StartsWith(s[i..], [c]);
      assert s[i] == c;
    }
  }

  /** `s.indexOf(p)`, with -1 when `p` does not occur. */
  function IndexOf(s: string, p: string): (r: int)
    ensures r == -1 || 0 <= r <= |s| - |p|
    ensures r >= 0 ==> StartsWith(s[r..], p)
    ensures r >= 0 ==> forall j :: 0 <= j < r ==> !StartsWith(s[j..], p)
    ensures r == -1 ==> forall j :: 0 <= j <= |s| - |p| ==> !StartsWith(s[j..], p)
    decreases |s|
  {
    if |s| < |p| then -1
    else if StartsWith(s, p) then 0
    else
      var k := IndexOf(s[1..], p);
      assert forall j :: 1 <= j <= |s| ==> s[j..] == s[1..][j - 1..];
      if k == -1 then -1 else k + 1
  }

  /** `includes` and `indexOf` agree: `p` occurs exactly when its index
      is not -1. */
  lemma ContainsIndexOf(s: string, p: string)
    ensures Contains(s, p) <==> IndexOf(s, p) >= 0
  {
    if IndexOf(s, p) >= 0 {
      assert StartsWith(s[IndexOf(s, p)..], p);
    }
  }

  /** `indexOf` finds a separator right after a prefix free of it. */
  lemma {:induction false} IndexOfAfterFree(a: string, c: char, t: string)
    requires forall i :: 0 <= i < |a| ==> a[i] != c
    ensures IndexOf(a + [c] + t, [c]) == |a|
  {
    var s := a + [c] + t;
    if a == [] {
      assert s[..1] == [c];
    } else {
      assert !StartsWith(s, [c]) by { assert s[0] == a[0]; }
      assert s[1..] == a[1..] + [c] + t;
      IndexOfAfterFree(a[1..], c, t);
    }
  }

  /** `s.replace(p, q)` with a string pattern: only the FIRST occurrence of
      `p` is replaced. */
  function ReplaceFirst(s: string, p: string, q: string): (r: string)
    requires |p| > 0
    ensures !Contains(s, p) ==> r == s
    ensures Contains(s, p) ==>
      var i := IndexOf(s, p); r == s[..i] + q + s[i + |p|..]
  {
    var i := IndexOf(s, p);
    if i < 0 then s else s[..i] + q + s[i + |p|..]
  }

  /** Replacing the first `c` of a text whose prefix `a` holds none. */
  lemma ReplaceFirstAfterFree(a: string, c: char, t: string, q: string)
    requires forall i :: 0 <= i < |a| ==> a[i] != c
    ensures ReplaceFirst(a + [c] + t, [c], q) == a + q + t
  {
    var s := a + [c] + t;
    IndexOfAfterFree(a, c, t);
    assert s[..|a|] == a && s[|a| + 1..] == t;
  }

  /** `s.split(sep)[0]`: the text before the first occurrence of `sep`. */
  function BeforeFirst(s: string, sep: string): (r: string)
    requires |sep| > 0
    ensures StartsWith(s, r)
    ensures IndexOf(s, sep) < 0 ==> r == s
  {
    var i := IndexOf(s, sep);
    if i < 0 then s else s[..i]
  }

  /** `s.split(sep)` for a non-empty separator. */
  function Split(s: string, sep: string): (parts: seq<string>)
    requires |sep| > 0
    ensures |parts| >= 1
    ensures parts[0] == BeforeFirst(s, sep)
    ensures IndexOf(s, sep) < 0 ==> parts == [s]
    ensures IndexOf(s, sep) >= 0 ==>
      |parts| >= 2 && parts[1] == BeforeFirst(s[IndexOf(s, sep) + |sep|..], sep)
    decreases |s|
  {
    var i := IndexOf(s, sep);
    if i < 0 then [s]
    else
      [s[..i]] + Split(s[i + |sep|..], sep)
  }

  /** ECMAScript white space and line terminators: what `trim`,
      `parseFloat` and the regular-expression class `\s` skip. */
  predicate IsSpace(c: char) {
    c == '\t' || c == '\n' || c == '\U{000B}' || c == '\U{000C}' || c == '\r' || c == ' ' ||
    c == '\U{00A0}' || c == '\U{1680}' || ('\U{2000}' <= c <= '\U{200A}') || c == '\U{2028}' ||
    c == '\U{2029}' || c == '\U{202F}' || c == '\U{205F}' || c == '\U{3000}' || c == '\U{FEFF}'
  }

  function TrimStart(s: string): (r: string)
    ensures |r| <= |s| && s[|s| - |r|..] == r
    ensures |r| > 0 ==> !IsSpace(r[0])
    ensures forall i :: 0 <= i < |s| - |r| ==> IsSpace(s[i])
  {
    if |s| > 0 && IsSpace(s[0]) then TrimStart(s[1..]) else s
  }

  function TrimEnd(s: string): (r: string)
    ensures |r| <= |s| && s[..|r|] == r
    ensures |r| > 0 ==> !IsSpace(r[|r| - 1])
    ensures forall i :: |r| <= i < |s| ==> IsSpace(s[i])
  {
    if |s| > 0 && IsSpace(s[|s| - 1]) then TrimEnd(s[..|s| - 1]) else s
  }

  /** Every character of `x` is white space. */
  predicate AllSpace(x: string) {
    forall k :: 0 <= k < |x| ==> IsSpace(x[k])
  }

  /** The trimmed text lies between the two runs of white space. */
  lemma TrimIsSlice(s: string, t: string, r: string)
    requires |t| <= |s| && s[|s| - |t|..] == t && forall k :: 0 <= k < |s| - |t| ==> IsSpace(s[k])
    requires |r| <= |t| && t[..|r|] == r && forall k :: |r| <= k < |t| ==> IsSpace(t[k])
    ensures exists i, j :: 0 <= i <= j <= |s| && r == s[i..j] && AllSpace(s[..i]) && AllSpace(s[j..])
  {
    var i := |s| - |t|;
    assert r == s[i..i + |r|];
    assert AllSpace(s[..i]);
    var tail := s[i + |r|..];
    forall k | 0 <= k < |tail|
      ensures IsSpace(tail[k])
    {
      assert tail[k] == t[|r| + k];
    }
  }

  /** JavaScript's `s.length`: UTF-16 code units, so a character beyond
      U+FFFF counts twice. */
  function Utf16Length(s: string): (n: nat)
    ensures |s| <= n <= 2 * |s|
    ensures (forall i :: 0 <= i < |s| ==> s[i] as int <= 0xFFFF) ==> n == |s|
  {
    if s == [] then 0 else (if s[0] as int > 0xFFFF then 2 else 1) + Utf16Length(s[1..])
  }

  /** `s.trim()`: the text between the leading and the trailing white
      space, kept as it is. */
  function Trim(s: string): (r: string)
    ensures |r| > 0 ==> !IsSpace(r[0]) && !IsSpace(r[|r| - 1])
    ensures |r| == 0 <==> forall i :: 0 <= i < |s| ==> IsSpace(s[i])
    ensures exists i, j :: 0 <= i <= j <= |s| && r == s[i..j] && AllSpace(s[..i]) && AllSpace(s[j..])
  {
    var t := TrimStart(s);
    assert |t| > 0 ==> !IsSpace(s[|s| - |t|]);
    var r := TrimEnd(t);
    TrimIsSlice(s, t, r);
    r
  }
}

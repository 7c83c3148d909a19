/**
 * The few JavaScript built-ins whose exact behaviour the service code relies on:
 * `Math.ceil(a / b)`, `Array.prototype.slice`, `Number.prototype.toString` on a
 * non-negative integer below 10^21, `||` between strings, `toLowerCase` (ASCII letters only)
 * and `String.prototype.includes`.
 */
module JsBuiltins {
  import opened Wrappers

  /** A divisor that is a positive integer (a page size). */
  type Pos = n: int | n >= 1 witness 1

  /** `Math.ceil(a / b)` for an integer `a` and a positive integer `b`. */
  function CeilDiv(a: int, b: Pos): (r: int)
    ensures (r - 1) * b < a <= r * b
    ensures a <= 0 ==> r <= 0
    ensures 0 < a <= b ==> r == 1
  {
    CeilDivBounds(a, b);
    -((-a) / b)
  }

  lemma CeilDivBounds(a: int, b: Pos)
    ensures var r := -((-a) / b); (r - 1) * b < a <= r * b
    ensures a <= 0 ==> -((-a) / b) <= 0
    ensures 0 < a <= b ==> -((-a) / b) == 1
  {
    var d: int := b;
    var q, m := (-a) / d, (-a) % d;
    assert -a == d * q + m && 0 <= m < d;
    assert (-q - 1) * d == -(d * q) - d;
    assert -q * d == -(d * q);
  }

  /** The index `i` of a `slice(start, end)` argument, normalised as ECMAScript does. */
  function ClampIndex(i: int, len: nat): (r: nat)
    ensures r <= len
    ensures 0 <= i <= len ==> r == i
    ensures i > len ==> r == len
  {
    if i < 0 then (if len + i < 0 then 0 else len + i)
    else if i > len then len
    else i
  }

  /** `s.slice(start, end)`: negative arguments count from the end, both are clamped. */
  function Slice<T>(s: seq<T>, start: int, end: int): (r: seq<T>)
    ensures |r| <= |s|
    ensures 0 <= start <= end ==> r == s[Min(start, |s|)..Min(end, |s|)]
  {
    var a := ClampIndex(start, |s|);
    var b := ClampIndex(end, |s|);
    if a < b then s[a..b] else []
  }

  function Min(a: int, b: int): int { if a <= b then a else b }

  // ---------------------------------------------------------------------------
  // Decimal rendering of identifiers (`id.toString()`, for ids below 10^21)

  predicate IsDigit(c: char) { '0' <= c <= '9' }

  function DigitChar(d: nat): (c: char)
    requires d < 10
    ensures IsDigit(c)
  {
    ['0', '1', '2', '3', '4', '5', '6', '7', '8', '9'][d]
  }

  function DigitValue(c: char): (d: nat)
    requires IsDigit(c)
    ensures d < 10 && DigitChar(d) == c
  {
    (c as int - '0' as int)
  }

  /** `n.toString()` for a non-negative integer id below 10^21, where JavaScript prints
      plain digits: its canonical decimal numeral. */
  function DecimalString(n: nat): (s: string)
    ensures |s| >= 1
    ensures forall i :: 0 <= i < |s| ==> IsDigit(s[i])
    ensures |s| > 1 ==> s[0] != '0'
  {
    if n < 10 then [DigitChar(n)] else DecimalString(n / 10) + [DigitChar(n % 10)]
  }

  /** Reads a numeral of decimal digits back; anything else is rejected. */
  function ParseDecimal(s: string): Option<nat>
  {
    if |s| == 0 || !IsDigit(s[|s| - 1]) then None
    else if |s| == 1 then Some(DigitValue(s[0]))
    else match ParseDecimal(s[..|s| - 1])
      case None => None
      case Some(v) => Some(10 * v + DigitValue(s[|s| - 1]))
  }

  /** Rendering an identifier and reading it back gives the identifier. */
  lemma {:induction false} ParseDecimalString(n: nat)
    ensures ParseDecimal(DecimalString(n)) == Some(n)
  {
    if n < 10 {
      assert DigitValue(DigitChar(n)) == n;
    } else {
      var t := DecimalString(n / 10);
      var s := t + [DigitChar(n % 10)];
      assert DecimalString(n) == s;
      ParseDecimalString(n / 10);
      assert s[..|s| - 1] == t;
      assert DigitValue(s[|s| - 1]) == n % 10;
      assert ParseDecimal(s) == Some(10 * (n / 10) + n % 10);
    }
  }

  /** Distinct identifiers render as distinct strings. */
  lemma DecimalStringInjective(m: nat, n: nat)
    requires DecimalString(m) == DecimalString(n)
    ensures m == n
  {
    ParseDecimalString(m);
    ParseDecimalString(n);
  }

  // ---------------------------------------------------------------------------
  // Strings

  /** `a || b` where `a` is a string or null: the empty string and null are falsy. */
  function OrElse(a: Option<string>, b: string): (r: string)
    ensures a.Some? && a.value != "" ==> r == a.value
    ensures (a.None? || a.value == "") ==> r == b
  {
    match a
    case Some(s) => if s != "" then s else b
    case None => b
  }

  /** `toLowerCase` restricted to ASCII: upper-case Latin letters are folded, all else kept. */
  function LowerChar(c: char): (r: char)
    ensures 'A' <= c <= 'Z' ==> r as int == c as int + 32
    ensures !('A' <= c <= 'Z') ==> r == c
  {
    if 'A' <= c <= 'Z' then (c as int + 32) as char else c
  }

  function Lower(s: string): (r: string)
    ensures |r| == |s|
    ensures forall i :: 0 <= i < |s| ==> r[i] == LowerChar(s[i])
  {
    seq(|s|, i requires 0 <= i < |s| => LowerChar(s[i]))
  }

  /** `haystack.includes(needle)`, computed by trying each start position in turn. */
  function Includes(haystack: string, needle: string): bool
    decreases |haystack|
  {
    if |needle| <= |haystack| && haystack[..|needle|] == needle then true
    else if |haystack| == 0 then false
    else Includes(haystack[1..], needle)
  }

  /** The needle occurs in the haystack starting at position `i`. */
  predicate OccursAt(haystack: string, needle: string, i: int) {
    0 <= i <= |haystack| - |needle| && haystack[i..i + |needle|] == needle
  }

  /** `Includes` holds exactly when the needle occurs at some position of the haystack. */
  lemma {:induction false} IncludesIffOccurs(haystack: string, needle: string)
    ensures Includes(haystack, needle) <==> exists i :: OccursAt(haystack, needle, i)
    decreases |haystack|
  {
    if |needle| <= |haystack| && haystack[..|needle|] == needle {
      assert OccursAt(haystack, needle, 0);
    } else if |haystack| == 0 {
    } else {
      var t := haystack[1..];
      IncludesIffOccurs(t, needle);
      if exists i :: OccursAt(haystack, needle, i) {
        var i :| OccursAt(haystack, needle, i);
        assert i != 0;
        assert t[i - 1..i - 1 + |needle|] == haystack[i..i + |needle|];
        assert OccursAt(t, needle, i - 1);
      }
      if exists j :: OccursAt(t, needle, j) {
        var j :| OccursAt(t, needle, j);
        assert haystack[j + 1..j + 1 + |needle|] == t[j..j + |needle|];
        assert OccursAt(haystack, needle, j + 1);
      }
    }
  }

  /** The empty query is found in every string, as with `includes("")`. */
  lemma EmptyIncluded(haystack: string)
    ensures Includes(haystack, "")
  {
  }
}

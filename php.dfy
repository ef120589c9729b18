/** The few PHP built-ins the application leans on, with PHP's own
    semantics written out: `empty()` on strings, `strtolower`,
    `str_contains`, `explode`/`implode` on one separator, `array_filter`
    without a callback, the `(string)` and `(int)` casts, and `bin2hex`. */
module Php {
  import opened Base

  // ---------------------------------------------------------------- empty()

  /** PHP's `empty()` on a string: both "" and "0" are falsy. */
  predicate Empty(s: string) {
    s == "" || s == "0"
  }

  /** `empty($a['k'])` where the key may be missing (null is falsy too). */
  predicate EmptyOpt(o: Option<string>) {
    o.None? || Empty(o.value)
  }

  // ---------------------------------------------------------- strtolower()

  /** `strtolower` is locale-insensitive since PHP 8.2: ASCII letters only. */
  function LowerChar(c: char): char {
    if 'A' <= c <= 'Z' then (c as int + 32) as char else c
  }

  function Lower(s: string): (r: string)
    ensures |r| == |s|
    ensures forall i :: 0 <= i < |s| ==> r[i] == LowerChar(s[i])
  {
    seq(|s|, i requires 0 <= i < |s| => LowerChar(s[i]))
  }

  /** Lower-casing twice is lower-casing once. */
  lemma LowerIdempotent(s: string)
    ensures Lower(Lower(s)) == Lower(s)
  {
    var l := Lower(s);
    forall i | 0 <= i < |s|
      ensures Lower(l)[i] == l[i]
    {
      assert LowerChar(LowerChar(s[i])) == LowerChar(s[i]);
    }
  }

  /** Lower-casing never turns a string into, or out of, a PHP-empty one. */
  lemma LowerKeepsEmpty(s: string)
    ensures Empty(Lower(s)) <==> Empty(s)
  {
    if Empty(Lower(s)) && |s| == 1 {
      assert Lower(s)[0] == LowerChar(s[0]);
    }
  }

  // --------------------------------------------------------- str_contains()

  predicate StartsWith(h: string, n: string) {
    |n| <= |h| && h[..|n|] == n
  }

  /** `str_contains($h, $n)`: `n` occurs in `h` at some offset. */
  function Contains(h: string, n: string): (b: bool)
    ensures b ==> |n| <= |h|
    ensures n == [] ==> b
    decreases |h|
  {
    StartsWith(h, n) || (|h| > 0 && Contains(h[1..], n))
  }

  /** An occurrence at offset `i` makes `Contains` true. */
  lemma {:induction false} ContainsAt(h: string, n: string, i: nat)
    requires i + |n| <= |h| && h[i..i + |n|] == n
    ensures Contains(h, n)
    decreases i
  {
    if i > 0 {
      assert h[1..][i - 1..i - 1 + |n|] == h[i..i + |n|];
      ContainsAt(h[1..], n, i - 1);
    }
  }

  /** `Contains` holds exactly when there is an occurrence at some offset. */
  lemma {:induction false} ContainsOffset(h: string, n: string) returns (i: nat)
    requires Contains(h, n)
    ensures i + |n| <= |h| && h[i..i + |n|] == n
    decreases |h|
  {
    if StartsWith(h, n) {
      i := 0;
    } else {
      var j := ContainsOffset(h[1..], n);
      i := j + 1;
      assert h[1..][j..j + |n|] == h[i..i + |n|];
    }
  }

  // ------------------------------------------------------ explode / implode

  /** `explode(sep, s)` for a one-character separator: never empty. */
  function Split(s: string, sep: char): (r: seq<string>)
    ensures |r| >= 1
    decreases |s|
  {
    if s == [] then [""]
    else
      var rest := Split(s[1..], sep);
      if s[0] == sep then [""] + rest
      else [[s[0]] + rest[0]] + rest[1..]
  }

  /** `implode(sep, xs)`. */
  function Join(xs: seq<string>, sep: char): (r: string)
    ensures xs == [] ==> r == ""
    ensures |xs| >= 1 ==> |xs[0]| <= |r| && r[..|xs[0]|] == xs[0]
    ensures |xs| >= 2 ==> |xs[0]| < |r| && r[|xs[0]|] == sep
  {
    if |xs| == 0 then ""
    else if |xs| == 1 then xs[0]
    else xs[0] + [sep] + Join(xs[1..], sep)
  }

  /** Joining the pieces of a split gives the string back. */
  lemma {:induction false} JoinSplit(s: string, sep: char)
    ensures Join(Split(s, sep), sep) == s
    decreases |s|
  {
    if s != [] {
      var rest := Split(s[1..], sep);
      JoinSplit(s[1..], sep);
      if s[0] == sep {
        assert Split(s, sep) == [""] + rest;
        assert ([""] + rest)[1..] == rest;
      } else {
        var r := Split(s, sep);
        assert r == [[s[0]] + rest[0]] + rest[1..];
        if |rest| == 1 {
          assert Join(r, sep) == [s[0]] + rest[0];
        } else {
          assert r[1..] == rest[1..];
          assert Join(rest, sep) == rest[0] + [sep] + Join(rest[1..], sep);
        }
      }
    }
  }

  predicate NoSep(x: string, sep: char) {
    forall i :: 0 <= i < |x| ==> x[i] != sep
  }

  lemma {:induction false} SplitNoSep(a: string, sep: char)
    requires NoSep(a, sep)
    ensures Split(a, sep) == [a]
    decreases |a|
  {
    if a != [] {
      SplitNoSep(a[1..], sep);
      assert a[0] != sep;
      assert [a[0]] + a[1..] == a;
    }
  }

  lemma {:induction false} SplitAtSep(a: string, b: string, sep: char)
    requires NoSep(a, sep)
    ensures Split(a + [sep] + b, sep) == [a] + Split(b, sep)
    decreases |a|
  {
    var s := a + [sep] + b;
    if a == [] {
      assert s == [sep] + b;
      assert s[1..] == b;
    } else {
      assert s[1..] == a[1..] + [sep] + b;
      SplitAtSep(a[1..], b, sep);
      assert [a[0]] + a[1..] == a;
    }
  }

  /** Splitting a join gives the pieces back, provided there is at least
      one piece and no piece contains the separator. */
  lemma {:induction false} SplitJoin(xs: seq<string>, sep: char)
    requires |xs| >= 1
    requires forall k :: 0 <= k < |xs| ==> NoSep(xs[k], sep)
    ensures Split(Join(xs, sep), sep) == xs
    decreases |xs|
  {
    if |xs| == 1 {
      SplitNoSep(xs[0], sep);
    } else {
      SplitAtSep(xs[0], Join(xs[1..], sep), sep);
      SplitJoin(xs[1..], sep);
      assert [xs[0]] + xs[1..] == xs;
    }
  }

  // ----------------------------------------------------------- array_filter

  /** `array_filter($xs)` without a callback keeps the PHP-truthy strings,
      in their order. */
  function FilterFalsy(xs: seq<string>): (r: seq<string>)
    ensures |r| <= |xs|
    ensures forall x :: x in r ==> x in xs && !Empty(x)
    ensures forall x :: x in xs && !Empty(x) ==> x in r
  {
    if xs == [] then []
    else (if Empty(xs[0]) then [] else [xs[0]]) + FilterFalsy(xs[1..])
  }

  lemma {:induction false} FilterFalsyKeepsTruthy(xs: seq<string>)
    requires forall k :: 0 <= k < |xs| ==> !Empty(xs[k])
    ensures FilterFalsy(xs) == xs
    decreases |xs|
  {
    if xs != [] {
      FilterFalsyKeepsTruthy(xs[1..]);
      assert [xs[0]] + xs[1..] == xs;
    }
  }

  /** Joining at least one PHP-truthy piece gives a PHP-truthy text. */
  lemma JoinTruthy(xs: seq<string>, sep: char)
    requires |xs| >= 1 && !Empty(xs[0])
    ensures !Empty(Join(xs, sep))
  {
    if |xs| > 1 {
      assert |Join(xs, sep)| >= 2;
    }
  }

  /** `array_filter(explode(sep, implode(sep, xs)))` gives `xs` back when
      no item is PHP-empty or contains the separator (also for no items);
      the joined text is PHP-empty exactly when there are no items. */
  lemma ExplodeImplode(xs: seq<string>, sep: char)
    requires forall k :: 0 <= k < |xs| ==> !Empty(xs[k]) && NoSep(xs[k], sep)
    ensures FilterFalsy(Split(Join(xs, sep), sep)) == xs
    ensures Empty(Join(xs, sep)) <==> xs == []
  {
    if xs == [] {
      assert Split("", sep) == [""];
    } else {
      SplitJoin(xs, sep);
      FilterFalsyKeepsTruthy(xs);
      JoinTruthy(xs, sep);
    }
  }

  // -------------------------------------------------- (string) and (int)

  predicate IsDigit(c: char) {
    '0' <= c <= '9'
  }

  predicate AllDigits(s: string) {
    forall i :: 0 <= i < |s| ==> IsDigit(s[i])
  }

  function DigitChar(d: nat): (c: char)
    requires d < 10
    ensures IsDigit(c)
  {
    (d + '0' as int) as char
  }

  function DigitValue(c: char): nat
    requires IsDigit(c)
  {
    c as int - '0' as int
  }

  /** Decimal digits of a natural number, most significant first. */
  function NatToString(n: nat): (r: string)
    ensures |r| >= 1 && AllDigits(r)
    decreases n
  {
    if n < 10 then [DigitChar(n)] else NatToString(n / 10) + [DigitChar(n % 10)]
  }

  /** `(string)$i` for an integer (also `%d` in `sprintf`). */
  function IntToString(i: int): (r: string)
    ensures |r| >= 1
    ensures forall k :: 0 <= k < |r| ==> IsDigit(r[k]) || (k == 0 && r[k] == '-')
  {
    if i < 0 then "-" + NatToString(-i) else NatToString(i)
  }

  /** Value of a string of decimal digits, most significant first. */
  function DigitsValue(ds: string): nat
    requires AllDigits(ds)
  {
    if ds == [] then 0 else DigitsValue(ds[..|ds| - 1]) * 10 + DigitValue(ds[|ds| - 1])
  }

  /** The longest prefix made of decimal digits. */
  function LeadingDigits(s: string): (r: string)
    ensures AllDigits(r) && |r| <= |s| && r == s[..|r|]
  {
    if s == [] || !IsDigit(s[0]) then [] else [s[0]] + LeadingDigits(s[1..])
  }

  predicate IsSpace(c: char) {
    c == ' ' || c == '\t' || c == '\n' || c == '\r' || c == '\U{0B}' || c == '\U{0C}'
  }

  function SkipSpace(s: string): string {
    if s != [] && IsSpace(s[0]) then SkipSpace(s[1..]) else s
  }

  /** `(int)$s`: leading white space, an optional sign, then the leading
      decimal digits; no digits at all gives 0. */
  function StringToInt(s: string): (r: int)
    ensures AllDigits(s) ==> r == DigitsValue(s)
    ensures |s| > 0 && s[0] == '-' && AllDigits(s[1..]) ==> r == 0 - DigitsValue(s[1..])
    // A text that does not start with a number (after white space) reads as 0.
    ensures var t := SkipSpace(s);
            t == [] || !(IsDigit(t[0]) || t[0] == '-' || t[0] == '+') ==> r == 0
  {
    LeadingDigitsOfDigits(s);
    LeadingDigitsOfDigits(if |s| > 0 then s[1..] else s);
    var t := SkipSpace(s);
    if t != [] && t[0] == '-' then 0 - DigitsValue(LeadingDigits(t[1..]))
    else if t != [] && t[0] == '+' then DigitsValue(LeadingDigits(t[1..]))
    else DigitsValue(LeadingDigits(t))
  }

  lemma {:induction false} LeadingDigitsOfDigits(s: string)
    ensures AllDigits(s) ==> LeadingDigits(s) == s
    decreases |s|
  {
    if s != [] {
      LeadingDigitsOfDigits(s[1..]);
    }
  }

  lemma {:induction false} DigitsValueOfNat(n: nat)
    ensures DigitsValue(NatToString(n)) == n
    decreases n
  {
    if n >= 10 {
      var s := NatToString(n / 10);
      var t := s + [DigitChar(n % 10)];
      assert t[..|t| - 1] == s;
      DigitsValueOfNat(n / 10);
    }
  }

  /** `(int)(string)$i == $i`: the integer casts round-trip. */
  lemma IntStringRoundTrip(i: int)
    ensures StringToInt(IntToString(i)) == i
  {
    if i < 0 {
      var s := NatToString(-i);
      assert ("-" + s)[1..] == s;
      LeadingDigitsOfDigits(s);
      DigitsValueOfNat(-i);
    } else {
      LeadingDigitsOfDigits(NatToString(i));
      DigitsValueOfNat(i);
    }
  }

  /** Distinct integers print differently. */
  lemma IntToStringInjective(i: int, j: int)
    requires IntToString(i) == IntToString(j)
    ensures i == j
  {
    IntStringRoundTrip(i);
    IntStringRoundTrip(j);
  }

  // ---------------------------------------------------------------- bin2hex

  type Byte = x: int | 0 <= x < 256

  predicate IsLowerHex(c: char) {
    IsDigit(c) || 'a' <= c <= 'f'
  }

  function HexDigit(d: nat): (c: char)
    requires d < 16
    ensures IsLowerHex(c)
  {
    if d < 10 then DigitChar(d) else (d - 10 + 'a' as int) as char
  }

  /** `bin2hex`: two lower-case hex digits per byte, high nibble first. */
  function Bin2Hex(bs: seq<Byte>): (r: string)
    ensures |r| == 2 * |bs|
    ensures forall i :: 0 <= i < |r| ==> IsLowerHex(r[i])
  {
    if bs == [] then "" else [HexDigit(bs[0] / 16), HexDigit(bs[0] % 16)] + Bin2Hex(bs[1..])
  }

  /** Different byte strings have different hex encodings. */
  lemma {:induction false} Bin2HexInjective(a: seq<Byte>, b: seq<Byte>)
    requires Bin2Hex(a) == Bin2Hex(b)
    ensures a == b
    decreases |a|
  {
    if a != [] {
      var ha, hb := Bin2Hex(a), Bin2Hex(b);
      assert ha[0] == HexDigit(a[0] / 16) && hb[0] == HexDigit(b[0] / 16);
      assert ha[1] == HexDigit(a[0] % 16) && hb[1] == HexDigit(b[0] % 16);
      assert a[0] / 16 == b[0] / 16;
      assert a[0] % 16 == b[0] % 16;
      assert ha[2..] == Bin2Hex(a[1..]) && hb[2..] == Bin2Hex(b[1..]);
      Bin2HexInjective(a[1..], b[1..]);
      assert a == [a[0]] + a[1..] && b == [b[0]] + b[1..];
    }
  }

  // ------------------------------------------- json_encode of an int list

  /** The decimal form of each integer, in order. */
  function IntStrings(ds: seq<int>): (r: seq<string>)
    ensures |r| == |ds|
    ensures forall k :: 0 <= k < |ds| ==> r[k] == IntToString(ds[k])
  {
    seq(|ds|, k requires 0 <= k < |ds| => IntToString(ds[k]))
  }

  /** `json_encode` of a list of integers: "[1,2,3]", and "[]" for none. */
  function JsonIntList(ds: seq<int>): (r: string)
    ensures |r| >= 2 && r[0] == '[' && r[|r| - 1] == ']'
    ensures ds == [] ==> r == "[]"
  {
    "[" + Join(IntStrings(ds), ',') + "]"
  }

  /** Reads a text of the form `JsonIntList` produces back into its integers. */
  function ParseIntList(s: string): (r: seq<int>)
    ensures !(|s| >= 2 && s[0] == '[' && s[|s| - 1] == ']') ==> r == []
    ensures s == "[]" ==> r == []
    ensures |s| > 2 && s[0] == '[' && s[|s| - 1] == ']' ==> |r| == |Split(s[1..|s| - 1], ',')|
  {
    if |s| >= 2 && s[0] == '[' && s[|s| - 1] == ']' then
      var inner := s[1..|s| - 1];
      if inner == "" then []
      else
        var parts := Split(inner, ',');
        seq(|parts|, k requires 0 <= k < |parts| => StringToInt(parts[k]))
    else []
  }

  /** No decimal form contains a comma. */
  lemma IntStringsNoComma(ds: seq<int>)
    ensures forall k :: 0 <= k < |ds| ==> NoSep(IntStrings(ds)[k], ',')
  {
    forall k | 0 <= k < |ds|
      ensures NoSep(IntStrings(ds)[k], ',')
    {
      var t := IntToString(ds[k]);
      assert forall i :: 0 <= i < |t| ==> IsDigit(t[i]) || t[i] == '-';
    }
  }

  /** The JSON text is the joined decimal forms between brackets; the
      joined text is empty exactly when the list is. */
  lemma JsonIntListShape(ds: seq<int>)
    ensures var s := JsonIntList(ds);
            |s| >= 2 && s[0] == '[' && s[|s| - 1] == ']' && s[1..|s| - 1] == Join(IntStrings(ds), ',')
    ensures Join(IntStrings(ds), ',') == "" <==> ds == []
  {
    var xs := IntStrings(ds);
    if |xs| >= 1 {
      assert |xs[0]| >= 1;
      assert |Join(xs, ',')| >= 1;
    }
  }

  /** Decoding the JSON text of an integer list gives the list back. */
  lemma JsonIntListRoundTrip(ds: seq<int>)
    ensures ParseIntList(JsonIntList(ds)) == ds
  {
    JsonIntListShape(ds);
    if ds != [] {
      var xs := IntStrings(ds);
      IntStringsNoComma(ds);
      SplitJoin(xs, ',');
      forall k | 0 <= k < |ds|
        ensures StringToInt(xs[k]) == ds[k]
      {
        IntStringRoundTrip(ds[k]);
      }
    }
  }
}

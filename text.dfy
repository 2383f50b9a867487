/** String helpers standing for the JavaScript string methods the pages use:
    `toUpperCase`/`toLowerCase` (ASCII letters only), `startsWith`, `includes`,
    `split` on one character, `join`, `trim() == ''`, and integer parsing and printing. */
module Text {
  import opened Types

  predicate IsLowerAscii(c: char) { 'a' <= c <= 'z' }

  predicate IsUpperAscii(c: char) { 'A' <= c <= 'Z' }

  predicate IsDigit(c: char) { '0' <= c <= '9' }

  function UpperChar(c: char): (u: char)
    ensures IsLowerAscii(c) ==> IsUpperAscii(u) && u as int == c as int - 32
    ensures !IsLowerAscii(c) ==> u == c
  {
    if IsLowerAscii(c) then (c as int - 32) as char else c
  }

  function LowerChar(c: char): (l: char)
    ensures IsUpperAscii(c) ==> IsLowerAscii(l) && l as int == c as int + 32
    ensures !IsUpperAscii(c) ==> l == c
  {
    if IsUpperAscii(c) then (c as int + 32) as char else c
  }

  /** `s.toLowerCase()`, on ASCII letters. */
  function Lower(s: string): (r: string)
    ensures |r| == |s|
    ensures forall i :: 0 <= i < |s| ==> r[i] == LowerChar(s[i])
  {
    seq(|s|, i requires 0 <= i < |s| => LowerChar(s[i]))
  }

  lemma LowerIdempotent(s: string)
    ensures Lower(Lower(s)) == Lower(s)
  {
  }

  predicate StartsWith(s: string, prefix: string)
  {
    |prefix| <= |s| && s[..|prefix|] == prefix
  }

  predicate Occurs(needle: string, hay: string, i: int)
  {
    0 <= i && i + |needle| <= |hay| && hay[i..i + |needle|] == needle
  }

  /** `hay.includes(needle)` */
  function Contains(hay: string, needle: string): (r: bool)
    ensures r <==> exists i :: Occurs(needle, hay, i)
    decreases |hay|
  {
    if StartsWith(hay, needle) then
      assert Occurs(needle, hay, 0);
      true
    else if hay == [] then
      assert forall i :: !Occurs(needle, hay, i);
      false
    else
      var r := Contains(hay[1..], needle);
      assert forall i :: Occurs(needle, hay[1..], i) ==> Occurs(needle, hay, i + 1) by {
        forall i | Occurs(needle, hay[1..], i) ensures Occurs(needle, hay, i + 1) {
          assert hay[1..][i..i + |needle|] == hay[i + 1..i + 1 + |needle|];
        }
      }
      assert forall i :: Occurs(needle, hay, i) && i > 0 ==> Occurs(needle, hay[1..], i - 1) by {
        forall i | Occurs(needle, hay, i) && i > 0 ensures Occurs(needle, hay[1..], i - 1) {
          assert hay[1..][i - 1..i - 1 + |needle|] == hay[i..i + |needle|];
        }
      }
      assert !Occurs(needle, hay, 0);
      r
  }

  /** JavaScript whitespace as `trim` removes it (the ASCII and the common Unicode spaces). */
  predicate IsSpace(c: char)
  {
    c == ' ' || c == '\t' || c == '\n' || c == '\r' || c == '\U{B}' || c == '\U{C}'
    || c == '\U{A0}' || c == '\U{FEFF}' || c == '\U{2028}' || c == '\U{2029}'
  }

  /** `s.trim() === ''` */
  predicate IsBlank(s: string)
  {
    forall i :: 0 <= i < |s| ==> IsSpace(s[i])
  }

  function IndexOf(s: string, c: char): (i: nat)
    requires c in s
    ensures i < |s| && s[i] == c && c !in s[..i]
  {
    if s[0] == c then 0
    else
      var j := IndexOf(s[1..], c);
      assert s[..j + 1] == [s[0]] + s[1..][..j];
      j + 1
  }

  /** `s.split(sep)` for a one-character separator: always at least one part. */
  function Split(s: string, sep: char): (parts: seq<string>)
    ensures |parts| >= 1
    ensures forall k :: 0 <= k < |parts| ==> sep !in parts[k]
    decreases |s|
  {
    if sep !in s then [s]
    else
      var i := IndexOf(s, sep);
      [s[..i]] + Split(s[i + 1..], sep)
  }

  /** `parts.join(sep)` */
  function Join(parts: seq<string>, sep: string): string
  {
    if |parts| == 0 then ""
    else if |parts| == 1 then parts[0]
    else parts[0] + sep + Join(parts[1..], sep)
  }

  /** Number of occurrences of `c` in `s`. */
  function Count(s: string, c: char): nat
  {
    if s == [] then 0 else (if s[0] == c then 1 else 0) + Count(s[1..], c)
  }

  lemma {:induction false} SplitJoinRoundTrip(s: string, sep: char)
    ensures Join(Split(s, sep), [sep]) == s
    decreases |s|
  {
    if sep in s {
      var i := IndexOf(s, sep);
      var rest := s[i + 1..];
      SplitJoinRoundTrip(rest, sep);
      assert Split(s, sep) == [s[..i]] + Split(rest, sep);
      assert s == s[..i] + [sep] + rest;
    }
  }

  // ----- Integers: `parseInt` and the decimal form of an integer -----

  function DigitValue(c: char): (d: nat)
    requires IsDigit(c)
    ensures d < 10
  {
    c as int - '0' as int
  }

  predicate IsHexDigit(c: char)
  {
    IsDigit(c) || 'a' <= c <= 'f' || 'A' <= c <= 'F'
  }

  function HexDigitValue(c: char): (d: nat)
    requires IsHexDigit(c)
    ensures d < 16
  {
    if IsDigit(c) then DigitValue(c)
    else if 'a' <= c <= 'f' then c as int - 'a' as int + 10
    else c as int - 'A' as int + 10
  }

  /** Length of the longest prefix of `s` made of characters satisfying `isDigit`. */
  function RunLength(s: string, hex: bool): (n: nat)
    ensures n <= |s|
    ensures forall i :: 0 <= i < n ==> (if hex then IsHexDigit(s[i]) else IsDigit(s[i]))
    ensures n < |s| ==> !(if hex then IsHexDigit(s[n]) else IsDigit(s[n]))
  {
    if s != [] && (if hex then IsHexDigit(s[0]) else IsDigit(s[0])) then 1 + RunLength(s[1..], hex) else 0
  }

  /** Value of a digit string read most significant digit first. */
  function DigitsValue(s: string, hex: bool): nat
    requires forall i :: 0 <= i < |s| ==> (if hex then IsHexDigit(s[i]) else IsDigit(s[i]))
  {
    if s == [] then 0
    else
      var last := s[|s| - 1];
      (if hex then 16 else 10) * DigitsValue(s[..|s| - 1], hex)
      + (if hex then HexDigitValue(last) else DigitValue(last))
  }

  function TrimStart(s: string): (t: string)
    ensures |t| <= |s| && t == s[|s| - |t|..]
    ensures t != [] ==> !IsSpace(t[0])
  {
    if s != [] && IsSpace(s[0]) then TrimStart(s[1..]) else s
  }

  /** Digits after the sign: a `0x`/`0X` prefix selects hexadecimal, otherwise decimal;
      the longest digit prefix is read and the rest ignored. */
  function ParseUnsigned(u: string): Option<nat>
  {
    var hex := |u| >= 2 && u[0] == '0' && (u[1] == 'x' || u[1] == 'X');
    var digits := if hex then u[2..] else u;
    var n := RunLength(digits, hex);
    if n == 0 then None else Some(DigitsValue(digits[..n], hex))
  }

  /** A text without a decimal digit has no number after any of its suffixes. */
  lemma NoDigitNoNumber(s: string, u: string)
    requires |u| <= |s| && u == s[|s| - |u|..]
    ensures (forall i :: 0 <= i < |s| ==> !IsDigit(s[i])) ==> ParseUnsigned(u).None?
  {
    if forall i :: 0 <= i < |s| ==> !IsDigit(s[i]) {
      assert forall i :: 0 <= i < |u| ==> u[i] == s[|s| - |u| + i];
      assert u != [] ==> !IsDigit(u[0]);
    }
  }

  /** A text that opens with a decimal digit not followed by `x` is read as it stands. */
  lemma LeadingDigitsNumber(s: string)
    ensures |s| >= 1 && IsDigit(s[0]) && (|s| == 1 || IsDigit(s[1])) ==>
              TrimStart(s) == s && ParseUnsigned(s).Some?
  {
  }

  /** JavaScript `parseInt(s)` without a radix: leading whitespace, an optional sign, then
      the digits read by ParseUnsigned. `None` stands for NaN (no digit at all). */
  function ParseInt(s: string): (r: Option<int>)
    ensures (forall i :: 0 <= i < |s| ==> !IsDigit(s[i])) ==> r.None?
    ensures |s| >= 1 && IsDigit(s[0]) && (|s| == 1 || IsDigit(s[1])) ==> r.Some? && r.value >= 0
  {
    var t := TrimStart(s);
    var signed := t != [] && (t[0] == '-' || t[0] == '+');
    var negative := signed && t[0] == '-';
    var u := if signed then t[1..] else t;
    NoDigitNoNumber(s, u);
    LeadingDigitsNumber(s);
    match ParseUnsigned(u)
    case None => None
    case Some(m) => Some(if negative then -(m as int) else m as int)
  }

  function DigitChar(d: nat): (c: char)
    requires d < 10
    ensures IsDigit(c) && DigitValue(c) == d
  {
    ('0' as int + d) as char
  }

  function Digits(n: nat): (s: string)
    ensures |s| >= 1
    ensures forall i :: 0 <= i < |s| ==> IsDigit(s[i])
  {
    if n < 10 then [DigitChar(n)] else Digits(n / 10) + [DigitChar(n % 10)]
  }

  /** `String(n)` for an integer. */
  function ShowInt(n: int): (s: string)
    ensures n < 0 ==> s == "-" + Digits(-n)
    ensures n >= 0 ==> s == Digits(n)
  {
    if n < 0 then "-" + Digits(-n) else Digits(n)
  }

  lemma {:induction false} DigitsValueOfDigits(n: nat)
    ensures DigitsValue(Digits(n), false) == n
  {
    var s := Digits(n);
    if n >= 10 {
      DigitsValueOfDigits(n / 10);
      assert s[..|s| - 1] == Digits(n / 10);
    }
  }

  lemma RunOfAllDigits(s: string)
    requires forall i :: 0 <= i < |s| ==> IsDigit(s[i])
    ensures RunLength(s, false) == |s|
  {
  }

  lemma UnsignedOfDigits(m: nat)
    ensures ParseUnsigned(Digits(m)) == Some(m)
  {
    var d := Digits(m);
    assert !(|d| >= 2 && (d[1] == 'x' || d[1] == 'X'));
    RunOfAllDigits(d);
    assert d[..|d|] == d;
    DigitsValueOfDigits(m);
  }

  /** The decimal form of a whole number reads back as that number. */
  lemma ParseShowNonNegative(n: int)
    requires n >= 0
    ensures ParseInt(ShowInt(n)) == Some(n)
  {
    var d := Digits(n);
    UnsignedOfDigits(n);
    assert IsDigit(d[0]) && !IsSpace(d[0]);
    assert TrimStart(d) == d;
  }

  /** A minus sign before the decimal form of a whole number negates it. */
  lemma ParseShowNegative(n: int)
    requires n < 0
    ensures ParseInt(ShowInt(n)) == Some(n)
  {
    var d := Digits(-n);
    var s := "-" + d;
    UnsignedOfDigits(-n);
    assert ShowInt(n) == s;
    assert s[0] == '-' && s[1..] == d;
    assert !IsSpace(s[0]);
    assert TrimStart(s) == s;
    assert ParseUnsigned(s[1..]) == Some(-n);
  }

  /** Reading back the decimal form of an integer gives the integer. */
  lemma {:induction false} ParseShowRoundTrip(n: int)
    ensures ParseInt(ShowInt(n)) == Some(n)
  {
    if n < 0 {
      ParseShowNegative(n);
    } else {
      ParseShowNonNegative(n);
    }
  }
}

/**
 * JavaScript's global `parseInt(string, radix)` on a string argument, as the
 * ECMAScript specification defines it: skip leading white space, read an
 * optional sign, honour a `0x`/`0X` prefix when the radix is 0 (absent) or 16,
 * then read the longest prefix of digits of the radix. No digit gives NaN,
 * written `None` here. Results are mathematical integers.
 */
module JsParseInt {
  import opened Wrappers
  import opened JsStrings

  /** The value of `c` as a digit of some radix up to 36: `0`-`9`, then `a`-`z` or `A`-`Z`. */
  function DigitValue(c: char): (d: Option<nat>)
    ensures d.Some? ==> d.value < 36
    ensures d.Some? && d.value < 10 <==> '0' <= c <= '9'
  {
    if '0' <= c <= '9' then Some(c as int - '0' as int)
    else if 'a' <= c <= 'z' then Some(c as int - 'a' as int + 10)
    else if 'A' <= c <= 'Z' then Some(c as int - 'A' as int + 10)
    else None
  }

  predicate IsDigit(c: char, radix: nat) {
    DigitValue(c).Some? && DigitValue(c).value < radix
  }

  predicate AllDigits(s: string, radix: nat) {
    forall k :: 0 <= k < |s| ==> IsDigit(s[k], radix)
  }

  /** Length of the longest prefix of `s` made of digits of `radix`. */
  function DigitPrefix(s: string, radix: nat): (n: nat)
    ensures n <= |s| && AllDigits(s[..n], radix)
    ensures n < |s| ==> !IsDigit(s[n], radix)
  {
    if s != [] && IsDigit(s[0], radix) then 1 + DigitPrefix(s[1..], radix) else 0
  }

  /** The value of a numeral, most significant digit first. */
  function NumeralValue(digits: string, radix: nat): nat
    requires AllDigits(digits, radix)
  {
    if digits == [] then 0
    else NumeralValue(digits[..|digits| - 1], radix) * radix + DigitValue(digits[|digits| - 1]).value
  }

  /** -1 when the trimmed text starts with `-`, else 1. */
  function SignOf(t: string): int {
    if |t| > 0 && t[0] == '-' then -1 else 1
  }

  /** The trimmed text with one leading `-` or `+` removed. */
  function AfterSign(t: string): string {
    if |t| > 0 && (t[0] == '-' || t[0] == '+') then t[1..] else t
  }

  predicate HasHexPrefix(u: string) {
    |u| >= 2 && u[0] == '0' && (u[1] == 'x' || u[1] == 'X')
  }

  /**
   * `parseInt(s, radix)`, where `radix` is the second argument after ToInt32
   * (0 when the argument is absent).
   */
  function ParseIntRadix(s: string, radix: int): (r: Option<int>)
    ensures radix != 0 && (radix < 2 || radix > 36) ==> r == None
  {
    var t := TrimStart(s);
    var u := AfterSign(t);
    if radix != 0 && (radix < 2 || radix > 36) then None
    else
      var hex := (radix == 0 || radix == 16) && HasHexPrefix(u);
      var digits := if hex then u[2..] else u;
      var base: nat := if hex then 16 else if radix == 0 then 10 else radix;
      var n := DigitPrefix(digits, base);
      if n == 0 then None else Some(SignOf(t) * NumeralValue(digits[..n], base))
  }

  /** `parseInt(s)` with no radix. */
  function ParseInt(s: string): Option<int> {
    ParseIntRadix(s, 0)
  }

  /** The decimal digit character for `d`. */
  function DigitChar(d: nat): (c: char)
    requires d < 10
    ensures DigitValue(c) == Some(d)
  {
    (d + '0' as int) as char
  }

  /** The digit character for `d` in a radix up to 36: `0`-`9`, then `a`-`z`. */
  function RadixDigitChar(d: nat): (c: char)
    requires d < 36
    ensures DigitValue(c) == Some(d)
  {
    if d < 10 then DigitChar(d) else (d - 10 + 'a' as int) as char
  }

  /** The numeral of `n` in `radix` without leading zeros: the inverse of `NumeralValue`. */
  function RadixDigits(n: nat, radix: nat): (s: string)
    requires 2 <= radix <= 36
    ensures |s| >= 1 && AllDigits(s, radix)
    ensures NumeralValue(s, radix) == n
    ensures s[0] == '0' ==> n == 0 && s == "0"
    decreases n
  {
    if n < radix then
      OneDigit(n, radix);
      [RadixDigitChar(n)]
    else
      var q, d := n / radix, n % radix;
      LastDigit(n, radix);
      var h := RadixDigits(q, radix);
      AppendDigit(h, d, radix);
      assert NumeralValue(h, radix) * radix + d == n;
      h + [RadixDigitChar(d)]
  }

  /** Appending the digit `d` to a numeral multiplies its value by `radix` and adds `d`. */
  lemma AppendDigit(h: string, d: nat, radix: nat)
    requires 2 <= radix <= 36 && d < radix && AllDigits(h, radix) && h != []
    ensures var s := h + [RadixDigitChar(d)];
      AllDigits(s, radix) && NumeralValue(s, radix) == NumeralValue(h, radix) * radix + d && s[0] == h[0]
  {
    var s := h + [RadixDigitChar(d)];
    assert s[..|s| - 1] == h;
  }

  /** `n` is its quotient by `radix` times `radix` plus its last digit, and a quotient of 0 means `n < radix`. */
  lemma LastDigit(n: nat, radix: nat)
    requires 2 <= radix <= 36 && n >= radix
    ensures n / radix * radix + n % radix == n
    ensures 1 <= n / radix < n
  {
  }

  /** A one-digit numeral has the digit's value. */
  lemma OneDigit(d: nat, radix: nat)
    requires 2 <= radix <= 36 && d < radix
    ensures var s := [RadixDigitChar(d)];
      AllDigits(s, radix) && NumeralValue(s, radix) == d && (s[0] == '0' ==> d == 0)
  {
    var s := [RadixDigitChar(d)];
    assert s[..0] == [];
    assert NumeralValue(s, radix) == 0 * radix + d;
  }

  /** `n.toString(radix)` for an integer `n`. */
  function Numeral(n: int, radix: nat): string
    requires 2 <= radix <= 36
  {
    if n < 0 then "-" + RadixDigits(-n, radix) else RadixDigits(n, radix)
  }

  /** The decimal numeral of `n` without leading zeros. */
  function DecimalDigits(n: nat): (s: string)
    ensures |s| >= 1 && AllDigits(s, 10)
    ensures NumeralValue(s, 10) == n
    ensures s[0] == '0' ==> n == 0 && s == "0"
  {
    RadixDigits(n, 10)
  }

  /** `String(n)` for an integer `n`. */
  function Decimal(n: int): string {
    Numeral(n, 10)
  }

  /** Leading white space does not change what `parseInt` reads. */
  lemma {:induction false} TrimStartSkipsSpace(w: string, s: string)
    requires AllSpace(w)
    ensures TrimStart(w + s) == TrimStart(s)
    decreases |w|
  {
    if w != [] {
      assert IsSpace((w + s)[0]);
      assert (w + s)[1..] == w[1..] + s;
      TrimStartSkipsSpace(w[1..], s);
      assert TrimStart(w + s) == TrimStart((w + s)[1..]);
    } else {
      assert w + s == s;
    }
  }

  lemma ParseIntSkipsSpace(w: string, s: string, radix: int)
    requires AllSpace(w)
    ensures ParseIntRadix(w + s, radix) == ParseIntRadix(s, radix)
  {
    TrimStartSkipsSpace(w, s);
  }

  /** Digits followed by a non-digit: the digit prefix is exactly the digits. */
  lemma {:induction false} DigitPrefixOfNumeral(d: string, rest: string, radix: nat)
    requires AllDigits(d, radix)
    requires rest == [] || !IsDigit(rest[0], radix)
    ensures DigitPrefix(d + rest, radix) == |d|
    decreases |d|
  {
    if d != [] {
      assert (d + rest)[1..] == d[1..] + rest;
      DigitPrefixOfNumeral(d[1..], rest, radix);
    } else {
      assert d + rest == rest;
    }
  }

  /**
   * `parseInt` reads back the decimal numeral of any integer, whatever follows
   * it, as long as what follows does not extend the numeral (a digit) or turn a
   * lone `0` into a hexadecimal prefix: `"12abc"` gives 12, `"2.5"` gives 2.
   */
  lemma ParseIntDecimal(n: int, rest: string)
    requires rest == [] || !IsDigit(rest[0], 10)
    requires n != 0 || rest == [] || (rest[0] != 'x' && rest[0] != 'X')
    ensures ParseInt(Decimal(n) + rest) == Some(n)
  {
    var d := DecimalDigits(if n < 0 then -n else n);
    DecimalShape(n, rest);
    DigitPrefixOfNumeral(d, rest, 10);
    assert (d + rest)[..|d|] == d;
    ParseIntUnprefixed(Decimal(n) + rest, d + rest, |d|);
  }

  /** The decimal numeral of `n` followed by `rest`, read back step by step. */
  lemma DecimalShape(n: int, rest: string)
    requires n != 0 || rest == [] || (rest[0] != 'x' && rest[0] != 'X')
    ensures var s := Decimal(n) + rest; var d := DecimalDigits(if n < 0 then -n else n);
      TrimStart(s) == s && AfterSign(s) == d + rest && !HasHexPrefix(d + rest) &&
      SignOf(s) * NumeralValue(d, 10) == n
  {
    NumeralShape(n, 10, rest);
  }

  /** The numeral of `n` in `radix` followed by `rest`: no space, its sign, then its digits. */
  lemma NumeralShape(n: int, radix: nat, rest: string)
    requires 2 <= radix <= 36
    requires n != 0 || rest == [] || (rest[0] != 'x' && rest[0] != 'X')
    ensures var s := Numeral(n, radix) + rest; var d := RadixDigits(if n < 0 then -n else n, radix);
      TrimStart(s) == s && AfterSign(s) == d + rest && !HasHexPrefix(d + rest) &&
      SignOf(s) * NumeralValue(d, radix) == n
  {
    if n < 0 {
      NegativeShape(n, radix, rest);
    } else {
      NonNegativeShape(n, radix, rest);
    }
  }

  lemma NegativeShape(n: int, radix: nat, rest: string)
    requires 2 <= radix <= 36 && n < 0
    ensures var d := RadixDigits(-n, radix); var s := Numeral(n, radix) + rest;
      TrimStart(s) == s && AfterSign(s) == d + rest && !HasHexPrefix(d + rest) &&
      SignOf(s) * NumeralValue(d, radix) == n
  {
    var d := RadixDigits(-n, radix);
    var s := Numeral(n, radix) + rest;
    assert s == "-" + (d + rest);
    assert s[0] == '-';
    assert s[1..] == d + rest;
    assert SignOf(s) == -1;
    assert (d + rest)[0] == d[0] && d[0] != '0';
    StartsWithDigit(d + rest, radix);
    assert SignOf(s) * NumeralValue(d, radix) == -1 * -n;
  }

  lemma NonNegativeShape(n: int, radix: nat, rest: string)
    requires 2 <= radix <= 36 && n >= 0
    requires n != 0 || rest == [] || (rest[0] != 'x' && rest[0] != 'X')
    ensures var d := RadixDigits(n, radix); var s := Numeral(n, radix) + rest;
      TrimStart(s) == s && AfterSign(s) == s && s == d + rest && !HasHexPrefix(s) &&
      SignOf(s) * NumeralValue(d, radix) == n
  {
    var d := RadixDigits(n, radix);
    var s := d + rest;
    assert s[0] == d[0] && IsDigit(s[0], radix);
    StartsWithDigit(s, radix);
    if n == 0 {
      assert s == "0" + rest;
    } else {
      assert s[0] != '0';
    }
  }

  /** Text starting with a digit has no leading space and no sign. */
  lemma StartsWithDigit(s: string, radix: nat)
    requires s != [] && IsDigit(s[0], radix)
    ensures TrimStart(s) == s && AfterSign(s) == s && SignOf(s) == 1
  {
    assert !IsSpace(s[0]);
  }

  /** `parseInt` of text without leading space and without a `0x` prefix. */
  lemma ParseIntUnprefixed(s: string, u: string, k: nat)
    requires TrimStart(s) == s && AfterSign(s) == u && !HasHexPrefix(u)
    requires 0 < k <= |u| && DigitPrefix(u, 10) == k
    ensures ParseInt(s) == Some(SignOf(s) * NumeralValue(u[..k], 10))
  {
  }

  /** The same with nothing after the numeral: `parseInt(String(n)) == n`. */
  lemma ParseIntRoundTrip(n: int)
    ensures ParseInt(Decimal(n)) == Some(n)
  {
    ParseIntDecimal(n, "");
    assert Decimal(n) + "" == Decimal(n);
  }

  /**
   * Exactly when `parseInt(s)` is NaN: after the white space and the sign there
   * is no decimal digit, or there is a `0x` prefix with no hexadecimal digit after it.
   */
  lemma ParseIntNaN(s: string)
    ensures var u := AfterSign(TrimStart(s));
      ParseInt(s) == None <==>
        if HasHexPrefix(u) then |u| == 2 || !IsDigit(u[2], 16)
        else u == [] || !IsDigit(u[0], 10)
  {
  }

  /**
   * What `parseInt(s, radix)` reads for a radix of 2 to 36: after the white space
   * and the sign, the longest prefix of digits of that radix, where a `0x` prefix
   * is passed over only in radix 16; NaN when that prefix is empty.
   */
  lemma ParseIntInRadix(s: string, radix: int)
    requires 2 <= radix <= 36
    ensures var t := TrimStart(s); var u := AfterSign(t);
      var digits := if radix == 16 && HasHexPrefix(u) then u[2..] else u;
      var n := DigitPrefix(digits, radix);
      ParseIntRadix(s, radix) == if n == 0 then None else Some(SignOf(t) * NumeralValue(digits[..n], radix))
  {
  }

  /** `parseInt(n.toString(radix), radix) == n` for every integer and every radix of 2 to 36. */
  lemma ParseIntRadixRoundTrip(n: int, radix: nat)
    requires 2 <= radix <= 36
    ensures ParseIntRadix(Numeral(n, radix), radix) == Some(n)
  {
    var d := RadixDigits(if n < 0 then -n else n, radix);
    NumeralShape(n, radix, "");
    assert Numeral(n, radix) + "" == Numeral(n, radix) && d + "" == d;
    DigitPrefixOfNumeral(d, "", radix);
    ParseIntInRadix(Numeral(n, radix), radix);
    assert d[..|d|] == d;
  }

  /** A radix of 1 always gives NaN. */
  lemma RadixOneIsNaN(s: string)
    ensures ParseIntRadix(s, 1) == None
  {
  }

  /** An absent query parameter reaches `parseInt` as the string "undefined". */
  lemma UndefinedIsNaN()
    ensures ParseInt("undefined") == None
  {
  }
}

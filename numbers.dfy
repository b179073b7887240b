/** `parseInt(string, 10)` following the steps of section 19.2.5 of ECMA-262 up to the
    mathematical integer it reads (the final conversion to a double is not modelled), and the
    empty-or-NaN-to-null transform every form schema applies to an employee id. */
module Numbers {
  import opened Common
  import opened Text

  /** The code points `TrimString` removes: WhiteSpace and LineTerminator. */
  predicate IsStrWhiteSpaceChar(c: char)
  {
    var n := c as int;
    n == 0x09 || n == 0x0A || n == 0x0B || n == 0x0C || n == 0x0D || n == 0x20
    || n == 0xA0 || n == 0x1680 || (0x2000 <= n <= 0x200A) || n == 0x2028 || n == 0x2029
    || n == 0x202F || n == 0x205F || n == 0x3000 || n == 0xFEFF
  }

  /** `TrimString(s, start)`. */
  function TrimStart(s: string): (r: string)
    ensures |r| <= |s| && r == s[|s| - |r|..]
    ensures r == [] || !IsStrWhiteSpaceChar(r[0])
  {
    if s != [] && IsStrWhiteSpaceChar(s[0]) then TrimStart(s[1..]) else s
  }

  /** Length of the longest prefix of `s` made of decimal digits. */
  function DigitRun(s: string): (n: nat)
    ensures n <= |s|
    ensures forall i :: 0 <= i < n ==> IsDecimalDigit(s[i])
    ensures n < |s| ==> !IsDecimalDigit(s[n])
  {
    if s != [] && IsDecimalDigit(s[0]) then 1 + DigitRun(s[1..]) else 0
  }

  predicate AllDigits(d: string)
  {
    forall i :: 0 <= i < |d| ==> IsDecimalDigit(d[i])
  }

  function DigitValue(c: char): nat
    requires IsDecimalDigit(c)
  {
    c as int - '0' as int
  }

  /** The mathematical value of a string of decimal digits. */
  function DigitsValue(d: string): nat
    requires AllDigits(d)
  {
    if d == [] then 0 else 10 * DigitsValue(d[..|d| - 1]) + DigitValue(d[|d| - 1])
  }

  /** `parseInt(s, 10)`; `None` is NaN: trim leading white space, read an optional sign,
      then the longest run of decimal digits. */
  function ParseInt(s: string): Option<int>
  {
    var t := TrimStart(s);
    if t != [] && t[0] == '-' then
      match ParseDigits(t[1..]) case None => None case Some(v) => Some(-v)
    else if t != [] && t[0] == '+' then ParseDigits(t[1..])
    else ParseDigits(t)
  }

  /** The value of the leading digits of `u`, or NaN when there are none. */
  function ParseDigits(u: string): Option<int>
  {
    var n := DigitRun(u);
    if n == 0 then None else Some(DigitsValue(u[..n]))
  }

  /** The transform of the schemas:
      `if (!val) return null; const p = parseInt(val, 10); return isNaN(p) ? null : p;` */
  function EmptyOrNaNToNull(val: Option<string>): Option<int>
  {
    if val.None? || val.value == "" then None else ParseInt(val.value)
  }

  /** The digits of a number read back as that number. */
  lemma {:induction false} DigitsValueOfNatToString(n: nat)
    ensures DigitsValue(NatToString(n)) == n
  {
    if n >= 10 {
      var s := NatToString(n);
      assert s[..|s| - 1] == NatToString(n / 10);
      DigitsValueOfNatToString(n / 10);
    }
  }

  lemma {:induction false} DigitRunAllDigits(d: string, rest: string)
    requires AllDigits(d)
    requires rest == [] || !IsDecimalDigit(rest[0])
    ensures DigitRun(d + rest) == |d|
  {
    if d != [] {
      assert (d + rest)[1..] == d[1..] + rest;
      DigitRunAllDigits(d[1..], rest);
    }
  }

  /** A leading run of digits is read up to the first character that is not a digit. */
  lemma LeadingInteger(d: string, rest: string)
    requires d != [] && AllDigits(d)
    requires rest == [] || !IsDecimalDigit(rest[0])
    ensures ParseInt(d + rest) == Some(DigitsValue(d))
  {
    var s := d + rest;
    assert s[0] == d[0] && IsDecimalDigit(d[0]);
    TrimStartKeeps(s);
    ParseDigitsLeading(d, rest);
  }

  /** A string that starts with a character other than white space is not trimmed. */
  lemma TrimStartKeeps(s: string)
    requires s != [] && !IsStrWhiteSpaceChar(s[0])
    ensures TrimStart(s) == s
  {
  }

  /** A negative sign in front of a leading integer negates it. */
  lemma LeadingNegativeInteger(d: string, rest: string)
    requires d != [] && AllDigits(d)
    requires rest == [] || !IsDecimalDigit(rest[0])
    ensures var v: int := DigitsValue(d); ParseInt(['-'] + (d + rest)) == Some(-v)
  {
    ParseIntNegative(d + rest);
    ParseDigitsLeading(d, rest);
  }

  /** After a minus sign, `parseInt` reads the digits and negates them. */
  lemma ParseIntNegative(t: string)
    ensures ParseInt(['-'] + t) == match ParseDigits(t) case None => None case Some(v) => Some(-v)
  {
    var s := ['-'] + t;
    TrimStartKeeps(s);
    assert s[1..] == t;
  }

  lemma ParseDigitsLeading(d: string, rest: string)
    requires d != [] && AllDigits(d)
    requires rest == [] || !IsDecimalDigit(rest[0])
    ensures ParseDigits(d + rest) == Some(DigitsValue(d))
  {
    DigitRunAllDigits(d, rest);
    assert (d + rest)[..|d|] == d;
  }

  /** Round trip: the decimal notation of `n` parses back to `n`. */
  lemma ParseIntNatToString(n: nat)
    ensures ParseInt(NatToString(n)) == Some(n)
  {
    LeadingInteger(NatToString(n), "");
    assert NatToString(n) + "" == NatToString(n);
    DigitsValueOfNatToString(n);
  }

  /** A string whose first character is neither white space, a sign nor a digit is NaN. */
  lemma NoLeadingDigitIsNaN(s: string)
    requires s != [] && !IsStrWhiteSpaceChar(s[0]) && !IsDecimalDigit(s[0])
    requires s[0] != '+' && s[0] != '-'
    ensures ParseInt(s) == None
  {
    TrimStartKeeps(s);
  }

  /** The id a select box submits as a decimal string comes back as that id. */
  lemma EmptyOrNaNToNullOfId(n: nat)
    ensures EmptyOrNaNToNull(Some(NatToString(n))) == Some(n)
  {
    ParseIntNatToString(n);
  }
}

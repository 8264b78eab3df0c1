/** JavaScript's `parseInt(s)` with no radix, as the bed-number editor of
    src/components/StructureManager.tsx uses it: leading white space is
    skipped, one sign is allowed, a `0x`/`0X` prefix switches to base 16, and
    the longest run of digits that follows is read; anything after it is
    ignored. No digit at all gives NaN, here `None`. */
module JsParseInt {
  import opened Common

  /** The white space `parseInt` skips (the ASCII ones, no-break space and
      the byte-order mark). */
  predicate IsSpace(c: char) {
    c == ' ' || c == '\t' || c == '\n' || c == '\r' || c == '\U{B}' || c == '\U{C}'
    || c == '\U{A0}' || c == '\U{FEFF}'
  }

  function TrimStart(s: string): (r: string)
    ensures r == [] || !IsSpace(r[0])
    ensures |r| <= |s| && r == s[|s| - |r|..]
  {
    if s != [] && IsSpace(s[0]) then TrimStart(s[1..]) else s
  }

  predicate IsDigitOf(c: char, radix: nat) {
    ('0' <= c <= '9') || (radix == 16 && (('a' <= c <= 'f') || ('A' <= c <= 'F')))
  }

  function CharValue(c: char): nat {
    if '0' <= c <= '9' then c as nat - '0' as nat
    else if 'a' <= c <= 'f' then c as nat - 'a' as nat + 10
    else if 'A' <= c <= 'F' then c as nat - 'A' as nat + 10
    else 0
  }

  /** The longest prefix of `s` made of digits of the radix. */
  function LeadingDigits(s: string, radix: nat): (ds: string)
    ensures |ds| <= |s| && ds == s[..|ds|]
    ensures forall i :: 0 <= i < |ds| ==> IsDigitOf(ds[i], radix)
    ensures |ds| < |s| ==> !IsDigitOf(s[|ds|], radix)
  {
    if s == [] || !IsDigitOf(s[0], radix) then [] else [s[0]] + LeadingDigits(s[1..], radix)
  }

  /** The number a run of digits denotes, most significant digit first. */
  function DigitsValue(ds: string, radix: nat): nat {
    if ds == [] then 0 else DigitsValue(ds[..|ds| - 1], radix) * radix + CharValue(ds[|ds| - 1])
  }

  /** The digits after the sign: base 16 after a `0x`/`0X` prefix, else
      base 10. */
  function ReadUnsigned(u: string): Option<nat> {
    var hex := |u| >= 2 && u[0] == '0' && (u[1] == 'x' || u[1] == 'X');
    var radix := if hex then 16 else 10;
    var ds := LeadingDigits(if hex then u[2..] else u, radix);
    if ds == [] then None else Some(DigitsValue(ds, radix))
  }

  function ParseInt(s: string): Option<int> {
    var t := TrimStart(s);
    if t != [] && t[0] == '-' then
      match ReadUnsigned(t[1..])
      case None => None
      case Some(v) => Some(0 - v)
    else if t != [] && t[0] == '+' then
      match ReadUnsigned(t[1..])
      case None => None
      case Some(v) => Some(v)
    else
      match ReadUnsigned(t)
      case None => None
      case Some(v) => Some(v)
  }

  function DigitChar(d: nat): char
    requires d < 10
  {
    ('0' as int + d) as char
  }

  /** `n.toString()` for a non-negative integer. */
  function NatToString(n: nat): (s: string)
    ensures s != []
    ensures forall i :: 0 <= i < |s| ==> '0' <= s[i] <= '9'
  {
    if n < 10 then [DigitChar(n)] else NatToString(n / 10) + [DigitChar(n % 10)]
  }

  /** The decimal digits of `n` denote `n`. */
  lemma {:induction false} NatToStringValue(n: nat)
    ensures DigitsValue(NatToString(n), 10) == n
  {
    if n >= 10 {
      NatToStringValue(n / 10);
      var s := NatToString(n);
      assert s[..|s| - 1] == NatToString(n / 10);
    }
  }

  lemma NotSpaceIsKept(t: string)
    requires t != [] && !IsSpace(t[0])
    ensures TrimStart(t) == t
  {
  }

  /** Text that starts with a digit is read as it stands. */
  lemma ParseIntOfDigitStart(u: string)
    requires u != [] && '0' <= u[0] <= '9'
    ensures ParseInt(u) == ReadUnsigned(u)
  {
    NotSpaceIsKept(u);
  }

  lemma ParseIntOfMinus(u: string, k: nat)
    requires u != [] && '0' <= u[0] <= '9'
    requires ReadUnsigned(u) == Some(k)
    ensures ParseInt("-" + u) == Some(0 - k)
  {
    var m := "-" + u;
    NotSpaceIsKept(m);
    assert m[1..] == u;
  }

  /** A run of digits followed by a non-digit is read up to the non-digit. */
  lemma {:induction false} LeadingDigitsOfRun(ds: string, rest: string, radix: nat)
    requires forall i :: 0 <= i < |ds| ==> IsDigitOf(ds[i], radix)
    requires rest == [] || !IsDigitOf(rest[0], radix)
    ensures LeadingDigits(ds + rest, radix) == ds
  {
    if ds != [] {
      LeadingDigitsOfRun(ds[1..], rest, radix);
      assert (ds + rest)[1..] == ds[1..] + rest;
    } else {
      assert ds + rest == rest;
    }
  }

  lemma ReadDecimal(n: nat, rest: string)
    requires rest == [] || (!IsDigitOf(rest[0], 10) && rest[0] != 'x' && rest[0] != 'X')
    ensures ReadUnsigned(NatToString(n) + rest) == Some(n)
  {
    var s := NatToString(n);
    var u := s + rest;
    LeadingDigitsOfRun(s, rest, 10);
    NatToStringValue(n);
    if |s| >= 2 {
      assert u[1] == s[1];
    } else if rest != [] {
      assert u[1] == rest[0];
    }
  }

  /** `parseInt` reads back what `toString` wrote, also when non-digit text
      follows (`"12abc"` gives 12). */
  lemma ParseIntOfDecimal(n: nat, rest: string)
    requires rest == [] || (!IsDigitOf(rest[0], 10) && rest[0] != 'x' && rest[0] != 'X')
    ensures ParseInt(NatToString(n) + rest) == Some(n)
  {
    var u := NatToString(n) + rest;
    ReadDecimal(n, rest);
    assert u[0] == NatToString(n)[0];
    ParseIntOfDigitStart(u);
  }

  /** A minus sign negates the number, so the bed-number editor accepts
      zero and negative numbers. */
  lemma ParseIntOfNegative(n: nat, rest: string)
    requires rest == [] || (!IsDigitOf(rest[0], 10) && rest[0] != 'x' && rest[0] != 'X')
    ensures ParseInt("-" + (NatToString(n) + rest)) == Some(0 - n)
  {
    var u := NatToString(n) + rest;
    ReadDecimal(n, rest);
    assert u[0] == NatToString(n)[0];
    ParseIntOfMinus(u, n);
  }

  /** Text with no digit after the optional sign is NaN. */
  lemma NoDigitIsNaN(s: string)
    requires s == [] || (!IsDigitOf(s[0], 10) && !IsSpace(s[0]) && s[0] != '-' && s[0] != '+')
    ensures ParseInt(s) == None
  {
  }
}

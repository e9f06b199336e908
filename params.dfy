/**
 * The two persisted parameters the monitoring loop reads once at startup,
 * "IsRHD" and "HandsOnWheelMonitoring". A parameter is a byte string, or
 * absent. IsRHD is interpreted as `bool(int(value))`, so this module models
 * the part of Python's `int()` that applies to a byte string in base 10.
 */
module Params {
  import opened Wrappers

  /** One byte of a stored parameter value. */
  type byte = b: int | 0 <= b < 256

  const PLUS: byte := 43
  const MINUS: byte := 45
  const ZERO: byte := 48
  const ONE: byte := 49
  const UNDERSCORE: byte := 95

  /** ASCII white space, which `int()` skips around a literal: space, \t, \n, \v, \f, \r. */
  predicate IsSpace(b: byte)
  {
    b == 32 || 9 <= b <= 13
  }

  predicate IsDigit(b: byte)
  {
    ZERO <= b <= ZERO + 9
  }

  /** `s` without its leading white space. */
  function TrimLeft(s: seq<byte>): (r: seq<byte>)
    ensures |r| <= |s| && r == s[|s| - |r|..]
    ensures r != [] ==> !IsSpace(r[0])
    ensures forall i :: 0 <= i < |s| - |r| ==> IsSpace(s[i])
  {
    if s != [] && IsSpace(s[0]) then TrimLeft(s[1..]) else s
  }

  /** `s` without its trailing white space. */
  function TrimRight(s: seq<byte>): (r: seq<byte>)
    ensures |r| <= |s| && r == s[..|r|]
    ensures r != [] ==> !IsSpace(r[|r| - 1])
    ensures forall i :: |r| <= i < |s| ==> IsSpace(s[i])
  {
    if s != [] && IsSpace(s[|s| - 1]) then TrimRight(s[..|s| - 1]) else s
  }

  /** Decimal digits, where a single underscore may separate two digits ("1_000"). */
  predicate IsDecimalLiteral(s: seq<byte>)
  {
    && |s| > 0
    && IsDigit(s[0])
    && IsDigit(s[|s| - 1])
    && forall i :: 0 <= i < |s| ==> IsDigit(s[i]) || (s[i] == UNDERSCORE && i + 1 < |s| && IsDigit(s[i + 1]))
  }

  /** The number a decimal literal denotes; underscores are skipped. */
  function DigitsValue(s: seq<byte>): nat
  {
    if s == [] then 0
    else if IsDigit(s[|s| - 1]) then DigitsValue(s[..|s| - 1]) * 10 + (s[|s| - 1] - ZERO)
    else DigitsValue(s[..|s| - 1])
  }

  /** A decimal literal, possibly with one sign directly in front of it. */
  predicate IsIntLiteral(t: seq<byte>)
  {
    IsDecimalLiteral(t) || (|t| > 0 && (t[0] == PLUS || t[0] == MINUS) && IsDecimalLiteral(t[1..]))
  }

  /**
   * Python's `int(s)` on a byte string: optional white space, an optional sign
   * directly before the digits, a decimal literal, optional white space.
   * `None` stands for the ValueError that `int()` raises otherwise.
   */
  function ParseInt(s: seq<byte>): (r: Option<int>)
    ensures r.Some? <==> IsIntLiteral(TrimRight(TrimLeft(s)))
    ensures r.Some? && r.value < 0 ==> TrimRight(TrimLeft(s))[0] == MINUS
  {
    var t := TrimRight(TrimLeft(s));
    if |t| > 0 && (t[0] == PLUS || t[0] == MINUS) then
      if IsDecimalLiteral(t[1..]) then
        Some(if t[0] == MINUS then -(DigitsValue(t[1..]) as int) else DigitsValue(t[1..]))
      else None
    else if IsDecimalLiteral(t) then Some(DigitsValue(t))
    else None
  }

  /** Decimal digits of `n` without leading zeros, as `str(n)` writes them. */
  function FormatNat(n: nat): seq<byte>
    decreases n
  {
    if n < 10 then [ZERO + n] else FormatNat(n / 10) + [ZERO + n % 10]
  }

  /** `str(n).encode()`: how an integer parameter is written. */
  function FormatInt(n: int): seq<byte>
  {
    if n < 0 then [MINUS] + FormatNat(-n) else FormatNat(n)
  }

  lemma {:induction false} FormatNatDigits(n: nat)
    ensures |FormatNat(n)| > 0
    ensures forall i :: 0 <= i < |FormatNat(n)| ==> IsDigit(FormatNat(n)[i])
    ensures DigitsValue(FormatNat(n)) == n
    decreases n
  {
    if n >= 10 {
      FormatNatDigits(n / 10);
      var s := FormatNat(n);
      assert s[..|s| - 1] == FormatNat(n / 10);
    }
  }

  /** An unsigned literal with nothing around it reads as its value. */
  lemma ParseLiteral(d: seq<byte>)
    requires IsDecimalLiteral(d)
    ensures ParseInt(d) == Some(DigitsValue(d))
  {
    assert !IsSpace(d[0]) && !IsSpace(d[|d| - 1]);
    assert TrimLeft(d) == d;
    assert TrimRight(d) == d;
    assert d[0] != PLUS && d[0] != MINUS;
  }

  /** A minus sign directly before a literal negates its value. */
  lemma ParseNegated(d: seq<byte>)
    requires IsDecimalLiteral(d)
    ensures ParseInt([MINUS] + d) == Some(-(DigitsValue(d) as int))
  {
    var s := [MINUS] + d;
    assert s[0] == MINUS && s[1..] == d && s[|s| - 1] == d[|d| - 1];
    assert !IsSpace(s[0]) && !IsSpace(s[|s| - 1]);
    assert TrimLeft(s) == s;
    assert TrimRight(s) == s;
  }

  /** Reading back a written integer gives the integer: `int(str(n).encode()) == n`. */
  lemma ParseFormat(n: int)
    ensures ParseInt(FormatInt(n)) == Some(n)
  {
    var m: nat := if n < 0 then -n else n;
    FormatNatDigits(m);
    var d := FormatNat(m);
    assert IsDecimalLiteral(d);
    if n < 0 {
      assert FormatInt(n) == [MINUS] + d;
      ParseNegated(d);
      assert ParseInt(FormatInt(n)) == Some(-(DigitsValue(d) as int));
    } else {
      assert FormatInt(n) == d;
      ParseLiteral(d);
    }
  }

  /** Why reading IsRHD can fail: `int()` raises on a value that is not an integer literal. */
  datatype StartupError = IsRhdNotAnInteger

  /**
   * The RHD override: absent leaves the driver-side setting at its default;
   * present sets it to `bool(int(value))`.
   */
  function ReadIsRhd(p: Option<seq<byte>>): (r: Result<Option<bool>, StartupError>)
    ensures p.None? ==> r == Ok(None)
    ensures p.Some? ==> (r.Err? <==> ParseInt(p.value).None?)
    ensures r.Ok? && r.value.Some? ==> p.Some? && (r.value.value <==> ParseInt(p.value).value != 0)
    ensures p.Some? && ParseInt(p.value).Some? ==> r == Ok(Some(ParseInt(p.value).value != 0))
  {
    match p
    case None => Ok(None)
    case Some(raw) =>
      match ParseInt(raw)
      case None => Err(IsRhdNotAnInteger)
      case Some(n) => Ok(Some(n != 0))
  }

  /** The setting as written ("0" or "1") reads back as the same flag. */
  lemma ReadIsRhdWritten(rhd: bool)
    ensures ReadIsRhd(Some(FormatInt(if rhd then 1 else 0))) == Ok(Some(rhd))
  {
    ParseFormat(if rhd then 1 else 0);
  }

  /**
   * Hands-on-wheel monitoring is on when the parameter is exactly the byte
   * string "1", the way the setting writes the integer 1.
   */
  function HandsOnWheelFlag(p: Option<seq<byte>>): (enabled: bool)
    ensures enabled <==> p == Some(FormatInt(1))
    ensures enabled ==> ParseInt(p.value) == Some(1)
  {
    ParseFormat(1);
    p == Some([ONE])
  }

  /**
   * The flag is stricter than IsRHD's reading: "01" and "1\n" denote 1 for
   * `int()` but leave hands-on-wheel monitoring off.
   */
  lemma HandsOnWheelFlagIsStrict()
    ensures ParseInt([ZERO, ONE]) == Some(1) && !HandsOnWheelFlag(Some([ZERO, ONE]))
    ensures ParseInt([ONE, 10]) == Some(1) && !HandsOnWheelFlag(Some([ONE, 10]))
  {
    var a: seq<byte> := [ZERO, ONE];
    assert TrimLeft(a) == a && TrimRight(a) == a;
    assert DigitsValue(a[..1]) == 0;
    var b: seq<byte> := [ONE, 10];
    assert TrimLeft(b) == b;
    assert TrimRight(b[..1]) == b[..1];
    assert TrimRight(b) == [ONE];
  }
}

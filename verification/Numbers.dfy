// Reading decimal numbers the way strconv and fmt.Sscanf do.
module Numbers {
  import opened Records
  import opened Text

  const MAX_INT64 := 0x7fff_ffff_ffff_ffff
  const MIN_INT64 := -0x8000_0000_0000_0000
  const MAX_UINT64 := 0xffff_ffff_ffff_ffff
  const MAX_UINT32 := 0xffff_ffff

  datatype Number = NotANumber | TooLarge | Value(n: nat)

  // strconv.ParseUint's loop: a value over `max` is reported before any later
  // character is looked at.
  function ParseDigits(s: string, acc: nat, max: nat): (r: Number)
    ensures acc <= max && r.Value? ==> r.n <= max
  {
    if s == "" then Value(acc)
    else if !IsDigit(s[0]) then NotANumber
    else
      var n := 10 * acc + (s[0] as int - '0' as int);
      if n > max then TooLarge else ParseDigits(s[1..], n, max)
  }

  function ParseUint(s: string, max: nat): (r: Number)
    ensures r.Value? ==> r.n <= max
  {
    if s == "" then NotANumber else ParseDigits(s, 0, max)
  }

  function IsSign(c: char): bool { c == '+' || c == '-' }

  function Unsign(s: string): string
  {
    if s != "" && IsSign(s[0]) then s[1..] else s
  }

  function Clamp(x: int): int
  {
    if x > MAX_INT64 then MAX_INT64 else if x < MIN_INT64 then MIN_INT64 else x
  }

  predicate IsInt64(x: int) { MIN_INT64 <= x <= MAX_INT64 }

  function Negate(negative: bool, n: int): int { if negative then -n else n }

  // The value of strconv.Atoi when its error is ignored: 0 for what is not a
  // number, the nearest int64 for a number out of range.
  function Atoi(s: string): int
  {
    var negative := s != "" && s[0] == '-';
    match ParseUint(Unsign(s), MAX_UINT64)
    case NotANumber => 0
    case TooLarge => Clamp(Negate(negative, MAX_UINT64))
    case Value(n) => Clamp(Negate(negative, n))
  }

  function IsBlank(c: char): bool { c == ' ' || c == '\t' || c == '\r' || c == 11 as char || c == 12 as char }

  function SkipBlanks(s: string): string
  {
    if s != "" && IsBlank(s[0]) then SkipBlanks(s[1..]) else s
  }

  // The longest run of digits at the front.
  function DigitRun(s: string): (r: string)
    ensures r <= s && AllDigits(r)
    ensures |r| < |s| ==> !IsDigit(s[|r|])
  {
    if s != "" && IsDigit(s[0]) then [s[0]] + DigitRun(s[1..]) else ""
  }

  // fmt.Sscanf(s, "%d", &int): blanks, a sign, digits; anything after is left.
  function ScanInt(s: string): Option<int>
  {
    var t := SkipBlanks(s);
    var negative := t != "" && t[0] == '-';
    match ParseUint(DigitRun(Unsign(t)), MAX_UINT64)
    case Value(n) => if IsInt64(Negate(negative, n)) then Some(Negate(negative, n)) else None
    case _ => None
  }

  // fmt.Sscanf(s, "%d", &uint32): no sign.
  function ScanUint32(s: string): Option<nat>
  {
    match ParseUint(DigitRun(SkipBlanks(s)), MAX_UINT64)
    case Value(n) => if n <= MAX_UINT32 then Some(n) else None
    case _ => None
  }

  // strconv.ParseUint(s, 10, 32)
  function ParseUint32(s: string): Option<nat>
  {
    match ParseUint(s, MAX_UINT32)
    case Value(n) => Some(n)
    case _ => None
  }

  // ---- Printed numbers are read back

  lemma {:induction false} ParseDecimal(n: nat, rest: string, max: nat)
    requires n <= max
    ensures ParseDigits(Decimal(n) + rest, 0, max) == ParseDigits(rest, n, max)
  {
    var last := [('0' as int + n % 10) as char];
    if n >= 10 {
      assert Decimal(n) + rest == Decimal(n / 10) + (last + rest);
      ParseDecimal(n / 10, last + rest, max);
    }
    assert (last + rest)[1..] == rest;
  }

  lemma ParseUintDecimal(n: nat, max: nat)
    requires n <= max
    ensures ParseUint(Decimal(n), max) == Value(n)
  {
    ParseDecimal(n, "", max);
    assert Decimal(n) + "" == Decimal(n);
  }

  lemma WholeRun(s: string)
    requires AllDigits(s)
    ensures DigitRun(s) == s
  {}

  lemma UnsignedPart(x: int)
    ensures Unsign(SignedDecimal(x)) == Decimal(if x < 0 then -x else x)
    ensures SignedDecimal(x)[0] == '-' <==> x < 0
    ensures SkipBlanks(SignedDecimal(x)) == SignedDecimal(x)
  {}

  lemma AtoiRoundTrip(x: int)
    requires IsInt64(x)
    ensures Atoi(SignedDecimal(x)) == x
  {
    UnsignedPart(x);
    ParseUintDecimal(if x < 0 then -x else x, MAX_UINT64);
  }

  lemma ScanIntRoundTrip(x: int)
    requires IsInt64(x)
    ensures ScanInt(SignedDecimal(x)) == Some(x)
  {
    UnsignedPart(x);
    WholeRun(Unsign(SignedDecimal(x)));
    ParseUintDecimal(if x < 0 then -x else x, MAX_UINT64);
  }

  lemma ScanUint32RoundTrip(n: nat)
    requires n <= MAX_UINT32
    ensures ScanUint32(Decimal(n)) == Some(n)
  {
    UnsignedPart(n);
    WholeRun(Decimal(n));
    ParseUintDecimal(n, MAX_UINT64);
  }

  // ---- What the readers make of any text

  // The number a digit loop has come to.
  function Folded(acc: nat, s: string): nat
    requires AllDigits(s)
    decreases |s|
  {
    if s == "" then acc else Folded(10 * acc + (s[0] as int - '0' as int), s[1..])
  }

  lemma {:induction false} FoldedLast(acc: nat, s: string, c: char)
    requires AllDigits(s) && IsDigit(c)
    ensures Folded(acc, s + [c]) == 10 * Folded(acc, s) + (c as int - '0' as int)
    decreases |s|
  {
    if s == "" {
      assert ([c])[1..] == "" && s + [c] == [c];
    } else {
      assert (s + [c])[1..] == s[1..] + [c];
      FoldedLast(10 * acc + (s[0] as int - '0' as int), s[1..], c);
    }
  }

  lemma {:induction false} FoldedIsValue(s: string)
    requires AllDigits(s)
    ensures Folded(0, s) == DigitsValue(s)
  {
    if s != "" {
      var n := |s| - 1;
      assert s == s[..n] + [s[n]];
      FoldedIsValue(s[..n]);
      FoldedLast(0, s[..n], s[n]);
    }
  }

  lemma {:induction false} FoldedGrows(acc: nat, s: string)
    requires AllDigits(s)
    ensures Folded(acc, s) >= acc
    decreases |s|
  {
    if s != "" {
      FoldedGrows(10 * acc + (s[0] as int - '0' as int), s[1..]);
    }
  }

  // Digits first, then the end or anything else.
  lemma {:induction false} ParseDigitsOf(digits: string, rest: string, acc: nat, max: nat)
    requires AllDigits(digits) && (rest != "" ==> !IsDigit(rest[0])) && acc <= max
    ensures ParseDigits(digits + rest, acc, max) ==
            if Folded(acc, digits) > max then TooLarge
            else if rest != "" then NotANumber
            else Value(Folded(acc, digits))
  {
    if digits == "" {
      assert digits + rest == rest;
    } else {
      var next := 10 * acc + (digits[0] as int - '0' as int);
      assert (digits + rest)[1..] == digits[1..] + rest;
      FoldedGrows(next, digits[1..]);
      if next <= max {
        ParseDigitsOf(digits[1..], rest, next, max);
      }
    }
  }

  lemma ParseUintOf(digits: string, rest: string, max: nat)
    requires AllDigits(digits) && (rest != "" ==> !IsDigit(rest[0]))
    ensures ParseUint(digits + rest, max) ==
            if DigitsValue(digits) > max then TooLarge
            else if digits == "" || rest != "" then NotANumber
            else Value(DigitsValue(digits))
  {
    FoldedIsValue(digits);
    ParseDigitsOf(digits, rest, 0, max);
    hide ParseDigits;
  }

  function WithSign(sign: string, n: int): int
  {
    if sign == "-" then -n else n
  }

  // strconv.Atoi with its error ignored: the number if the text is one, cut off
  // at the ends of int64; 0 for anything else, but the end of int64 if digits
  // that do not fit 64 bits come first.
  lemma AtoiOf(sign: string, digits: string, rest: string)
    requires sign in {"", "+", "-"} && AllDigits(digits) && (rest != "" ==> !IsDigit(rest[0]))
    requires sign == "" && digits == "" && rest != "" ==> rest[0] != '+' && rest[0] != '-'
    ensures var v := WithSign(sign, DigitsValue(digits));
            Atoi(sign + digits + rest) ==
            if digits == "" || (rest != "" && DigitsValue(digits) <= 18446744073709551615) then 0
            else if v > 9223372036854775807 then 9223372036854775807
            else if v < -9223372036854775808 then -9223372036854775808
            else v
  {
    ParseUintOf(digits, rest, MAX_UINT64);
    SignCut(sign, digits, rest);
    assert DigitsValue("") == 0;
    hide ParseUint, DigitsValue;
  }

  lemma SignCut(sign: string, digits: string, rest: string)
    requires sign in {"", "+", "-"} && AllDigits(digits)
    requires sign == "" && digits == "" && rest != "" ==> rest[0] != '+' && rest[0] != '-'
    ensures var s := sign + digits + rest;
            Unsign(s) == digits + rest && (s != "" && s[0] == '-' <==> sign == "-")
  {
    var s := sign + digits + rest;
    if sign == "" {
      assert s == digits + rest;
    } else {
      assert s[0] == sign[0] && s[1..] == digits + rest;
    }
  }

  // strconv.ParseUint(_, 10, 32) without an error: digits only, and at most 32 bits.
  lemma ParseUint32Of(s: string, v: nat)
    ensures ParseUint32(s) == Some(v) <==>
            s != "" && AllDigits(s) && DigitsValue(s) == v && v <= 4294967295
  {
    var digits := DigitRun(s);
    var rest := s[|digits|..];
    assert s == digits + rest;
    if AllDigits(s) {
      WholeRun(s);
    }
    ParseUintOf(digits, rest, MAX_UINT32);
    hide ParseUint, DigitsValue, DigitRun;
  }

  lemma {:induction false} BlanksSkipped(blanks: string, s: string)
    requires (forall c :: c in blanks ==> IsBlank(c)) && (s != "" ==> !IsBlank(s[0]))
    ensures SkipBlanks(blanks + s) == s
  {
    if blanks == "" {
      assert blanks + s == s;
    } else {
      assert (blanks + s)[1..] == blanks[1..] + s;
      BlanksSkipped(blanks[1..], s);
    }
  }

  lemma {:induction false} RunOf(digits: string, rest: string)
    requires AllDigits(digits) && (rest != "" ==> !IsDigit(rest[0]))
    ensures DigitRun(digits + rest) == digits
  {
    if digits == "" {
      assert digits + rest == rest;
    } else {
      assert (digits + rest)[1..] == digits[1..] + rest;
      RunOf(digits[1..], rest);
    }
  }

  // Scanning an int: blanks, a sign, digits, and anything else left alone.
  lemma ScanIntOf(blanks: string, sign: string, digits: string, rest: string)
    requires forall c :: c in blanks ==> IsBlank(c)
    requires sign in {"", "+", "-"} && AllDigits(digits) && (rest != "" ==> !IsDigit(rest[0]))
    requires sign == "" && digits == "" && rest != "" ==> rest[0] != '+' && rest[0] != '-' && !IsBlank(rest[0])
    ensures var v := WithSign(sign, DigitsValue(digits));
            ScanInt(blanks + (sign + digits + rest)) ==
            if digits != "" && -9223372036854775808 <= v <= 9223372036854775807 then Some(v) else None
  {
    hide ParseUint, DigitsValue, DigitRun, SkipBlanks, Unsign;
    BlanksSkipped(blanks, sign + digits + rest);
    SignCut(sign, digits, rest);
    RunOf(digits, rest);
    RunValue(digits);
  }

  lemma RunValue(digits: string)
    requires AllDigits(digits)
    ensures ParseUint(digits, MAX_UINT64) ==
            if DigitsValue(digits) > MAX_UINT64 then TooLarge
            else if digits == "" then NotANumber
            else Value(DigitsValue(digits))
  {
    hide ParseUint, DigitsValue;
    ParseUintOf(digits, "", MAX_UINT64);
    assert digits + "" == digits;
  }

  // Scanning a uint32: the same without a sign.
  lemma ScanUint32Of(blanks: string, digits: string, rest: string)
    requires forall c :: c in blanks ==> IsBlank(c)
    requires AllDigits(digits) && (rest != "" ==> !IsDigit(rest[0]))
    requires digits == "" && rest != "" ==> !IsBlank(rest[0])
    ensures ScanUint32(blanks + (digits + rest)) ==
            if digits != "" && DigitsValue(digits) <= 4294967295 then Some(DigitsValue(digits)) else None
  {
    BlanksSkipped(blanks, digits + rest);
    RunOf(digits, rest);
    ParseUintOf(digits, "", MAX_UINT64);
    assert digits + "" == digits;
    hide ParseUint, DigitsValue, DigitRun, SkipBlanks;
  }
}

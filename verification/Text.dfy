// Strings as Go's byte strings: decimal numbers, searching and splitting.
module Text {
  import opened Records

  // ---- Decimal numbers

  predicate IsDigit(c: char) { '0' <= c <= '9' }

  predicate AllDigits(s: string)
  {
    forall i :: 0 <= i < |s| ==> IsDigit(s[i])
  }

  // strconv.AppendUint(_, n, 10)
  function Decimal(n: nat): (s: string)
    ensures |s| > 0 && AllDigits(s)
  {
    var last := ('0' as int + n % 10) as char;
    if n < 10 then [last] else Decimal(n / 10) + [last]
  }

  // strconv.AppendInt(_, n, 10)
  function SignedDecimal(n: int): (s: string)
    ensures |s| > 0
  {
    if n < 0 then "-" + Decimal(-n) else Decimal(n)
  }

  // strconv.AppendInt(_, n, 16)
  function Hex(n: nat): string
  {
    var d := n % 16;
    var last := if d < 10 then ('0' as int + d) as char else ('a' as int + d - 10) as char;
    if n < 16 then [last] else Hex(n / 16) + [last]
  }

  function SignedHex(n: int): string
  {
    if n < 0 then "-" + Hex(-n) else Hex(n)
  }

  function DigitsValue(s: string): nat
    requires AllDigits(s)
  {
    if s == "" then 0 else 10 * DigitsValue(s[..|s| - 1]) + (s[|s| - 1] as int - '0' as int)
  }

  lemma {:induction false} DecimalValue(n: nat)
    ensures DigitsValue(Decimal(n)) == n
  {
    var s := Decimal(n);
    if n < 10 {
      assert s[..|s| - 1] == "";
    } else {
      assert s[..|s| - 1] == Decimal(n / 10);
      DecimalValue(n / 10);
    }
  }

  lemma DecimalInjective(m: nat, n: nat)
    requires Decimal(m) == Decimal(n)
    ensures m == n
  {
    DecimalValue(m);
    DecimalValue(n);
  }

  lemma SignedDecimalInjective(m: int, n: int)
    requires SignedDecimal(m) == SignedDecimal(n)
    ensures m == n
  {
    if m < 0 && n < 0 {
      assert SignedDecimal(m)[1..] == Decimal(-m) && SignedDecimal(n)[1..] == Decimal(-n);
      DecimalInjective(-m, -n);
    } else if m >= 0 && n >= 0 {
      DecimalInjective(m, n);
    } else {
      var pos := if m < 0 then n else m;
      assert Decimal(pos)[0] == '-';
    }
  }

  // ---- Searching

  // The first position of `c`, or -1.
  function IndexOf(s: string, c: char): (i: int)
    ensures -1 <= i < |s|
    ensures i == -1 ==> c !in s
    ensures i >= 0 ==> s[i] == c && forall k :: 0 <= k < i ==> s[k] != c
  {
    if s == "" then -1
    else if s[0] == c then 0
    else
      var i := IndexOf(s[1..], c);
      if i < 0 then -1 else i + 1
  }

  // The last position of `c`, or -1.
  function LastIndexOf(s: string, c: char): (i: int)
    ensures -1 <= i < |s|
    ensures i == -1 ==> c !in s
    ensures i >= 0 ==> s[i] == c && forall k :: i < k < |s| ==> s[k] != c
  {
    if s == "" then -1
    else if s[|s| - 1] == c then |s| - 1
    else LastIndexOf(s[..|s| - 1], c)
  }

  lemma IndexAt(a: string, c: char, b: string)
    requires c !in a
    ensures IndexOf(a + [c] + b, c) == |a|
  {
    var s := a + [c] + b;
    assert s[|a|] == c;
    assert forall k :: 0 <= k < |a| ==> s[k] == a[k];
  }

  lemma {:induction false} LastIndexAt(a: string, c: char, b: string)
    requires c !in b
    ensures LastIndexOf(a + [c] + b, c) == |a|
  {
    var s := a + [c] + b;
    if b != "" {
      assert s[..|s| - 1] == a + [c] + b[..|b| - 1];
      LastIndexAt(a, c, b[..|b| - 1]);
    }
  }

  // Cutting at the first or last `c` is unique.
  lemma CutUnique(a: string, c: char, b: string, a': string, b': string)
    requires a + [c] + b == a' + [c] + b'
    requires (c !in a && c !in a') || (c !in b && c !in b')
    ensures a == a' && b == b'
  {
    if c !in a && c !in a' {
      IndexAt(a, c, b);
      IndexAt(a', c, b');
    } else {
      LastIndexAt(a, c, b);
      LastIndexAt(a', c, b');
    }
    var s := a + [c] + b;
    assert a == s[..|a|] && b == s[|a| + 1..];
    assert a' == s[..|a'|] && b' == s[|a'| + 1..];
  }

  // The text before the first `c` and, if there is one, the text after it.
  function Before(s: string, c: char): string
  {
    var i := IndexOf(s, c);
    if i < 0 then s else s[..i]
  }

  function After(s: string, c: char): string
  {
    var i := IndexOf(s, c);
    if i < 0 then "" else s[i + 1..]
  }

  lemma CutFacts(s: string, c: char)
    ensures c !in Before(s, c)
    ensures c in s ==> s == Before(s, c) + [c] + After(s, c)
  {}

  lemma CutAt(a: string, c: char, b: string)
    requires c !in a
    ensures var s := a + [c] + b; c in s && Before(s, c) == a && After(s, c) == b
  {
    IndexAt(a, c, b);
    assert (a + [c] + b)[|a|] == c;
  }

  // A string cut at a character of its front part.
  lemma CutInFront(a: string, c: char, b: string)
    requires c in a
    ensures c in a + b && Before(a + b, c) == Before(a, c) && After(a + b, c) == After(a, c) + b
  {
    var i := IndexOf(a, c);
    assert a == a[..i] + [c] + a[i + 1..];
    CutAt(a[..i], c, a[i + 1..] + b);
    assert a + b == a[..i] + [c] + (a[i + 1..] + b);
  }

  // ---- Splitting

  // strings.Split(s, [c])
  function Split(s: string, c: char): (parts: seq<string>)
    ensures |parts| > 0
    decreases |s|
  {
    if c !in s then [s] else [Before(s, c)] + Split(After(s, c), c)
  }

  function Join(parts: seq<string>, c: char): string
  {
    if |parts| == 0 then ""
    else if |parts| == 1 then parts[0]
    else parts[0] + [c] + Join(parts[1..], c)
  }

  lemma {:induction false} JoinSplit(s: string, c: char)
    ensures Join(Split(s, c), c) == s
    decreases |s|
  {
    if c in s {
      var i := IndexOf(s, c);
      JoinSplit(s[i + 1..], c);
      assert Split(s, c)[1..] == Split(s[i + 1..], c);
      assert s == s[..i] + [c] + s[i + 1..];
    }
  }

  lemma {:induction false} SplitJoin(parts: seq<string>, c: char)
    requires |parts| > 0
    requires forall i :: 0 <= i < |parts| ==> c !in parts[i]
    ensures Split(Join(parts, c), c) == parts
  {
    if |parts| > 1 {
      var rest := Join(parts[1..], c);
      IndexAt(parts[0], c, rest);
      var s := parts[0] + [c] + rest;
      assert s[|parts[0]|] == c;
      assert Before(s, c) == parts[0] && After(s, c) == rest;
      SplitJoin(parts[1..], c);
    }
  }

  // ---- Hexadecimal numbers

  function HexDigit(c: char): Option<nat>
  {
    if '0' <= c <= '9' then Some(c as int - '0' as int)
    else if 'a' <= c <= 'f' then Some(c as int - 'a' as int + 10)
    else None
  }

  // The number a text of hexadecimal digits, 0-9 and a-f, spells.
  function HexValue(s: string): Option<nat>
  {
    if s == "" then Some(0)
    else
      match (HexValue(s[..|s| - 1]), HexDigit(s[|s| - 1]))
      case (Some(n), Some(d)) => Some(16 * n + d)
      case _ => None
  }

  // A printed number has no leading zero and is read back.
  lemma {:induction false} HexRoundTrip(n: nat)
    ensures var s := Hex(n); HexValue(s) == Some(n) && s != "" && (n > 0 ==> s[0] != '0') && (n == 0 ==> s == "0")
  {
    var s := Hex(n);
    if n < 16 {
      assert s[..|s| - 1] == "";
    } else {
      assert s[..|s| - 1] == Hex(n / 16);
      HexRoundTrip(n / 16);
    }
  }
}

/**
  Integer formatting and the fixed buffer of the log stream.

  `convert` fills a character array with digits from the low end, least digit first, and reverses them
  in place; `DecimalText` is what it must leave there, and `DecimalValue` reads it back.
 */
module LogStreams {

  // ---------------------------------------------------------------- texts of integers

  /** C's `/` and `%`, which truncate toward zero. */
  function TruncDiv(a: int, b: int): int
    requires b > 0
  {
    if a >= 0 then a / b else -((-a) / b)
  }

  function TruncMod(a: int, b: int): int
    requires b > 0
  {
    a - b * TruncDiv(a, b)
  }

  const DIGITS := "9876543210123456789"
  const HEX_DIGITS := "0123456789ABCDEF"

  function Abs(x: int): nat { if x < 0 then -x else x }

  /** The numeral of `n` in base `b`, most significant digit first. */
  function Numeral(n: nat, b: nat): (s: string)
    requires 2 <= b <= 16
    ensures s != []
  {
    if n < b then [HEX_DIGITS[n]]
    else
      DivideBy(n, b);
      Numeral(n / b, b) + [HEX_DIGITS[n % b]]
  }

  function DecimalText(v: int): (s: string)
    ensures s != []
  {
    if v < 0 then "-" + Numeral(-v, 10) else Numeral(v, 10)
  }

  function DigitValue(c: char): nat {
    if '0' <= c <= '9' then c as int - '0' as int
    else if 'A' <= c <= 'F' then c as int - 'A' as int + 10
    else 0
  }

  /** The number that a string of digits denotes. */
  function NumeralValue(s: string, b: nat): nat {
    if s == [] then 0 else NumeralValue(s[..|s| - 1], b) * b + DigitValue(s[|s| - 1])
  }

  function DecimalValue(s: string): int {
    if s != [] && s[0] == '-' then -(NumeralValue(s[1..], 10) as int) else NumeralValue(s, 10)
  }

  predicate IsDigit(c: char, b: nat)
    requires b <= 16
  {
    c in HEX_DIGITS[..b]
  }

  /** Digits of base `b` only, and no superfluous leading zero. */
  predicate IsNumeral(s: string, b: nat)
    requires b <= 16
  {
    && s != [] && (|s| > 1 ==> s[0] != '0')
    && forall i :: 0 <= i < |s| ==> IsDigit(s[i], b)
  }

  /** A canonical decimal: a numeral, or a minus sign and a numeral other than 0. */
  predicate IsCanonical(s: string) {
    if s != [] && s[0] == '-' then IsNumeral(s[1..], 10) && s[1..] != "0" else IsNumeral(s, 10)
  }

  lemma DigitRoundTrip(d: nat, b: nat)
    requires d < b <= 16
    ensures DigitValue(HEX_DIGITS[d]) == d && IsDigit(HEX_DIGITS[d], b)
    ensures HEX_DIGITS[d] != '-' && (HEX_DIGITS[d] == '0' <==> d == 0)
  {
    assert HEX_DIGITS[..b][d] == HEX_DIGITS[d];
  }

  lemma DigitOfValue(c: char, b: nat)
    requires b <= 16 && IsDigit(c, b)
    ensures DigitValue(c) < b && HEX_DIGITS[DigitValue(c)] == c
  {
    var d :| 0 <= d < b && HEX_DIGITS[..b][d] == c;
    DigitRoundTrip(d, b);
  }

  lemma Quotient(n: nat, b: nat, q: int, r: int)
    requires b >= 2 && n == q * b + r && 0 <= r < b
    ensures 0 <= q <= n && (n >= b ==> 0 < q < n)
  {
    assert q < 0 ==> q * b <= 0 - b;
    if q == 0 {
      assert q * b == 0;
    } else if q > 0 {
      assert q * b >= q * 2;
    }
  }

  lemma DivideBy(n: nat, b: nat)
    requires b >= 2
    ensures 0 <= n % b < b && n == (n / b) * b + n % b && 0 <= n / b <= n
    ensures n >= b ==> 0 < n / b < n
  {
    Quotient(n, b, n / b, n % b);
  }

  lemma SameQuotient(b: nat, p: int, q: int, r: int, s: int)
    requires p * b + r == q * b + s && 0 <= r < b && 0 <= s < b
    ensures p == q && r == s
  {
    assert (p - q) * b == s - r;
    assert p - q >= 1 ==> (p - q) * b >= b;
    assert p - q <= -1 ==> (p - q) * b <= 0 - b;
  }

  lemma DivideSum(q: nat, b: nat, r: nat)
    requires b >= 2 && r < b
    ensures (q * b + r) / b == q && (q * b + r) % b == r && (q > 0 ==> q * b + r >= b)
  {
    var x := q * b + r;
    DivideBy(x, b);
    SameQuotient(b, x / b, q, x % b, r);
    assert q > 0 ==> q * b >= b;
  }

  lemma ValueStep(s: string, c: char, b: nat)
    ensures NumeralValue(s + [c], b) == NumeralValue(s, b) * b + DigitValue(c) && NumeralValue([], b) == 0
  {
    assert (s + [c])[..|s|] == s;
  }

  lemma NumeralStep(n: nat, b: nat)
    requires 2 <= b <= 16
    ensures n % b < |HEX_DIGITS|
    ensures n >= b ==> Numeral(n, b) == Numeral(n / b, b) + [HEX_DIGITS[n % b]]
  {
    DivideBy(n, b);
  }

  lemma LongerNumeral(s: string, c: char, b: nat)
    requires b <= 16 && IsNumeral(s, b) && s[0] != '0' && IsDigit(c, b)
    ensures IsNumeral(s + [c], b)
  {
  }

  lemma OneDigit(n: nat, b: nat)
    requires n < b && 2 <= b <= 16
    ensures Numeral(n, b) == [HEX_DIGITS[n]] && NumeralValue([HEX_DIGITS[n]], b) == n && IsNumeral([HEX_DIGITS[n]], b)
  {
    hide NumeralValue, DigitValue, IsDigit;
    DigitRoundTrip(n, b);
    ValueStep([], HEX_DIGITS[n], b);
    assert [] + [HEX_DIGITS[n]] == [HEX_DIGITS[n]];
  }

  lemma {:induction false} NumeralRoundTrip(n: nat, b: nat)
    requires 2 <= b <= 16
    ensures NumeralValue(Numeral(n, b), b) == n && IsNumeral(Numeral(n, b), b)
    ensures Numeral(n, b)[0] != '-' && (Numeral(n, b)[0] == '0' <==> n == 0)
    decreases n
  {
    hide NumeralValue, IsNumeral, Numeral, IsDigit, DigitValue;
    if n < b {
      DigitRoundTrip(n, b);
      OneDigit(n, b);
    } else {
      DivideBy(n, b);
      NumeralStep(n, b);
      DigitRoundTrip(n % b, b);
      NumeralRoundTrip(n / b, b);
      ValueStep(Numeral(n / b, b), HEX_DIGITS[n % b], b);
      LongerNumeral(Numeral(n / b, b), HEX_DIGITS[n % b], b);
    }
  }

  lemma ShorterNumeral(s: string, b: nat)
    requires b <= 16 && IsNumeral(s, b) && |s| > 1
    ensures IsNumeral(s[..|s| - 1], b) && s[..|s| - 1] != "0"
    ensures IsDigit(s[|s| - 1], b)
  {
  }

  lemma ShortValueRoundTrip(s: string, b: nat)
    requires 2 <= b <= 16 && IsNumeral(s, b) && |s| == 1
    ensures Numeral(NumeralValue(s, b), b) == s && (NumeralValue(s, b) == 0 <==> s == "0")
  {
    hide Numeral, DigitValue;
    DigitOfValue(s[0], b);
    OneDigit(DigitValue(s[0]), b);
    DigitRoundTrip(DigitValue(s[0]), b);
    assert s == [s[0]];
  }

  lemma {:induction false} ValueRoundTrip(s: string, b: nat)
    requires 2 <= b <= 16 && IsNumeral(s, b)
    ensures Numeral(NumeralValue(s, b), b) == s
    ensures NumeralValue(s, b) == 0 <==> s == "0"
    decreases |s|
  {
    hide NumeralValue, Numeral;
    if |s| == 1 { ShortValueRoundTrip(s, b); } else { LongValueRoundTrip(s, b); }
  }

  lemma {:induction false} LongValueRoundTrip(s: string, b: nat)
    requires 2 <= b <= 16 && IsNumeral(s, b) && |s| > 1
    ensures Numeral(NumeralValue(s, b), b) == s && NumeralValue(s, b) > 0
    decreases |s|, 0
  {
    hide NumeralValue, IsNumeral, Numeral, DigitValue, IsDigit;
    var init, c := s[..|s| - 1], s[|s| - 1];
    assert s == init + [c];
    ShorterNumeral(s, b);
    ValueRoundTrip(init, b);
    DigitOfValue(c, b);
    ValueStep(init, c, b);
    DivideSum(NumeralValue(init, b), b, DigitValue(c));
    NumeralStep(NumeralValue(s, b), b);
  }

  /** Decoding the text of any integer gives the integer back; the text is canonical. */
  lemma DecimalRoundTrip(v: int)
    ensures IsCanonical(DecimalText(v)) && DecimalValue(DecimalText(v)) == v
  {
    NumeralRoundTrip(Abs(v), 10);
    if v < 0 {
      assert DecimalText(v)[1..] == Numeral(-v, 10);
    }
  }

  /** And every canonical text is the text of the integer it denotes. */
  lemma CanonicalRoundTrip(s: string)
    requires IsCanonical(s)
    ensures DecimalText(DecimalValue(s)) == s
  {
    hide Numeral, NumeralValue, IsNumeral;
    if s != [] && s[0] == '-' {
      ValueRoundTrip(s[1..], 10);
      assert s == "-" + s[1..];
    } else {
      ValueRoundTrip(s, 10);
    }
  }

  function Pow(b: nat, k: nat): nat {
    if k == 0 then 1 else b * Pow(b, k - 1)
  }

  /** A numeral has at most `k` digits exactly if its number is below the k-th power of the base. */
  lemma {:induction false} DigitCount(n: nat, b: nat, k: nat)
    requires 2 <= b <= 16 && k > 0
    ensures |Numeral(n, b)| <= k <==> n < Pow(b, k)
  {
    hide Numeral, Pow;
    PowStep(b, k);
    if n < b {
      OneDigit(n, b);
      PowIsPositive(b, k - 1);
      AtLeast(b, Pow(b, k - 1));
    } else {
      NumeralStep(n, b);
      BelowProduct(n, b, Pow(b, k - 1));
      DivideBy(n, b);
      if k == 1 {
        assert Pow(b, 0) == 1 by { PowZero(b); }
      } else {
        DigitCount(n / b, b, k - 1);
      }
    }
  }

  lemma PowZero(b: nat)
    ensures Pow(b, 0) == 1
  {
  }

  lemma AtLeast(b: nat, p: nat)
    requires p > 0
    ensures b <= b * p
  {
  }

  lemma PowStep(b: nat, k: nat)
    requires k > 0
    ensures Pow(b, k) == b * Pow(b, k - 1)
  {
  }

  lemma BelowProduct(n: nat, b: nat, p: nat)
    requires b >= 2
    ensures n < b * p <==> n / b < p
  {
    DivideBy(n, b);
    var q := n / b;
    if q < p {
      assert (q + 1) * b <= p * b;
    } else {
      assert q * b >= p * b;
    }
  }

  lemma {:induction false} PowIsPositive(b: nat, k: nat)
    requires b > 0
    ensures Pow(b, k) > 0
  {
    if k > 0 {
      PowIsPositive(b, k - 1);
      assert b * Pow(b, k - 1) >= b;
    }
  }

  lemma TenToThe5()
    ensures Pow(10, 5) == 100_000
  {
    assert Pow(10, 1) == 10 && Pow(10, 2) == 100 && Pow(10, 3) == 1000 && Pow(10, 4) == 10_000;
  }

  lemma {:induction false} PowSum(b: nat, j: nat, k: nat)
    ensures Pow(b, j + k) == Pow(b, j) * Pow(b, k)
  {
    if j > 0 {
      PowSum(b, j - 1, k);
      Associative(b, Pow(b, j - 1), Pow(b, k));
    }
  }

  lemma Associative(a: nat, b: nat, c: nat)
    ensures (a * b) * c == a * (b * c)
  {
  }

  /** The text of a 64-bit integer, signed or not, has at most 20 characters. */
  lemma DecimalFits(v: int)
    requires -0x8000_0000_0000_0000 <= v < 0x1_0000_0000_0000_0000
    ensures |DecimalText(v)| <= 20
  {
    TenToThe5();
    PowSum(10, 5, 5);
    PowSum(10, 10, 10);
    PowSum(10, 10, 5);
    PowSum(10, 15, 4);
    assert Pow(10, 4) == 10_000 by { assert Pow(10, 5) == 10 * Pow(10, 4); }
    assert Pow(10, 19) == 1_000_000_000_000_000 * 10_000;
    DigitCount(Abs(v), 10, 20);
    DigitCount(Abs(v), 10, 19);
  }

  /** That of a 64-bit pointer has at most 16 hexadecimal digits. */
  lemma HexFits(v: nat)
    requires v < 0x1_0000_0000_0000_0000
    ensures |Numeral(v, 16)| <= 16
  {
    assert Pow(16, 1) == 16 && Pow(16, 2) == 256 && Pow(16, 3) == 4096 && Pow(16, 4) == 65536;
    PowSum(16, 4, 4);
    PowSum(16, 8, 8);
    DigitCount(v, 16, 16);
  }

  // ---------------------------------------------------------------- convert

  function Reversed(s: string): (r: string)
    ensures |r| == |s| && forall k :: 0 <= k < |s| ==> r[k] == s[|s| - 1 - k]
  {
    if s == [] then [] else Reversed(s[1..]) + [s[0]]
  }

  /** The digits of `n`, least significant first: what the loop writes. */
  function LowDigits(n: nat, b: nat): (s: string)
    requires 2 <= b <= 16
    ensures s != []
  {
    if n < b then [HEX_DIGITS[n]]
    else
      DivideBy(n, b);
      [HEX_DIGITS[n % b]] + LowDigits(n / b, b)
  }

  lemma {:induction false} ReversedLowDigits(n: nat, b: nat)
    requires 2 <= b <= 16
    ensures Reversed(LowDigits(n, b)) == Numeral(n, b)
  {
    if n < b {
      assert Reversed([HEX_DIGITS[n]]) == [HEX_DIGITS[n]];
    } else {
      ReversedLowDigits(n / b, b);
      assert LowDigits(n, b)[1..] == LowDigits(n / b, b);
    }
  }

  lemma ReversedWithSign(s: string)
    ensures Reversed(s + "-") == "-" + Reversed(s)
  {
  }

  /** One turn of the loop: the digit that C's `%` picks, of either sign, is the lowest digit of the magnitude. */
  lemma LowestDigit(i: int)
    ensures -9 <= TruncMod(i, 10) <= 9
    ensures DIGITS[9 + TruncMod(i, 10)] == LowDigits(Abs(i), 10)[0]
    ensures Abs(TruncDiv(i, 10)) == Abs(i) / 10
    ensures LowDigits(Abs(i), 10) == [LowDigits(Abs(i), 10)[0]] + (if TruncDiv(i, 10) == 0 then [] else LowDigits(Abs(i) / 10, 10))
  {
    hide TruncDiv, TruncMod;
    Truncation(i);
    Symmetric(Abs(i) % 10);
  }

  lemma Truncation(i: int)
    ensures TruncMod(i, 10) == if i < 0 then -(Abs(i) % 10) else Abs(i) % 10
    ensures Abs(TruncDiv(i, 10)) == Abs(i) / 10 && (TruncDiv(i, 10) == 0 <==> Abs(i) < 10)
  {
  }

  lemma Symmetric(d: nat)
    requires d < 10
    ensures DIGITS[9 + d] == HEX_DIGITS[d] && DIGITS[9 - d] == HEX_DIGITS[d]
  {
  }

  /** `std::reverse` of `buf[lo..hi]`. */
  method Reverse(buf: array<char>, lo: nat, hi: nat)
    requires lo <= hi <= buf.Length
    modifies buf
    ensures buf[lo..hi] == Reversed(old(buf[lo..hi]))
    ensures forall k :: 0 <= k < lo || hi <= k < buf.Length ==> buf[k] == old(buf[k])
  {
    hide Reversed;
    ghost var was := buf[..];
    var first, last := lo, hi;
    while first < last && first < last - 1
      invariant lo <= first <= last <= hi && first - lo == hi - last
      invariant forall k :: first <= k < last ==> buf[k] == was[k]
      invariant forall k :: lo <= k < first || last <= k < hi ==> buf[k] == was[lo + hi - 1 - k]
      invariant forall k :: 0 <= k < lo || hi <= k < buf.Length ==> buf[k] == was[k]
    {
      last := last - 1;
      buf[first], buf[last] := buf[last], buf[first];
      first := first + 1;
    }
    IsReversed(was[lo..hi], buf[lo..hi]);
  }

  lemma IsReversed(s: string, r: string)
    requires |r| == |s| && forall k :: 0 <= k < |s| ==> r[k] == s[|s| - 1 - k]
    ensures r == Reversed(s)
  {
  }

  /** `*p++ = c`, where `at` is the start of the text. */
  method Put(buf: array<char>, at: nat, p: nat, c: char) returns (next: nat)
    requires at <= p < buf.Length
    modifies buf
    ensures next == p + 1 && buf[at..next] == old(buf[at..p]) + [c]
    ensures forall k :: 0 <= k < at || p < k < buf.Length ==> buf[k] == old(buf[k])
  {
    buf[p] := c;
    next := p + 1;
    assert buf[at..next] == buf[at..p] + [buf[p]];
  }

  lemma Shift(a: string, c: char, b: string)
    ensures a + ([c] + b) == (a + [c]) + b
  {
  }

  /** The do-while loop of `convert`. */
  method WriteDigits(buf: array<char>, at: nat, value: int) returns (p: nat)
    requires at + |LowDigits(Abs(value), 10)| <= buf.Length
    modifies buf
    ensures p == at + |LowDigits(Abs(value), 10)| && buf[at..p] == LowDigits(Abs(value), 10)
    ensures forall k :: 0 <= k < at || p <= k < buf.Length ==> buf[k] == old(buf[k])
  {
    hide LowDigits, TruncDiv, TruncMod;
    ghost var low := LowDigits(Abs(value), 10);
    var i := value;
    p := at;
    var more := true;
    ghost var rest := low;
    assert buf[at..p] == [] && [] + low == low;
    while more
      invariant at <= p <= at + |low| && (more || i == 0)
      invariant buf[at..p] + rest == low && rest == (if more then LowDigits(Abs(i), 10) else [])
      invariant forall k :: 0 <= k < at || at + |low| <= k < buf.Length ==> buf[k] == old(buf[k])
      decreases more, Abs(i)
    {
      LowestDigit(i);
      var lsd := TruncMod(i, 10);
      i := TruncDiv(i, 10);
      more := i != 0;
      ghost var tail := if more then LowDigits(Abs(i), 10) else [];
      Shift(buf[at..p], rest[0], tail);
      rest := tail;
      p := Put(buf, at, p, DIGITS[9 + lsd]);
    }
  }

  /** `convert` at offset `at`: the text, its NUL, and nothing else. */
  method Convert(buf: array<char>, at: nat, value: int) returns (len: nat)
    requires at + |DecimalText(value)| < buf.Length
    modifies buf
    ensures len == |DecimalText(value)| && buf[at..at + len] == DecimalText(value) && buf[at + len] == '\0'
    ensures forall k :: 0 <= k < at || at + len < k < buf.Length ==> buf[k] == old(buf[k])
  {
    hide LowDigits, Numeral, Reversed;
    ReversedLowDigits(Abs(value), 10);
    ReversedWithSign(LowDigits(Abs(value), 10));
    var p := WriteDigits(buf, at, value);
    if value < 0 {
      p := Put(buf, at, p, '-');
    }
    ghost var text := buf[at..p];
    buf[p] := '\0';
    assert buf[at..p] == text;
    Reverse(buf, at, p);
    len := p - at;
  }

  method WriteHexDigits(buf: array<char>, at: nat, value: nat) returns (p: nat)
    requires at + |LowDigits(value, 16)| <= buf.Length
    modifies buf
    ensures p == at + |LowDigits(value, 16)| && buf[at..p] == LowDigits(value, 16)
    ensures forall k :: 0 <= k < at || p <= k < buf.Length ==> buf[k] == old(buf[k])
  {
    hide LowDigits;
    ghost var low := LowDigits(value, 16);
    var i := value;
    p := at;
    var more := true;
    ghost var rest := low;
    assert buf[at..p] == [] && [] + low == low;
    while more
      invariant at <= p <= at + |low| && (more || i == 0)
      invariant buf[at..p] + rest == low && rest == (if more then LowDigits(i, 16) else [])
      invariant forall k :: 0 <= k < at || at + |low| <= k < buf.Length ==> buf[k] == old(buf[k])
      decreases more, i
    {
      LowestHexDigit(i);
      var lsd := i % 16;
      i := i / 16;
      more := i != 0;
      ghost var tail := if more then LowDigits(i, 16) else [];
      Shift(buf[at..p], HEX_DIGITS[lsd], tail);
      rest := tail;
      p := Put(buf, at, p, HEX_DIGITS[lsd]);
    }
  }

  lemma LowestHexDigit(i: nat)
    ensures LowDigits(i, 16) == [HEX_DIGITS[i % 16]] + (if i / 16 == 0 then [] else LowDigits(i / 16, 16))
  {
  }

  /** `convertHex`. */
  method ConvertHex(buf: array<char>, at: nat, value: nat) returns (len: nat)
    requires at + |Numeral(value, 16)| < buf.Length
    modifies buf
    ensures len == |Numeral(value, 16)| && buf[at..at + len] == Numeral(value, 16) && buf[at + len] == '\0'
    ensures forall k :: 0 <= k < at || at + len < k < buf.Length ==> buf[k] == old(buf[k])
  {
    hide LowDigits, Numeral, Reversed;
    ReversedLowDigits(value, 16);
    var p := WriteHexDigits(buf, at, value);
    ghost var text := buf[at..p];
    buf[p] := '\0';
    assert buf[at..p] == text;
    Reverse(buf, at, p);
    len := p - at;
  }

  // ---------------------------------------------------------------- the stream

  const SMALL_BUFFER: nat := 4000
  const MAX_NUMERIC_SIZE: nat := 32

  /** What is put on a stream.  The integers are those of every C type of up to 64 bits. */
  datatype Item = Text(text: string) | Integer(value: int) | Pointer(address: nat)

  predicate InRange(item: Item) {
    match item
    case Text(_) => true
    case Integer(v) => -0x8000_0000_0000_0000 <= v < 0x1_0000_0000_0000_0000
    case Pointer(v) => v < 0x1_0000_0000_0000_0000
  }

  function TextOf(item: Item): string {
    match item
    case Text(text) => text
    case Integer(v) => DecimalText(v)
    case Pointer(v) => "0x" + Numeral(v, 16)
  }

  /** The guards: a text needs one more byte than its length, a number the whole reserve. */
  predicate Fits(item: Item, avail: int) {
    match item
    case Text(text) => avail > |text|
    case Integer(_) => avail > MAX_NUMERIC_SIZE
    case Pointer(_) => avail >= MAX_NUMERIC_SIZE
  }

  /** All of an item or nothing. */
  function AfterItem(written: string, item: Item): string {
    if Fits(item, SMALL_BUFFER - |written|) then written + TextOf(item) else written
  }

  function AfterItems(written: string, items: seq<Item>): string
    decreases |items|
  {
    if items == [] then written else AfterItems(AfterItem(written, items[0]), items[1..])
  }

  /** The text of an item that passes its guard leaves room for a NUL. */
  lemma GuardSuffices(item: Item, avail: int)
    requires InRange(item) && Fits(item, avail)
    ensures |TextOf(item)| < avail
  {
    match item
    case Text(_) =>
    case Integer(v) => DecimalFits(v);
    case Pointer(v) => HexFits(v);
  }

  lemma {:induction false} NeverOverrun(written: string, items: seq<Item>)
    requires |written| < SMALL_BUFFER && forall i <- items :: InRange(i)
    ensures |AfterItems(written, items)| < SMALL_BUFFER && written <= AfterItems(written, items)
    decreases |items|
  {
    if items != [] {
      if Fits(items[0], SMALL_BUFFER - |written|) { GuardSuffices(items[0], SMALL_BUFFER - |written|); }
      NeverOverrun(AfterItem(written, items[0]), items[1..]);
    }
  }

  function Concat(items: seq<Item>): string {
    if items == [] then "" else TextOf(items[0]) + Concat(items[1..])
  }

  lemma RoomEnough(item: Item, avail: int)
    requires |TextOf(item)| + MAX_NUMERIC_SIZE < avail
    ensures Fits(item, avail)
  {
  }

  /** A line that stays clear of the end of the buffer by the numeric reserve is complete. */
  lemma {:induction false} NothingDropped(written: string, items: seq<Item>)
    requires |written| + |Concat(items)| + MAX_NUMERIC_SIZE < SMALL_BUFFER
    ensures AfterItems(written, items) == written + Concat(items)
    decreases |items|
  {
    hide TextOf, Fits;
    if items == [] {
      assert written + "" == written;
    } else {
      RoomEnough(items[0], SMALL_BUFFER - |written|);
      NothingDropped(written + TextOf(items[0]), items[1..]);
      assert (written + TextOf(items[0])) + Concat(items[1..]) == written + Concat(items);
    }
  }

  class FixedBuffer {
    const data: array<char>
    var cur: nat

    ghost predicate Valid()
      reads this
    {
      cur < data.Length
    }

    function Contents(): (s: string)
      requires Valid()
      reads this, data
      ensures |s| == cur
    {
      data[..cur]
    }

    constructor (size: nat)
      requires size > 0
      ensures Valid() && fresh(data) && data.Length == size && Contents() == ""
    {
      data := new char[size];
      cur := 0;
    }

    function Avail(): int
      reads this
    {
      data.Length - cur
    }

    method Append(buf: string)
      requires Valid()
      modifies this`cur, data
      ensures Valid() && Contents() == if old(Avail()) > |buf| then old(Contents()) + buf else old(Contents())
    {
      if Avail() > |buf| {
        for k := 0 to |buf|
          invariant cur == old(cur) && data[cur..cur + k] == buf[..k] && data[..cur] == old(data[..cur])
        {
          data[cur + k] := buf[k];
          assert data[cur..cur + k + 1] == data[cur..cur + k] + [data[cur + k]];
        }
        assert data[..cur + |buf|] == data[..cur] + data[cur..cur + |buf|];
        cur := cur + |buf|;
      }
    }

    /** `add`: the caller has written `len` bytes at `current()`. */
    method Add(len: nat)
      requires Valid() && len < Avail()
      modifies this`cur
      ensures Valid() && cur == old(cur) + len
      ensures Contents() == old(Contents()) + old(data[cur..cur + len])
    {
      assert data[..cur + len] == data[..cur] + data[cur..cur + len];
      cur := cur + len;
    }

    method Reset()
      modifies this`cur
      requires Valid()
      ensures Valid() && Contents() == ""
    {
      cur := 0;
    }

    /** Ends the contents with a NUL, for which there is always room. */
    method DebugString() returns (s: string)
      requires Valid()
      modifies data
      ensures Valid() && Contents() == old(Contents()) && s == Contents() && data[cur] == '\0'
    {
      data[cur] := '\0';
      assert data[..cur] == old(data[..cur]);
      s := Contents();
    }
  }

  class LogStream {
    const buffer: FixedBuffer

    ghost predicate Valid()
      reads this, buffer
    {
      buffer.Valid() && buffer.data.Length == SMALL_BUFFER
    }

    ghost function Written(): string
      requires Valid()
      reads this, buffer, buffer.data
    {
      buffer.Contents()
    }

    constructor ()
      ensures Valid() && fresh(buffer) && fresh(buffer.data) && Written() == ""
    {
      buffer := new FixedBuffer(SMALL_BUFFER);
    }

    method FormatInteger(v: int)
      requires Valid() && InRange(Integer(v))
      modifies buffer`cur, buffer.data
      ensures Valid() && Written() == AfterItem(old(Written()), Integer(v))
      ensures Written() == if old(buffer.Avail()) > MAX_NUMERIC_SIZE then old(Written()) + DecimalText(v) else old(Written())
    {
      hide DecimalText;
      if buffer.Avail() > MAX_NUMERIC_SIZE {
        DecimalFits(v);
        ghost var before := Written();
        var len := Convert(buffer.data, buffer.cur, v);
        assert buffer.Contents() == before;
        buffer.Add(len);
      }
    }

    method FormatPointer(v: nat)
      requires Valid() && InRange(Pointer(v))
      modifies buffer`cur, buffer.data
      ensures Valid() && Written() == AfterItem(old(Written()), Pointer(v))
      ensures Written() == if old(buffer.Avail()) >= MAX_NUMERIC_SIZE then old(Written()) + ("0x" + Numeral(v, 16)) else old(Written())
    {
      hide Numeral;
      if buffer.Avail() >= MAX_NUMERIC_SIZE {
        HexFits(v);
        ghost var before := Written();
        var at := buffer.cur;
        buffer.data[at] := '0';
        buffer.data[at + 1] := 'x';
        var len := ConvertHex(buffer.data, at + 2, v);
        assert buffer.Contents() == before;
        assert buffer.data[at..at + 2 + len] == "0x" + buffer.data[at + 2..at + 2 + len];
        buffer.Add(len + 2);
      }
    }

    method Insert(item: Item)
      requires Valid() && InRange(item)
      modifies buffer`cur, buffer.data
      ensures Valid() && Written() == AfterItem(old(Written()), item)
    {
      match item
      case Text(text) => buffer.Append(text);
      case Integer(v) => FormatInteger(v);
      case Pointer(v) => FormatPointer(v);
    }
  }
}

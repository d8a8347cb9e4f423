/** muduo/log/base/LogStream.h and LogStream.cpp: the fixed buffer and the integer printer. */
module LogStreams {
  import opened Prelude

  const SMALL_BUFFER: nat := 4000
  const LARGE_BUFFER: nat := 4000 * 1000
  const MAX_NUMERIC_SIZE: nat := 32

  // ----- Decimal text -----

  function Digit(d: int): char
    requires 0 <= d < 10
  {
    ('0' as int + d) as char
  }

  function DigitValue(c: char): int {
    c as int - '0' as int
  }

  predicate IsDigit(c: char) {
    '0' <= c <= '9'
  }

  function Digits(n: nat): string {
    if n < 10 then [Digit(n)] else Digits(n / 10) + [Digit(n % 10)]
  }

  /** The text of an integer in base ten. */
  function Decimal(v: int): string {
    if v < 0 then "-" + Digits(-v) else Digits(v)
  }

  function ParseDigits(s: string): int {
    if s == [] then 0 else 10 * ParseDigits(s[..|s| - 1]) + DigitValue(s[|s| - 1])
  }

  function Parse(s: string): int {
    if s != [] && s[0] == '-' then -ParseDigits(s[1..]) else ParseDigits(s)
  }

  predicate AllDigits(s: string) {
    forall i :: 0 <= i < |s| ==> IsDigit(s[i])
  }

  /** Digits only, at least one, and no leading zero before another digit. */
  predicate CanonicalDigits(s: string) {
    s != [] && AllDigits(s) && (s[0] == '0' ==> |s| == 1)
  }

  /** An optional minus sign, never before zero. */
  predicate Canonical(s: string) {
    if s != [] && s[0] == '-' then CanonicalDigits(s[1..]) && s[1] != '0' else CanonicalDigits(s)
  }

  function Pow10(k: nat): nat {
    if k == 0 then 1 else 10 * Pow10(k - 1)
  }

  lemma {:induction false} DigitsCanonical(n: nat)
    ensures CanonicalDigits(Digits(n)) && ParseDigits(Digits(n)) == n
    ensures n > 0 ==> Digits(n)[0] != '0'
  {
    if n < 10 {
      assert Digits(n) == [Digit(n)] && [Digit(n)][..0] == [];
    } else {
      var init := Digits(n / 10);
      DigitsCanonical(n / 10);
      assert Digits(n) == init + [Digit(n % 10)];
      assert (init + [Digit(n % 10)])[..|init|] == init;
    }
  }

  lemma {:induction false} CanonicalDigitsUnique(s: string)
    requires CanonicalDigits(s)
    ensures ParseDigits(s) >= 0 && Digits(ParseDigits(s)) == s
    ensures s[0] != '0' ==> ParseDigits(s) > 0
  {
    var init, last := s[..|s| - 1], s[|s| - 1];
    if |s| == 1 {
      assert init == [] && s == [last];
    } else {
      CanonicalDigitsUnique(init);
      assert s == init + [last];
      assert ParseDigits(s) / 10 == ParseDigits(init);
    }
  }

  lemma {:induction false} DigitsLength(n: nat, k: nat)
    requires 1 <= k && n < Pow10(k)
    ensures |Digits(n)| <= k
  {
    if n < 10 {
    } else {
      assert k > 1;
      DigitsLength(n / 10, k - 1);
    }
  }

  /** Printing then parsing is the identity, for every integer. */
  lemma DecimalRoundTrip(v: int)
    ensures Canonical(Decimal(v)) && Parse(Decimal(v)) == v
  {
    DigitsCanonical(if v < 0 then -v else v);
    if v < 0 {
      assert Decimal(v)[1..] == Digits(-v);
    }
  }

  /** Parsing then printing is the identity on canonical text, so Decimal is the only canonical spelling. */
  lemma CanonicalUnique(s: string)
    requires Canonical(s)
    ensures Decimal(Parse(s)) == s
  {
    if s[0] == '-' {
      CanonicalDigitsUnique(s[1..]);
      assert s == "-" + s[1..];
    } else {
      CanonicalDigitsUnique(s);
    }
  }

  /** Every 64-bit value, signed or not, takes at most twenty characters. */
  lemma DecimalLength(v: int)
    requires -0x8000_0000_0000_0000 <= v < 0x1_0000_0000_0000_0000
    ensures 1 <= |Decimal(v)| <= 20
  {
    assert Pow10(6) == 1_000_000;
    assert Pow10(12) == 1_000_000_000_000;
    assert Pow10(18) == 1_000_000_000_000_000_000;
    if v < 0 {
      DigitsLength(-v, 19);
    } else {
      DigitsLength(v, 20);
    }
  }

  // ----- C++ arithmetic and the in-place algorithm -----

  /** i / 10 and i % 10 of C++, which truncate toward zero. */
  function TruncDiv10(i: int): (q: int)
    ensures Abs(q) == Abs(i) / 10
  {
    if i >= 0 then i / 10 else -((-i) / 10)
  }

  function TruncMod10(i: int): int {
    i - 10 * TruncDiv10(i)
  }

  const DIGITS_TABLE := "9876543210123456789"
  const ZERO: nat := 9

  function Abs(v: int): nat {
    if v < 0 then -v else v
  }

  /** zero[i % 10]: the symmetric table turns the remainder of either sign into the last digit of the magnitude. */
  function LastDigit(i: int): (c: char)
    ensures c == Digit(Abs(i) % 10)
  {
    var lsd := TruncMod10(i);
    assert lsd == if i >= 0 then Abs(i) % 10 else -(Abs(i) % 10);
    DIGITS_TABLE[ZERO + lsd]
  }

  function Reversed(s: string): string {
    if s == [] then [] else Reversed(s[1..]) + [s[0]]
  }

  lemma {:induction false} ReversedAt(s: string)
    ensures |Reversed(s)| == |s|
    ensures forall k :: 0 <= k < |s| ==> Reversed(s)[k] == s[|s| - 1 - k]
  {
    if s == [] {
    } else {
      ReversedAt(s[1..]);
    }
  }

  lemma ReversedIs(s: string, was: string)
    requires |s| == |was|
    requires forall k :: 0 <= k < |s| ==> s[k] == was[|was| - 1 - k]
    ensures s == Reversed(was)
  {
    ReversedAt(was);
  }

  lemma {:induction false} ReversedSnoc(s: string, c: char)
    ensures Reversed(s + [c]) == [c] + Reversed(s)
  {
    if s == [] {
      assert s + [c] == [c];
    } else {
      ReversedSnoc(s[1..], c);
      assert (s + [c])[1..] == s[1..] + [c];
    }
  }

  /** std::reverse over buf[lo..hi]. */
  method ReverseRange(buf: array<char>, lo: nat, hi: nat)
    requires lo <= hi <= buf.Length
    modifies buf
    ensures buf[lo..hi] == Reversed(old(buf[lo..hi]))
    ensures forall k :: 0 <= k < buf.Length && !(lo <= k < hi) ==> buf[k] == old(buf[k])
  {
    var i, j := lo, hi;
    while i + 1 < j
      invariant lo <= i <= j <= hi && i - lo == hi - j
      invariant forall k :: lo <= k < i || j <= k < hi ==> buf[k] == old(buf[lo + hi - 1 - k])
      invariant forall k :: 0 <= k < buf.Length && !(lo <= k < i || j <= k < hi) ==> buf[k] == old(buf[k])
    {
      j := j - 1;
      buf[i], buf[j] := buf[j], buf[i];
      i := i + 1;
    }
    ReversedIs(buf[lo..hi], old(buf[lo..hi]));
  }

  /** Moving the last digit of n to the end of the text written backwards. */
  lemma TakeDigit(total: string, n: nat, written: string)
    requires total == Digits(n) + Reversed(written)
    ensures total == (if n < 10 then [] else Digits(n / 10)) + Reversed(written + [Digit(n % 10)])
    ensures |total| == (if n < 10 then 0 else |Digits(n / 10)|) + |written| + 1
  {
    var c := Digit(n % 10);
    var back := Reversed(written);
    ReversedSnoc(written, c);
    ReversedAt(written);
    if n < 10 {
      assert total == [c] + back;
    } else {
      var init := Digits(n / 10);
      assert Digits(n) == init + [c];
      assert (init + [c]) + back == init + ([c] + back);
    }
  }

  /** The loop of convert: the magnitude's digits, last one first. */
  method PutDigits(buf: array<char>, at: nat, value: int) returns (p: nat)
    requires at + |Digits(Abs(value))| <= buf.Length
    modifies buf
    ensures p == at + |Digits(Abs(value))|
    ensures Reversed(buf[at..p]) == Digits(Abs(value))
    ensures forall k :: 0 <= k < buf.Length && !(at <= k < p) ==> buf[k] == old(buf[k])
  {
    ghost var total, written := Digits(Abs(value)), "";
    var i := value;
    var more := true;
    p := at;
    while more
      invariant p == at + |written| <= at + |total|
      invariant total == (if more then Digits(Abs(i)) else []) + Reversed(written)
      invariant |total| == (if more then |Digits(Abs(i))| else 0) + |written|
      invariant buf[at..p] == written
      invariant forall k :: 0 <= k < buf.Length && !(at <= k < p) ==> buf[k] == old(buf[k])
      decreases more, Abs(i)
    {
      TakeDigit(total, Abs(i), written);
      var lsd := LastDigit(i);
      i := TruncDiv10(i);
      buf[p] := lsd;
      written := written + [lsd];
      p := p + 1;
      more := i != 0;
    }
  }

  /** The digits and, for a negative value, the sign behind them: the text written backwards. */
  method PutText(buf: array<char>, at: nat, value: int) returns (p: nat)
    requires at + |Decimal(value)| <= buf.Length
    modifies buf
    ensures p == at + |Decimal(value)|
    ensures Reversed(buf[at..p]) == Decimal(value)
    ensures forall k :: 0 <= k < buf.Length && !(at <= k < p) ==> buf[k] == old(buf[k])
  {
    p := PutDigits(buf, at, value);
    if value < 0 {
      ghost var digits := buf[at..p];
      buf[p] := '-';
      p := p + 1;
      assert buf[at..p] == digits + ['-'];
      ReversedSnoc(digits, '-');
    }
  }

  /** convert: the text of value, then a terminating NUL, from position at on; nothing else is touched. */
  method Convert(buf: array<char>, at: nat, value: int) returns (len: nat)
    requires at + |Decimal(value)| < buf.Length
    modifies buf
    ensures len == |Decimal(value)|
    ensures buf[at..at + len] == Decimal(value) && buf[at + len] == '\0'
    ensures forall k :: 0 <= k < buf.Length && !(at <= k <= at + len) ==> buf[k] == old(buf[k])
  {
    hide Decimal, Reversed;
    var p := PutText(buf, at, value);
    ghost var text := buf[at..p];
    buf[p] := '\0';
    assert buf[at..p] == text;
    ReverseRange(buf, at, p);
    len := p - at;
  }

  // ----- The classes -----

  class FixedBuffer {
    const data: array<char>
    var cur: nat

    ghost predicate Valid()
      reads this, data
    {
      cur <= data.Length
    }

    ghost function Text(): string
      reads this, data
      requires Valid()
    {
      data[..cur]
    }

    constructor (size: nat)
      ensures Valid() && fresh(data) && data.Length == size && Text() == ""
    {
      data := new char[size](_ => '\0');
      cur := 0;
    }

    method Avail() returns (n: nat)
      requires Valid()
      ensures n == data.Length - |Text()|
    {
      n := data.Length - cur;
    }

    /** All or nothing, and one byte always stays unused; the length is cast to a 32-bit int. */
    method Append(s: string)
      requires Valid() && |s| < 0x8000_0000
      modifies this`cur, data
      ensures Valid()
      ensures Text() == if old(|Text()|) + |s| < data.Length then old(Text()) + s else old(Text())
    {
      if data.Length - cur > |s| {
        forall k | 0 <= k < |s| {
          data[cur + k] := s[k];
        }
        cur := cur + |s|;
      }
    }

    method Add(len: nat)
      requires Valid() && cur + len <= data.Length
      modifies this`cur
      ensures Valid() && cur == old(cur) + len
    {
      cur := cur + len;
    }

    method Reset()
      modifies this`cur
      ensures Valid() && Text() == ""
    {
      cur := 0;
    }
  }

  class LogStream {
    const buffer: FixedBuffer

    constructor ()
      ensures buffer.Valid() && buffer.data.Length == SMALL_BUFFER && buffer.Text() == ""
      ensures fresh(buffer) && fresh(buffer.data)
    {
      buffer := new FixedBuffer(SMALL_BUFFER);
    }

    /** operator<< for integers: the whole text or, within 31 bytes of the end, nothing. */
    method FormatInteger(v: int)
      requires buffer.Valid()
      requires -0x8000_0000_0000_0000 <= v < 0x1_0000_0000_0000_0000
      modifies buffer`cur, buffer.data
      ensures buffer.Valid()
      ensures buffer.Text() ==
              if old(|buffer.Text()|) + MAX_NUMERIC_SIZE <= buffer.data.Length
              then old(buffer.Text()) + Decimal(v) else old(buffer.Text())
    {
      var room := buffer.Avail();
      if room >= MAX_NUMERIC_SIZE {
        DecimalLength(v);
        var at := buffer.cur;
        var len := Convert(buffer.data, at, v);
        assert buffer.data[..at] == old(buffer.Text());
        buffer.Add(len);
        assert buffer.data[..at + len] == buffer.data[..at] + buffer.data[at..at + len];
      }
    }
  }
}

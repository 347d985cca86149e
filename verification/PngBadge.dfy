/**
 * The badge writer's CRC and chunk framing. The CRC is the one of sections 3.2 and
 * 3.4 of RFC 2083: what is left of a polynomial, bit reversed and complemented.
 */
module PngBadge {
  import opened Wrappers

  type Byte = k: nat | k < 256
  type Bits = seq<bool>

  // ── A byte bit by bit, the lowest first ───────────────────────────────────

  function Power(n: nat): nat {
    if n == 0 then 1 else 2 * Power(n - 1)
  }

  function Sum(bits: Bits): nat {
    if bits == [] then 0 else (if bits[0] then 1 else 0) + 2 * Sum(bits[1..])
  }

  function Digits(k: nat, count: nat): (bits: Bits)
    ensures |bits| == count
    decreases count
  {
    if count == 0 then [] else [k % 2 == 1] + Digits(k / 2, count - 1)
  }

  function BitsOf(b: Byte): (bits: Bits)
    ensures |bits| == 8
  {
    Digits(b, 8)
  }

  lemma {:induction false} SumBelow(bits: Bits)
    ensures Sum(bits) < Power(|bits|)
  {
    if bits != [] {
      SumBelow(bits[1..]);
    }
  }

  lemma EightBits()
    ensures Power(8) == 256
  {
    assert Power(4) == 16;
  }

  lemma {:induction false} DigitsSum(k: nat, count: nat)
    requires k < Power(count)
    ensures Sum(Digits(k, count)) == k
  {
    if count > 0 {
      DigitsSum(k / 2, count - 1);
      assert Digits(k, count)[1..] == Digits(k / 2, count - 1);
    }
  }

  lemma {:induction false} SumDigits(bits: Bits)
    ensures Digits(Sum(bits), |bits|) == bits
  {
    if bits != [] {
      SumDigits(bits[1..]);
      assert Sum(bits) / 2 == Sum(bits[1..]) && (Sum(bits) % 2 == 1 <==> bits[0]);
    }
  }

  function ByteOf(bits: Bits): Byte
    requires |bits| == 8
  {
    SumBelow(bits);
    EightBits();
    Sum(bits)
  }

  lemma ByteOfBits(bits: Bits)
    requires |bits| == 8
    ensures BitsOf(ByteOf(bits)) == bits
  {
    SumDigits(bits);
  }

  lemma BitsInjective(a: Byte, b: Byte)
    requires BitsOf(a) == BitsOf(b)
    ensures a == b
  {
    EightBits();
    DigitsSum(a, 8);
    DigitsSum(b, 8);
  }

  // ── The register, one bit at a time ───────────────────────────────────────

  function Plus(x: bv32, y: bv32): bv32 {
    x ^ y
  }

  predicate Odd(c: bv32) {
    c & 1 != 0
  }

  function Half(c: bv32): bv32 {
    c >> 1
  }

  const POLYNOMIAL: bv32 := 0xedb88320

  function Shift(c: bv32): bv32 {
    if Odd(c) then Plus(POLYNOMIAL, Half(c)) else Half(c)
  }

  function ShiftN(c: bv32, n: nat): bv32
    decreases n
  {
    if n == 0 then c else ShiftN(Shift(c), n - 1)
  }

  function BitOf(b: bool): bv32 {
    if b then 1 else 0
  }

  function Feed(c: bv32, bits: Bits): bv32
    decreases |bits|
  {
    if bits == [] then c else Feed(Shift(Plus(c, BitOf(bits[0]))), bits[1..])
  }

  lemma OddHalf(x: bv32, y: bv32)
    ensures Odd(Plus(x, y)) <==> Odd(x) != Odd(y)
    ensures Half(Plus(x, y)) == Plus(Half(x), Half(y))
  {
  }

  lemma PlusCancels(p: bv32, x: bv32, y: bv32)
    ensures Plus(Plus(p, x), Plus(p, y)) == Plus(x, y)
  {
    assert (p ^ x) ^ (p ^ y) == x ^ y;
  }

  lemma PlusJoins(p: bv32, x: bv32, y: bv32)
    ensures Plus(Plus(p, x), y) == Plus(p, Plus(x, y))
  {
    assert (p ^ x) ^ y == p ^ (x ^ y);
  }

  lemma PlusSwaps(x: bv32, y: bv32)
    ensures Plus(x, y) == Plus(y, x)
  {
  }

  lemma ShiftLinear(x: bv32, y: bv32)
    ensures Shift(Plus(x, y)) == Plus(Shift(x), Shift(y))
  {
    hide Odd, Half, Plus, POLYNOMIAL;
    OddHalf(x, y);
    PlusCancels(POLYNOMIAL, Half(x), Half(y));
    PlusJoins(POLYNOMIAL, Half(x), Half(y));
    PlusJoins(POLYNOMIAL, Half(y), Half(x));
    PlusSwaps(Half(x), Half(y));
    PlusSwaps(Half(x), Plus(POLYNOMIAL, Half(y)));
  }

  lemma ShiftInjective(x: bv32, y: bv32)
    requires Shift(x) == Shift(y)
    ensures x == y
  {
  }

  lemma {:induction false} ShiftNLinear(x: bv32, y: bv32, n: nat)
    ensures ShiftN(Plus(x, y), n) == Plus(ShiftN(x, n), ShiftN(y, n))
    decreases n
  {
    hide Shift, Plus;
    if n > 0 {
      ShiftLinear(x, y);
      ShiftNLinear(Shift(x), Shift(y), n - 1);
    }
  }

  lemma {:induction false} ShiftNInjective(x: bv32, y: bv32, n: nat)
    requires ShiftN(x, n) == ShiftN(y, n)
    ensures x == y
    decreases n
  {
    hide Shift, Plus;
    if n > 0 {
      ShiftNInjective(Shift(x), Shift(y), n - 1);
      ShiftInjective(x, y);
    }
  }

  lemma {:induction false} FeedJoins(c: bv32, a: Bits, b: Bits)
    ensures Feed(c, a + b) == Feed(Feed(c, a), b)
    decreases |a|
  {
    hide Shift, Plus, BitOf;
    if a == [] {
      assert a + b == b;
    } else {
      assert (a + b)[1..] == a[1..] + b;
      FeedJoins(Shift(Plus(c, BitOf(a[0]))), a[1..], b);
    }
  }

  // ── Up to a word at a time ────────────────────────────────────────────────

  function Push(w: bv32, b: bool): bv32 {
    (w << 1) | BitOf(b)
  }

  /** The bits of a word, the lowest first. */
  function Word(bits: Bits): bv32
    decreases |bits|
  {
    if bits == [] then 0 else Push(Word(bits[1..]), bits[0])
  }

  function Low(n: nat): bv32 {
    if n == 0 then 0 else Push(Low(n - 1), true)
  }

  function Outside(w: bv32, mask: bv32): bv32 {
    w & !mask
  }

  predicate Within(w: bv32, mask: bv32) {
    Outside(w, mask) == 0
  }

  lemma NoneAbove(mask: bv32)
    ensures Within(0, mask)
  {
  }

  lemma {:induction false} WordIsLow(bits: Bits)
    ensures Within(Word(bits), Low(|bits|))
    decreases |bits|
  {
    hide Push, Within;
    if bits == [] {
      NoneAbove(0);
    } else {
      WordIsLow(bits[1..]);
      LowStep(Word(bits[1..]), Low(|bits| - 1), bits[0]);
    }
  }

  lemma BitsMoveUp(w: bv32, low: bv32)
    ensures ((w << 1) | 1) & !((low << 1) | 1) == (w & !low) << 1
    ensures ((w << 1) | 0) & !((low << 1) | 1) == (w & !low) << 1
  {
  }

  lemma OutsideMovesUp(w: bv32, low: bv32)
    ensures Outside(Push(w, true), Push(low, true)) == Outside(w, low) << 1
    ensures Outside(Push(w, false), Push(low, true)) == Outside(w, low) << 1
  {
    BitsMoveUp(w, low);
  }

  lemma LowStep(w: bv32, low: bv32, b: bool)
    requires Within(w, low)
    ensures Within(Push(w, b), Push(low, true))
  {
    OutsideMovesUp(w, low);
    hide Push, Outside;
  }

  lemma LowFive(n: nat)
    ensures Low(n + 5) == (Low(n) << 5) | 0x1f
  {
    assert Low(n + 2) == Push(Low(n + 1), true);
    assert Low(n + 4) == Push(Low(n + 3), true);
  }

  lemma {:induction false} LowLeavesTop(w: bv32, n: nat)
    requires n <= 31 && Within(w, Low(n))
    ensures w & 0x8000_0000 == 0
  {
    LowBelow(n, 31);
    LowFive(0);
    LowFive(5);
    LowFive(10);
    LowFive(15);
    LowFive(20);
    LowFive(25);
    assert Low(30) == 0x3fff_ffff;
  }

  lemma {:induction false} LowBelow(n: nat, m: nat)
    requires n <= m
    ensures Within(Low(n), Low(m))
  {
    hide Push, Within;
    if n == 0 {
      NoneAbove(Low(m));
    } else {
      LowBelow(n - 1, m - 1);
      LowStep(Low(n - 1), Low(m - 1), true);
    }
  }

  lemma PushHalf(c: bv32, w: bv32, b: bool)
    requires w & 0x8000_0000 == 0
    ensures Half(Plus(c, Push(w, b))) == Plus(Half(Plus(c, BitOf(b))), w)
    ensures Odd(Plus(c, Push(w, b))) == Odd(Plus(c, BitOf(b)))
  {
  }

  lemma PushShifts(c: bv32, w: bv32, b: bool)
    requires w & 0x8000_0000 == 0
    ensures Shift(Plus(c, Push(w, b))) == Plus(Shift(Plus(c, BitOf(b))), w)
  {
    PushHalf(c, w, b);
    var h := Half(Plus(c, BitOf(b)));
    hide Odd, Half, Plus, Push, BitOf, POLYNOMIAL;
    PlusJoins(POLYNOMIAL, h, w);
  }

  /** Feeding up to a word of bits is one addition and as many shifts. */
  lemma {:induction false} FeedWord(c: bv32, bits: Bits)
    requires |bits| <= 32
    ensures Feed(c, bits) == ShiftN(Plus(c, Word(bits)), |bits|)
    decreases |bits|
  {
    if bits == [] {
      PlusZero(c);
    } else {
      var w := Word(bits[1..]);
      WordIsLow(bits[1..]);
      LowLeavesTop(w, |bits| - 1);
      PushShifts(c, w, bits[0]);
      hide Plus, Shift, Push, BitOf;
      FeedWord(Shift(Plus(c, BitOf(bits[0]))), bits[1..]);
    }
  }

  lemma PlusZero(c: bv32)
    ensures Plus(c, 0) == c
  {
  }

  lemma {:induction false} ShiftNAdds(c: bv32, n: nat, m: nat)
    ensures ShiftN(c, n + m) == ShiftN(ShiftN(c, n), m)
    decreases n
  {
    hide Shift;
    if n > 0 {
      ShiftNAdds(Shift(c), n - 1, m);
    }
  }

  // ── Bytes ─────────────────────────────────────────────────────────────────

  function MessageBits(data: seq<Byte>): Bits {
    if data == [] then [] else BitsOf(data[0]) + MessageBits(data[1..])
  }

  const ONES: bv32 := 0xffff_ffff

  /** The CRC of a message, bit by bit: all ones to begin with, complemented at the end. */
  function Crc(data: seq<Byte>): bv32 {
    !Feed(ONES, MessageBits(data))
  }

  lemma WordTail(bits: Bits, k: nat)
    requires k < |bits|
    ensures Word(bits[k..]) == Push(Word(bits[k + 1..]), bits[k])
  {
    assert bits[k..][1..] == bits[k + 1..];
  }

  /** The low eight bits of a register. */
  function LowBits(x: bv32): (bits: Bits)
    ensures |bits| == 8
  {
    [x & 1 != 0, x & 2 != 0, x & 4 != 0, x & 8 != 0, x & 16 != 0, x & 32 != 0, x & 64 != 0, x & 128 != 0]
  }

  lemma LowIsPushed(x: bv32)
    ensures Push(Push(Push(Push(Push(Push(Push(Push(0, x & 128 != 0), x & 64 != 0), x & 32 != 0), x & 16 != 0),
                 x & 8 != 0), x & 4 != 0), x & 2 != 0), x & 1 != 0) == x & 0xff
  {
  }

  lemma WordOfLow(x: bv32)
    ensures Word(LowBits(x)) == x & 0xff
  {
    var bits := LowBits(x);
    LowIsPushed(x);
    assert Word([]) == 0;
    hide Push, Word;
    assert bits[8..] == [];
    WordTail(bits, 7);
    WordTail(bits, 6);
    WordTail(bits, 5);
    WordTail(bits, 4);
    WordTail(bits, 3);
    WordTail(bits, 2);
    WordTail(bits, 1);
    WordTail(bits, 0);
    assert bits[0..] == bits;
  }

  /** A byte as a word of 32 bits. */
  function Widened(b: Byte): bv32 {
    Word(BitsOf(b))
  }

  lemma LowByteZero(x: bv32)
    requires x & 0xff == 0
    ensures ShiftN(x, 8) == x >> 8
  {
    EvenShifts(x);
    EvenShifts(x >> 1);
    EvenShifts(x >> 2);
    EvenShifts(x >> 3);
    EvenShifts(x >> 4);
    EvenShifts(x >> 5);
    EvenShifts(x >> 6);
    EvenShifts(x >> 7);
    ShiftNAdds(x, 2, 6);
    ShiftNAdds(x >> 2, 2, 4);
    ShiftNAdds(x >> 4, 2, 2);
    hide Shift;
  }

  lemma EvenShifts(x: bv32)
    ensures x & 1 == 0 ==> Shift(x) == x >> 1
  {
  }

  // ── The table ─────────────────────────────────────────────────────────────

  function Entry(k: Byte): bv32 {
    ShiftN(Widened(k), 8)
  }

  predicate IsTable(table: seq<bv32>) {
    |table| == 256 && forall k: nat :: k < 256 ==> table[k] == Entry(k)
  }

  predicate Filled(table: seq<bv32>, count: nat) {
    count <= |table| && forall k: nat :: k < count ==> k < 256 && table[k] == Entry(k)
  }

  lemma FilledOne(was: seq<bv32>, table: seq<bv32>, k: Byte)
    requires Filled(was, k) && k < |was| && table == was[k := Entry(k)]
    ensures Filled(table, k + 1)
  {
    hide Entry;
  }

  lemma FilledAll(table: seq<bv32>)
    requires Filled(table, 256) && |table| == 256
    ensures IsTable(table)
  {
    hide Entry;
  }

  method MakeTable() returns (table: array<bv32>)
    ensures fresh(table) && IsTable(table[..])
  {
    table := new bv32[256];
    assert Filled(table[..], 0);
    hide *;
    for k := 0 to 256
      invariant Filled(table[..], k)
    {
      ghost var was := table[..];
      var c := EightShifts(k);
      table[k] := c;
      FilledOne(was, table[..], k);
    }
    FilledAll(table[..]);
  }

  lemma ShiftIs(c: bv32)
    ensures Shift(c) == if c & 1 != 0 then 0xedb88320 ^ (c >> 1) else c >> 1
  {
  }

  method EightShifts(k: Byte) returns (c: bv32)
    ensures c == Entry(k)
  {
    c := Widened(k);
    for i := 0 to 8
      invariant ShiftN(c, 8 - i) == Entry(k)
    {
      ShiftIs(c);
      hide Shift, Widened;
      c := if c & 1 != 0 then 0xedb88320 ^ (c >> 1) else c >> 1;
    }
  }

  function LowByte(x: bv32): Byte {
    ByteOf(LowBits(x))
  }

  function Down(c: bv32): bv32 {
    c >> 8
  }

  lemma LowByteWidened(x: bv32)
    ensures Widened(LowByte(x)) == x & 0xff
  {
    ByteOfBits(LowBits(x));
    WordOfLow(x);
    hide LowBits, Word, BitsOf, ByteOf;
  }

  lemma SplitByte(x: bv32)
    ensures Plus(x & 0xff, x & 0xffff_ff00) == x
    ensures (x & 0xffff_ff00) & 0xff == 0 && (x & 0xffff_ff00) >> 8 == x >> 8
  {
  }

  lemma LowShifts(x: bv32)
    ensures ShiftN(x, 8) == Plus(Entry(LowByte(x)), Down(x))
  {
    var high := x & 0xffff_ff00;
    SplitByte(x);
    LowByteZero(high);
    assert ShiftN(high, 8) == Down(x);
    LowByteWidened(x);
    hide Plus, ShiftN, LowByte, Down, Widened;
    ShiftNLinear(x & 0xff, high, 8);
  }

  lemma ByteStaysLow(c: bv32, b: Byte)
    ensures Down(Plus(c, Widened(b))) == Down(c)
  {
    WordIsLow(BitsOf(b));
    assert Low(8) == 0xff;
    DownByByte(c, Widened(b));
  }

  lemma DownByByte(c: bv32, w: bv32)
    requires Within(w, 0xff)
    ensures Down(Plus(c, w)) == Down(c)
  {
  }

  /** Eight shifts are one look in the table. */
  lemma LookUp(c: bv32, b: Byte)
    ensures Feed(c, BitsOf(b)) == Plus(Entry(LowByte(Plus(c, Widened(b)))), Down(c))
  {
    FeedWord(c, BitsOf(b));
    ByteStaysLow(c, b);
    hide Plus, ShiftN, Feed, Entry, LowByte, Down, BitsOf, Word;
    LowShifts(Plus(c, Widened(b)));
  }

  lemma MessageGrows(data: seq<Byte>, k: nat)
    requires k < |data|
    ensures MessageBits(data[..k + 1]) == MessageBits(data[..k]) + BitsOf(data[k])
  {
    assert data[..k + 1] == data[..k] + [data[k]];
    MessageJoins(data[..k], [data[k]]);
    assert MessageBits([data[k]]) == BitsOf(data[k]) + MessageBits([]);
  }

  lemma {:induction false} MessageJoins(a: seq<Byte>, b: seq<Byte>)
    ensures MessageBits(a + b) == MessageBits(a) + MessageBits(b)
  {
    hide BitsOf;
    if a == [] {
      assert a + b == b;
    } else {
      assert (a + b)[1..] == a[1..] + b;
      MessageJoins(a[1..], b);
    }
  }

  method Crc32(table: array<bv32>, buf: seq<Byte>) returns (crc: bv32)
    requires IsTable(table[..])
    ensures crc == Crc(buf)
  {
    var c: bv32 := 0xffff_ffff;
    assert MessageBits(buf[..0]) == [];
    assert Feed(ONES, []) == c;
    hide Plus, Feed, Entry, LowByte, Down, Widened, BitsOf, MessageBits, IsTable;
    for k := 0 to |buf|
      invariant c == Feed(ONES, MessageBits(buf[..k]))
    {
      MessageGrows(buf, k);
      FeedJoins(ONES, MessageBits(buf[..k]), BitsOf(buf[k]));
      LookUp(c, buf[k]);
      c := Step(table, c, buf[k]);
    }
    assert buf[..|buf|] == buf;
    AllOnes(c);
    crc := c ^ 0xffff_ffff;
  }

  method Step(table: array<bv32>, c: bv32, b: Byte) returns (next: bv32)
    requires IsTable(table[..])
    ensures next == Plus(Entry(LowByte(Plus(c, Widened(b)))), Down(c))
  {
    var i := LowByte(c ^ Widened(b));
    assert c ^ Widened(b) == Plus(c, Widened(b));
    hide Entry, LowByte, Plus, Down, Widened;
    assert table[..][i] == Entry(i);
    var entry := table[i];
    PlusIs(entry, c);
    next := entry ^ (c >> 8);
  }

  lemma PlusIs(x: bv32, c: bv32)
    ensures x ^ (c >> 8) == Plus(x, Down(c))
  {
  }

  lemma AllOnes(c: bv32)
    ensures c ^ 0xffff_ffff == !c
  {
  }

  // ── What is left of a polynomial ──────────────────────────────────────────

  /** x^32 + x^26 + x^23 + x^22 + x^16 + x^12 + x^11 + x^10 + x^8 + x^7 + x^5 + x^4 + x^2 + x + 1, less x^32. */
  const GENERATOR: bv32 := 0x04c1_1db7

  function TimesX(r: bv32): bv32 {
    if r & 0x8000_0000 != 0 then Plus(GENERATOR, r << 1) else r << 1
  }

  /** What is left on dividing a polynomial by the generator, starting from a
      remainder so far. The highest power comes first. */
  function Remainder(r: bv32, poly: Bits): bv32
    decreases |poly|
  {
    if poly == [] then r
    else Plus(TimesX(Remainder(r, poly[..|poly| - 1])), BitOf(poly[|poly| - 1]))
  }

  function Zeros(n: nat): Bits {
    seq(n, _ => false)
  }

  function Reverse(r: bv32): bv32 {
    var a := ((r >> 1) & 0x5555_5555) | ((r & 0x5555_5555) << 1);
    var b := ((a >> 2) & 0x3333_3333) | ((a & 0x3333_3333) << 2);
    var c := ((b >> 4) & 0x0f0f_0f0f) | ((b & 0x0f0f_0f0f) << 4);
    var d := ((c >> 8) & 0x00ff_00ff) | ((c & 0x00ff_00ff) << 8);
    (d >> 16) | (d << 16)
  }

  function Top(b: bool): bv32 {
    if b then 0x8000_0000 else 0
  }

  lemma ReverseAdds(x: bv32, y: bv32)
    ensures Reverse(Plus(x, y)) == Plus(Reverse(x), Reverse(y))
  {
  }

  lemma ReverseHalves(r: bv32)
    ensures Reverse(r << 1) == Half(Reverse(r))
    ensures Odd(Reverse(r)) <==> r & 0x8000_0000 != 0
  {
  }

  lemma ReverseKnown(b: bool)
    ensures Reverse(BitOf(b)) == Top(b) && Reverse(GENERATOR) == POLYNOMIAL
  {
  }

  lemma ReverseStep(r: bv32, b: bool)
    ensures Reverse(Plus(TimesX(r), BitOf(b))) == Plus(Shift(Reverse(r)), Top(b))
  {
    hide Reverse, Plus, BitOf, Top, Odd, Half, POLYNOMIAL, GENERATOR;
    ReverseAdds(TimesX(r), BitOf(b));
    ReverseAdds(GENERATOR, r << 1);
    ReverseHalves(r);
    ReverseKnown(b);
  }

  lemma RemainderStep(r: bv32, poly: Bits, b: bool)
    ensures Reverse(Remainder(r, poly + [b])) == Plus(Shift(Reverse(Remainder(r, poly))), Top(b))
  {
    hide Reverse, Plus, BitOf, Top, Shift, TimesX;
    assert (poly + [b])[..|poly|] == poly;
    ReverseStep(Remainder(r, poly), b);
  }

  lemma NoTop(x: bv32)
    ensures Plus(x, Top(false)) == x
  {
  }

  lemma {:induction false} ZerosShift(r: bv32, poly: Bits, n: nat)
    ensures Reverse(Remainder(r, poly + Zeros(n))) == ShiftN(Reverse(Remainder(r, poly)), n)
  {
    hide Reverse, Plus, Top, Shift, Remainder;
    if n == 0 {
      assert poly + Zeros(0) == poly;
    } else {
      var front := poly + Zeros(n - 1);
      assert poly + Zeros(n) == front + [false];
      RemainderStep(r, front, false);
      ZerosShift(r, poly, n - 1);
      ShiftNAdds(Reverse(Remainder(r, poly)), n - 1, 1);
      NoTop(Shift(Reverse(Remainder(r, front))));
      var x := ShiftN(Reverse(Remainder(r, poly)), n - 1);
      assert ShiftN(x, 1) == ShiftN(Shift(x), 0);
    }
  }

  lemma TopGoesThrough(b: bool)
    ensures ShiftN(Top(b), 32) == Shift(BitOf(b))
  {
    var x := Top(b);
    LowByteZero(x);
    LowByteZero(x >> 8);
    LowByteZero(x >> 16);
    EightToGo(b);
    ShiftNAdds(x, 8, 24);
    ShiftNAdds(x >> 8, 8, 16);
    ShiftNAdds(x >> 16, 8, 8);
    assert x >> 24 == if b then 0x80 else 0;
  }

  lemma EightToGo(b: bool)
    ensures ShiftN(if b then 0x80 else 0, 8) == Shift(BitOf(b))
  {
    var x: bv32 := if b then 0x80 else 0;
    ShiftNAdds(x, 4, 4);
    assert ShiftN(x, 4) == x >> 4;
    ShiftNAdds(x >> 4, 3, 1);
    assert ShiftN(x >> 4, 3) == BitOf(b);
  }

  lemma {:induction false} ZeroStays(n: nat)
    ensures ShiftN(0, n) == 0
  {
    if n > 0 {
      assert Shift(0) == 0;
      ZeroStays(n - 1);
    }
  }

  lemma FeedOnce(c: bv32, b: bool)
    ensures Feed(c, [b]) == Shift(Plus(c, BitOf(b)))
  {
    hide Plus, Shift, BitOf;
  }

  lemma ShiftOnce(c: bv32)
    ensures ShiftN(c, 1) == Shift(c)
  {
    hide Shift;
  }

  lemma OneBitOn(c: bv32, n: nat, f: bv32, r: bv32, b: bool)
    requires f == Plus(ShiftN(c, n), ShiftN(r, 32))
    ensures Shift(Plus(f, BitOf(b))) == Plus(ShiftN(c, n + 1), ShiftN(Plus(Shift(r), Top(b)), 32))
  {
    var x, y := ShiftN(c, n), ShiftN(r, 32);
    hide *;
    ShiftOnce(x);
    ShiftOnce(y);
    ShiftOnce(r);
    ShiftLinear(f, BitOf(b));
    ShiftLinear(x, y);
    ShiftNLinear(Shift(r), Top(b), 32);
    TopGoesThrough(b);
    ShiftNAdds(c, n, 1);
    ShiftNAdds(r, 32, 1);
    ShiftNAdds(r, 1, 32);
    PlusJoins(Shift(x), Shift(y), Shift(BitOf(b)));
  }

  /** The register after a message: what is left of the register so far, moved up
      past the message, added to what is left of the message moved up past a word. */
  lemma {:induction false} FeedIsRemainder(c: bv32, bits: Bits)
    ensures Feed(c, bits) == Plus(ShiftN(c, |bits|), ShiftN(Reverse(Remainder(0, bits)), 32))
    decreases |bits|
  {
    if bits == [] {
      assert Reverse(0) == 0;
      ZeroStays(32);
      PlusZero(c);
    } else {
      var front, b := bits[..|bits| - 1], bits[|bits| - 1];
      assert bits == front + [b];
      hide *;
      FeedIsRemainder(c, front);
      FeedJoins(c, front, [b]);
      FeedOnce(Feed(c, front), b);
      RemainderStep(0, front, b);
      OneBitOn(c, |front|, Feed(c, front), Reverse(Remainder(0, front)), b);
    }
  }

  /** The CRC of a message is, reversed and complemented, what is left on dividing
      by the generator: the message moved up past a word, with its first word complemented. */
  lemma CrcIsRemainder(data: seq<Byte>)
    ensures var bits := MessageBits(data);
            Crc(data) == !Reverse(Plus(Remainder(ONES, Zeros(|bits|)), Remainder(0, bits + Zeros(32))))
  {
    var bits := MessageBits(data);
    assert Reverse(ONES) == ONES;
    assert Remainder(ONES, []) == ONES;
    assert [] + Zeros(|bits|) == Zeros(|bits|);
    hide Reverse, Plus, Feed, ShiftN, Remainder;
    FeedIsRemainder(ONES, bits);
    ZerosShift(ONES, [], |bits|);
    ZerosShift(0, bits, 32);
    ReverseAdds(Remainder(ONES, Zeros(|bits|)), Remainder(0, bits + Zeros(32)));
  }

  // ── Changed bits ──────────────────────────────────────────────────────────

  lemma PlusInjective(x: bv32, y: bv32, z: bv32)
    requires Plus(x, z) == Plus(y, z) || Plus(z, x) == Plus(z, y)
    ensures x == y
  {
  }

  lemma {:induction false} FeedInjective(x: bv32, y: bv32, bits: Bits)
    requires Feed(x, bits) == Feed(y, bits)
    ensures x == y
    decreases |bits|
  {
    hide Plus, Shift, BitOf;
    if bits != [] {
      var b := BitOf(bits[0]);
      FeedInjective(Shift(Plus(x, b)), Shift(Plus(y, b)), bits[1..]);
      ShiftInjective(Plus(x, b), Plus(y, b));
      PlusInjective(x, y, b);
    }
  }

  lemma PushInjective(x: bv32, a: bool, y: bv32, b: bool)
    requires Push(x, a) == Push(y, b) && x & 0x8000_0000 == 0 && y & 0x8000_0000 == 0
    ensures x == y && a == b
  {
    assert Push(x, a) & 1 == BitOf(a) && Push(y, b) & 1 == BitOf(b);
  }

  lemma {:induction false} WordInjective(a: Bits, b: Bits)
    requires |a| == |b| <= 32 && Word(a) == Word(b)
    ensures a == b
    decreases |a|
  {
    hide Push;
    if a != [] {
      WordIsLow(a[1..]);
      WordIsLow(b[1..]);
      LowLeavesTop(Word(a[1..]), |a| - 1);
      LowLeavesTop(Word(b[1..]), |a| - 1);
      PushInjective(Word(a[1..]), a[0], Word(b[1..]), b[0]);
      WordInjective(a[1..], b[1..]);
    }
  }

  /** No change confined to a run of 32 bits goes unnoticed. */
  lemma BurstShows(c: bv32, before: Bits, a: Bits, b: Bits, after: Bits)
    requires |a| == |b| <= 32 && a != b
    ensures Feed(c, before + a + after) != Feed(c, before + b + after)
  {
    var x := Feed(c, before);
    FeedJoins(c, before, a);
    FeedJoins(c, before, b);
    FeedJoins(c, before + a, after);
    FeedJoins(c, before + b, after);
    FeedWord(x, a);
    FeedWord(x, b);
    hide Feed, Plus, ShiftN, Word;
    if Feed(c, before + a + after) == Feed(c, before + b + after) {
      FeedInjective(Feed(x, a), Feed(x, b), after);
      ShiftNInjective(Plus(x, Word(a)), Plus(x, Word(b)), |a|);
      PlusInjective(Word(a), Word(b), x);
      WordInjective(a, b);
    }
  }

  lemma {:induction false} MessageInjective(a: seq<Byte>, b: seq<Byte>)
    requires |a| == |b|
    ensures |MessageBits(a)| == |MessageBits(b)| == 8 * |a|
    ensures MessageBits(a) == MessageBits(b) ==> a == b
  {
    if a != [] {
      MessageInjective(a[1..], b[1..]);
      assert |BitsOf(a[0])| == |BitsOf(b[0])| == 8;
      hide BitsOf;
      if MessageBits(a) == MessageBits(b) {
        assert BitsOf(a[0]) == MessageBits(a)[..8] && BitsOf(b[0]) == MessageBits(b)[..8];
        assert MessageBits(a[1..]) == MessageBits(a)[8..] && MessageBits(b[1..]) == MessageBits(b)[8..];
        BitsInjective(a[0], b[0]);
      }
    }
  }

  /** Up to four bytes in a row, changed in any way, change the CRC. */
  lemma ChangeShows(before: seq<Byte>, a: seq<Byte>, b: seq<Byte>, after: seq<Byte>)
    requires |a| == |b| <= 4 && a != b
    ensures Crc(before + a + after) != Crc(before + b + after)
  {
    MessageInjective(a, b);
    MessageJoins(before, a);
    MessageJoins(before, b);
    MessageJoins(before + a, after);
    MessageJoins(before + b, after);
    hide MessageBits, Feed;
    BurstShows(ONES, MessageBits(before), MessageBits(a), MessageBits(b), MessageBits(after));
    var x, y := Feed(ONES, MessageBits(before + a + after)), Feed(ONES, MessageBits(before + b + after));
    NotDiffers(x, y);
  }

  lemma NotDiffers(x: bv32, y: bv32)
    ensures x != y ==> !x != !y
  {
  }

  // ── Chunks ────────────────────────────────────────────────────────────────

  const LIMIT: nat := 0x1_0000_0000

  function Length4(n: nat): (b: seq<Byte>)
    requires n < LIMIT
    ensures |b| == 4
  {
    [n / 0x100_0000, n / 0x1_0000 % 256, n / 256 % 256, n % 256]
  }

  function ReadLength(b: seq<Byte>): nat
    requires |b| == 4
  {
    (b[0] as nat) * 0x100_0000 + (b[1] as nat) * 0x1_0000 + (b[2] as nat) * 256 + b[3] as nat
  }

  lemma LengthReadsBack(n: nat)
    requires n < LIMIT
    ensures ReadLength(Length4(n)) == n
  {
    assert n / 0x1_0000 == n / 256 / 256 && n / 0x100_0000 == n / 0x1_0000 / 256;
  }

  function Word4(w: bv32): (b: seq<Byte>)
    ensures |b| == 4
  {
    [LowByte(Down(Down(Down(w)))), LowByte(Down(Down(w))), LowByte(Down(w)), LowByte(w)]
  }

  /** The number a word stands for. */
  function Value(w: bv32): nat
    decreases w
  {
    if w == 0 then 0
    else
      HalfIsLess(w);
      (if Odd(w) then 1 else 0) + 2 * Value(Half(w))
  }

  lemma HalfIsLess(w: bv32)
    requires w != 0
    ensures Half(w) < w
  {
  }

  lemma ValueHalves(w: bv32)
    ensures Value(w) == (if Odd(w) then 1 else 0) + 2 * Value(Half(w))
  {
  }

  function Digit(b: bool): nat {
    if b then 1 else 0
  }

  lemma SumMore(b: bool, rest: Bits)
    ensures Sum([b] + rest) == Digit(b) + 2 * Sum(rest)
  {
    assert ([b] + rest)[1..] == rest;
  }

  lemma SumOfFour(a: bool, b: bool, c: bool, d: bool, rest: Bits)
    ensures Sum([a, b, c, d] + rest) == Digit(a) + 2 * Digit(b) + 4 * Digit(c) + 8 * Digit(d) + 16 * Sum(rest)
  {
    hide Sum;
    SumMore(d, rest);
    SumMore(c, [d] + rest);
    SumMore(b, [c] + ([d] + rest));
    SumMore(a, [b] + ([c] + ([d] + rest)));
    assert [a, b, c, d] + rest == [a] + ([b] + ([c] + ([d] + rest)));
  }

  lemma HalvesAre(w: bv32)
    ensures Half(w) == w >> 1 && Half(w >> 1) == w >> 2 && Half(w >> 2) == w >> 3 && Half(w >> 3) == w >> 4
    ensures Half(w >> 4) == w >> 5 && Half(w >> 5) == w >> 6 && Half(w >> 6) == w >> 7 && Half(w >> 7) == w >> 8
    ensures Odd(w >> 1) == (w & 2 != 0) && Odd(w >> 2) == (w & 4 != 0) && Odd(w >> 3) == (w & 8 != 0)
    ensures Odd(w >> 4) == (w & 16 != 0) && Odd(w >> 5) == (w & 32 != 0) && Odd(w >> 6) == (w & 64 != 0)
    ensures Odd(w >> 7) == (w & 128 != 0)
  {
  }

  lemma ValueOfFour(w: bv32)
    ensures Value(w) == Digit(w & 1 != 0) + 2 * Digit(w & 2 != 0) + 4 * Digit(w & 4 != 0) + 8 * Digit(w & 8 != 0)
                        + 16 * Value(w >> 4)
  {
    HalvesAre(w);
    assert Odd(w) == (w & 1 != 0);
    hide Odd, Half, Value;
    ValueHalves(w);
    ValueHalves(w >> 1);
    ValueHalves(w >> 2);
    ValueHalves(w >> 3);
  }

  lemma NextFour(w: bv32)
    ensures (w >> 4) & 1 != 0 <==> w & 16 != 0
    ensures (w >> 4) & 2 != 0 <==> w & 32 != 0
    ensures (w >> 4) & 4 != 0 <==> w & 64 != 0
    ensures (w >> 4) & 8 != 0 <==> w & 128 != 0
    ensures (w >> 4) >> 4 == Down(w)
  {
  }

  lemma SumOfEight(a: bool, b: bool, c: bool, d: bool, e: bool, f: bool, g: bool, h: bool)
    ensures Sum([a, b, c, d, e, f, g, h]) == Digit(a) + 2 * Digit(b) + 4 * Digit(c) + 8 * Digit(d)
                                             + 16 * (Digit(e) + 2 * Digit(f) + 4 * Digit(g) + 8 * Digit(h))
  {
    hide Sum;
    SumOfFour(a, b, c, d, [e, f, g, h]);
    SumOfFour(e, f, g, h, []);
    SumOfNone();
    assert [a, b, c, d] + [e, f, g, h] == [a, b, c, d, e, f, g, h];
    assert [e, f, g, h] + [] == [e, f, g, h];
  }

  lemma SumOfNone()
    ensures Sum([]) == 0
  {
  }

  lemma LowByteIs(w: bv32)
    ensures LowByte(w) == Digit(w & 1 != 0) + 2 * Digit(w & 2 != 0) + 4 * Digit(w & 4 != 0) + 8 * Digit(w & 8 != 0)
                          + 16 * (Digit(w & 16 != 0) + 2 * Digit(w & 32 != 0) + 4 * Digit(w & 64 != 0) + 8 * Digit(w & 128 != 0))
  {
    hide Sum;
    SumOfEight(w & 1 != 0, w & 2 != 0, w & 4 != 0, w & 8 != 0, w & 16 != 0, w & 32 != 0, w & 64 != 0, w & 128 != 0);
  }

  lemma ValueLow(w: bv32)
    ensures Value(w) == LowByte(w) + 256 * Value(Down(w))
  {
    hide Value, Down, LowByte;
    LowByteIs(w);
    ValueOfFour(w);
    ValueOfFour(w >> 4);
    NextFour(w);
  }

  /** Read most significant byte first, the four bytes are the word's value. */
  lemma Word4IsBigEndian(w: bv32)
    ensures ReadLength(Word4(w)) == Value(w)
  {
    hide LowByte;
    ValueLow(w);
    ValueLow(Down(w));
    ValueLow(Down(Down(w)));
    ValueLow(Down(Down(Down(w))));
    assert Down(Down(Down(Down(w)))) == 0;
  }

  function Masked(x: bv32): bv32 {
    x & 0xff
  }

  lemma LowByteInjective(x: bv32, y: bv32)
    requires LowByte(x) == LowByte(y)
    ensures Masked(x) == Masked(y)
  {
    LowByteWidened(x);
    LowByteWidened(y);
  }

  lemma FourBytes(x: bv32, y: bv32)
    requires Masked(Down(Down(Down(x)))) == Masked(Down(Down(Down(y)))) && Masked(Down(Down(x))) == Masked(Down(Down(y)))
    requires Masked(Down(x)) == Masked(Down(y)) && Masked(x) == Masked(y)
    ensures x == y
  {
  }

  lemma Word4Injective(x: bv32, y: bv32)
    requires Word4(x) == Word4(y)
    ensures x == y
  {
    hide LowByte, Down, Masked;
    assert Word4(x)[0] == Word4(y)[0] && Word4(x)[1] == Word4(y)[1];
    assert Word4(x)[2] == Word4(y)[2] && Word4(x)[3] == Word4(y)[3];
    LowByteInjective(Down(Down(Down(x))), Down(Down(Down(y))));
    LowByteInjective(Down(Down(x)), Down(Down(y)));
    LowByteInjective(Down(x), Down(y));
    LowByteInjective(x, y);
    FourBytes(x, y);
  }

  /** `Buffer.from(type, 'ascii')` keeps the low byte of each character. */
  function Ascii(kind: string): seq<Byte> {
    seq(|kind|, i requires 0 <= i < |kind| => kind[i] as nat % 256)
  }

  function Chars(bytes: seq<Byte>): string {
    seq(|bytes|, i requires 0 <= i < |bytes| => bytes[i] as char)
  }

  function Framed(kind: string, data: seq<Byte>): seq<Byte>
    requires |data| < LIMIT
  {
    Length4(|data|) + (Ascii(kind) + data) + Word4(Crc(Ascii(kind) + data))
  }

  /** Writing a length that does not fit in 32 bits throws. */
  method Chunk(table: array<bv32>, kind: string, data: seq<Byte>) returns (bytes: Option<seq<Byte>>)
    requires IsTable(table[..])
    ensures bytes == if |data| < LIMIT then Some(Framed(kind, data)) else None
    ensures bytes.Some? <==> |data| < 0x1_0000_0000
  {
    if |data| >= LIMIT {
      return None;
    }
    var body := Ascii(kind) + data;
    var crc := Crc32(table, body);
    bytes := Some(Length4(|data|) + body + Word4(crc));
  }

  /** Four bytes of length, the type, the data, and the CRC's four bytes, both numbers most significant byte first. */
  lemma FramedSays(kind: string, data: seq<Byte>)
    requires |data| < LIMIT
    ensures var bytes, end := Framed(kind, data), 4 + |kind| + |data|;
            && |bytes| == end + 4 && ReadLength(bytes[..4]) == |data|
            && bytes[4..end] == Ascii(kind) + data
            && ReadLength(bytes[end..]) == Value(Crc(bytes[4..end]))
  {
    var bytes, end := Framed(kind, data), 4 + |kind| + |data|;
    hide Crc, Length4, ReadLength, Word4, Value;
    LengthReadsBack(|data|);
    Word4IsBigEndian(Crc(Ascii(kind) + data));
    assert bytes[..4] == Length4(|data|);
    assert bytes[end..] == Word4(Crc(Ascii(kind) + data));
  }

  datatype Parsed = Parsed(kind: string, data: seq<Byte>, rest: seq<Byte>)

  /** A reader by section 3.2 of RFC 2083: length, type, data, and a CRC that must agree. */
  function ParseChunk(bytes: seq<Byte>): Option<Parsed> {
    if |bytes| < 12 then None
    else
      var n := ReadLength(bytes[..4]);
      if |bytes| < 12 + n then None
      else if Word4(Crc(bytes[4..8 + n])) != bytes[8 + n..12 + n] then None
      else Some(Parsed(Chars(bytes[4..8]), bytes[8..8 + n], bytes[12 + n..]))
  }

  predicate IsType(kind: string) {
    |kind| == 4 && forall i :: 0 <= i < 4 ==> kind[i] as nat < 256
  }

  lemma TypeReadsBack(kind: string)
    requires IsType(kind)
    ensures Chars(Ascii(kind)) == kind
  {
    forall i | 0 <= i < 4
      ensures Chars(Ascii(kind))[i] == kind[i]
    {
      assert kind[i] as nat % 256 == kind[i] as nat;
    }
  }

  lemma CharsAreBytes(bytes: seq<Byte>)
    requires |bytes| == 4
    ensures IsType(Chars(bytes))
  {
  }

  lemma Slices(a: seq<Byte>, b: seq<Byte>, c: seq<Byte>, rest: seq<Byte>)
    requires |a| == |c| == 4 <= |b|
    ensures var s, n := a + b + c + rest, |b| - 4;
            && s[..4] == a && s[4..8 + n] == b && s[8 + n..12 + n] == c && s[12 + n..] == rest
            && s[4..8] == b[..4] && s[8..8 + n] == b[4..]
  {
  }

  /** Any body under its own length and CRC parses; what of it is type and what is data is fixed. */
  lemma BodyParses(body: seq<Byte>, rest: seq<Byte>)
    requires 4 <= |body| < LIMIT + 4
    ensures ParseChunk(Length4(|body| - 4) + body + Word4(Crc(body)) + rest) ==
            Some(Parsed(Chars(body[..4]), body[4..], rest))
  {
    LengthReadsBack(|body| - 4);
    assert |Length4(|body| - 4)| == 4 && |Word4(Crc(body))| == 4;
    hide Crc, Length4, ReadLength, Word4, Chars;
    Slices(Length4(|body| - 4), body, Word4(Crc(body)), rest);
  }

  /** A chunk reads back as what was put in, exactly when its type is four single-byte characters. */
  lemma ChunkReadsBack(kind: string, data: seq<Byte>, rest: seq<Byte>)
    requires |data| < LIMIT
    ensures ParseChunk(Framed(kind, data) + rest) == Some(Parsed(kind, data, rest)) <==> IsType(kind)
  {
    var bytes := Framed(kind, data) + rest;
    if IsType(kind) {
      var body := Ascii(kind) + data;
      assert body[..4] == Ascii(kind) && body[4..] == data;
      TypeReadsBack(kind);
      hide ParseChunk, Crc;
      BodyParses(body, rest);
    } else if |bytes| >= 12 {
      CharsAreBytes(bytes[4..8]);
      hide Framed, Crc, ReadLength, Word4;
    }
  }

  lemma MismatchIsRefused(body: seq<Byte>, crc: seq<Byte>, rest: seq<Byte>)
    requires 4 <= |body| < LIMIT + 4 && |crc| == 4 && crc != Word4(Crc(body))
    ensures ParseChunk(Length4(|body| - 4) + body + crc + rest) == None
  {
    LengthReadsBack(|body| - 4);
    assert |Length4(|body| - 4)| == 4;
    hide Crc, Length4, ReadLength, Word4, Chars;
    Slices(Length4(|body| - 4), body, crc, rest);
  }

  /** A type or data byte changed, or up to four in a row, and the chunk is refused. */
  lemma ChangedChunkIsRefused(before: seq<Byte>, a: seq<Byte>, b: seq<Byte>, after: seq<Byte>, rest: seq<Byte>)
    requires |a| == |b| <= 4 && a != b && 4 <= |before + a + after| < LIMIT + 4
    ensures var body := before + a + after;
            ParseChunk(Length4(|body| - 4) + (before + b + after) + Word4(Crc(body)) + rest) == None
  {
    var body, changed := before + a + after, before + b + after;
    hide *;
    ChangeShows(before, a, b, after);
    if Word4(Crc(changed)) == Word4(Crc(body)) {
      Word4Injective(Crc(changed), Crc(body));
    }
    MismatchIsRefused(changed, Word4(Crc(body)), rest);
  }

  datatype Piece = Piece(kind: string, data: seq<Byte>)

  predicate Writable(chunks: seq<Piece>) {
    forall i :: 0 <= i < |chunks| ==> IsType(chunks[i].kind) && |chunks[i].data| < LIMIT
  }

  function Written(chunks: seq<Piece>): seq<Byte>
    requires Writable(chunks)
  {
    if chunks == [] then [] else Framed(chunks[0].kind, chunks[0].data) + Written(chunks[1..])
  }

  function ParseAll(bytes: seq<Byte>): Option<seq<Piece>>
    decreases |bytes|
  {
    if bytes == [] then Some([])
    else
      match ParseChunk(bytes)
      case None => None
      case Some(p) =>
        match ParseAll(p.rest)
        case None => None
        case Some(others) => Some([Piece(p.kind, p.data)] + others)
  }

  lemma ParsesOn(bytes: seq<Byte>, kind: string, data: seq<Byte>, rest: seq<Byte>)
    requires bytes != [] && ParseChunk(bytes) == Some(Parsed(kind, data, rest))
    ensures ParseAll(rest).Some? ==> ParseAll(bytes) == Some([Piece(kind, data)] + ParseAll(rest).value)
  {
    hide ParseChunk;
  }

  /** Any run of chunks, written one after another, reads back as itself. */
  lemma {:induction false} ChunksReadBack(chunks: seq<Piece>)
    requires Writable(chunks)
    ensures ParseAll(Written(chunks)) == Some(chunks)
  {
    if chunks != [] {
      var first, rest := chunks[0], Written(chunks[1..]);
      ChunkReadsBack(first.kind, first.data, rest);
      assert Framed(first.kind, first.data) + rest != [];
      assert Written(chunks) == Framed(first.kind, first.data) + rest && Writable(chunks[1..]);
      hide *;
      ChunksReadBack(chunks[1..]);
      ParsesOn(Written(chunks), first.kind, first.data, rest);
      assert [first] + chunks[1..] == chunks;
    }
  }
}

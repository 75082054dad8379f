/**
  The page checksum of voicemail/ogg.go: the table-driven loop is division by the generator
  polynomial 0x04c11db7 (section 6 of RFC 3533), most significant bit first, starting
  from zero and without a final complement.
 */
module OggCrc {
  type Byte = bv8
  type Word = bv32

  const POLY: bv32 := 0x04c1_1db7

  /** Subtraction of polynomials over GF(2). */
  function Xor(x: Word, y: Word): Word {
    x ^ y
  }

  function Up(c: Word): Word {
    c << 1
  }

  function Up8(c: Word): Word {
    c << 8
  }

  /** A byte at the top of the register. */
  function Top(b: Byte): Word {
    (b as Word) << 24
  }

  function Low(c: Word): Word {
    c & 0x00ff_ffff
  }

  predicate TopClear(c: Word) {
    c & 0x8000_0000 == 0
  }

  /** Multiply the remainder by x: shift one place, and subtract the generator when a bit falls out. */
  function Times(c: Word): Word {
    Xor(Up(c), if TopClear(c) then 0 else POLY)
  }

  /** Multiply by x, n times. */
  function TimesN(c: Word, n: nat): Word
    decreases n
  {
    if n == 0 then c else TimesN(Times(c), n - 1)
  }

  /** One byte through the register, its bits from the top. */
  function Step(c: Word, b: Byte): Word {
    TimesN(Xor(c, Top(b)), 8)
  }

  /** The register after data, starting from c. */
  function Register(c: Word, data: seq<Byte>): Word
    decreases |data|
  {
    if data == [] then c else Register(Step(c, data[0]), data[1..])
  }

  /** The checksum of data. */
  function Crc(data: seq<Byte>): Word {
    Register(0, data)
  }

  // ---- Polynomials over GF(2) ----

  lemma {:induction false} BitXor(a: Word, b: Word, c: Word)
    ensures a ^ b == b ^ a && (a ^ b) ^ c == a ^ (b ^ c)
    ensures a ^ 0 == a && 0 ^ a == a && a ^ a == 0 && (a ^ b == 0 <==> a == b)
  {}

  lemma {:induction false} XorLaws(x: Word, y: Word, z: Word)
    ensures Xor(x, y) == Xor(y, x) && Xor(Xor(x, y), z) == Xor(x, Xor(y, z))
    ensures Xor(x, 0) == x && Xor(0, x) == x && Xor(x, x) == 0
    ensures Xor(x, y) == 0 <==> x == y
  {
    BitXor(x, y, z);
  }

  lemma {:induction false} XorPairs(a: Word, b: Word, c: Word, d: Word)
    ensures Xor(Xor(a, b), Xor(c, d)) == Xor(Xor(a, c), Xor(b, d))
  {
    hide Xor;
    XorLaws(a, b, Xor(c, d));
    XorLaws(b, c, d);
    XorLaws(c, b, d);
    XorLaws(a, c, Xor(b, d));
  }

  lemma {:induction false} XorCancel(x: Word, y: Word, z: Word)
    requires Xor(z, x) == Xor(z, y)
    ensures x == y
  {
    hide Xor;
    XorLaws(z, z, x);
    XorLaws(z, z, y);
    XorLaws(x, 0, 0);
    XorLaws(y, 0, 0);
  }

  lemma {:induction false} TopBit(x: Word, y: Word)
    ensures TopClear(Xor(x, y)) <==> (TopClear(x) <==> TopClear(y))
    ensures Up(Xor(x, y)) == Xor(Up(x), Up(y))
  {}

  lemma {:induction false} TimesLinear(x: Word, y: Word)
    ensures Times(Xor(x, y)) == Xor(Times(x), Times(y))
  {
    TopBit(x, y);
    var p, q := if TopClear(x) then 0 else POLY, if TopClear(y) then 0 else POLY;
    XorPairs(Up(x), p, Up(y), q);
    XorLaws(POLY, 0, 0);
    XorLaws(0, 0, 0);
    hide Xor, Up, TopClear;
  }

  lemma {:induction false} TimesNLinear(x: Word, y: Word, n: nat)
    ensures TimesN(Xor(x, y), n) == Xor(TimesN(x, n), TimesN(y, n))
    decreases n
  {
    hide Times, Xor;
    if n > 0 {
      TimesLinear(x, y);
      TimesNLinear(Times(x), Times(y), n - 1);
    }
  }

  lemma {:induction false} TimesNSum(c: Word, m: nat, n: nat)
    ensures TimesN(TimesN(c, m), n) == TimesN(c, m + n)
    decreases m
  {
    hide Times;
    if m > 0 {
      TimesNSum(Times(c), m - 1, n);
    }
  }

  lemma {:induction false} TimesZero(x: Word)
    ensures Times(x) == 0 <==> x == 0
  {}

  lemma {:induction false} TimesNZero(x: Word, n: nat)
    ensures TimesN(x, n) == 0 <==> x == 0
    decreases n
  {
    hide Times;
    if n > 0 {
      TimesNZero(Times(x), n - 1);
      TimesZero(x);
    }
  }

  /** Multiplying by a power of x loses nothing. */
  lemma {:induction false} TimesNInjective(x: Word, y: Word, n: nat)
    requires TimesN(x, n) == TimesN(y, n)
    ensures x == y
  {
    hide TimesN, Xor;
    TimesNLinear(x, y, n);
    XorLaws(TimesN(x, n), TimesN(y, n), 0);
    TimesNZero(Xor(x, y), n);
    XorLaws(x, y, 0);
  }

  // ---- Eight places at once, when nothing falls out ----

  lemma {:induction false} TimesUp(x: Word)
    requires TopClear(x)
    ensures Times(x) == Up(x)
  {}

  lemma {:induction false} ClearUp(x: Word)
    requires Low(x) == x
    ensures TopClear(x) && TopClear(Up(x)) && TopClear(Up(Up(x))) && TopClear(Up(Up(Up(x))))
    ensures TopClear(Up(Up(Up(Up(x))))) && TopClear(Up(Up(Up(Up(Up(x))))))
    ensures TopClear(Up(Up(Up(Up(Up(Up(x))))))) && TopClear(Up(Up(Up(Up(Up(Up(Up(x))))))))
    ensures Up(Up(Up(Up(Up(Up(Up(Up(x)))))))) == Up8(x)
  {}

  lemma {:induction false} Unroll(c: Word, n: nat)
    ensures TimesN(c, n + 1) == TimesN(Times(c), n)
  {}

  lemma {:induction false} ByteUp(x: Word)
    requires Low(x) == x
    ensures TimesN(x, 8) == Up8(x)
  {
    ClearUp(x);
    hide Times, TimesN, Up, Up8, TopClear, Low;
    var x1 := Up(x);
    var x2 := Up(x1);
    var x3 := Up(x2);
    var x4 := Up(x3);
    var x5 := Up(x4);
    var x6 := Up(x5);
    var x7 := Up(x6);
    Shifted(x, 7);
    Shifted(x1, 6);
    Shifted(x2, 5);
    Shifted(x3, 4);
    Shifted(x4, 3);
    Shifted(x5, 2);
    Shifted(x6, 1);
    Shifted(x7, 0);
    TimesNone(Up(x7));
  }

  lemma {:induction false} TimesNone(x: Word)
    ensures TimesN(x, 0) == x
  {}

  lemma {:induction false} Shifted(x: Word, n: nat)
    requires TopClear(x)
    ensures TimesN(x, n + 1) == TimesN(Up(x), n)
  {
    TimesUp(x);
    hide Times, Up, TopClear;
  }

  // ---- The table ----

  /** What the table holds for an index byte. */
  function Entry(i: Byte): Word {
    TimesN(Top(i), 8)
  }

  function High(c: Word): Byte {
    (c >> 24) as Byte
  }

  function ByteXor(a: Byte, b: Byte): Byte {
    a ^ b
  }

  function Index(c: Word, b: Byte): Byte {
    ByteXor(High(c), b)
  }

  lemma {:induction false} HighAndLow(c: Word)
    ensures c == Xor(Low(c), Top(High(c))) && Low(Low(c)) == Low(c) && Up8(Low(c)) == Up8(c)
  {}

  lemma {:induction false} TopLinear(a: Byte, b: Byte)
    ensures Top(ByteXor(a, b)) == Xor(Top(a), Top(b))
  {}

  lemma {:induction false} SplitTop(c: Word, b: Byte)
    ensures Xor(c, Top(b)) == Xor(Low(c), Top(Index(c, b)))
  {
    hide Xor, Low, Top, High, ByteXor, Up8;
    HighAndLow(c);
    TopLinear(High(c), b);
    XorLaws(Low(c), Top(High(c)), Top(b));
  }

  /** The top byte picks the table entry, the rest just moves up. */
  lemma {:induction false} TableStep(c: Word, b: Byte)
    ensures Step(c, b) == Xor(Up8(c), Entry(Index(c, b)))
  {
    hide TimesN, Xor, Up8, Low, Top, Index;
    SplitTop(c, b);
    HighAndLow(c);
    XorLaws(Up8(c), Entry(Index(c, b)), 0);
    TimesNLinear(Low(c), Top(Index(c, b)), 8);
    ByteUp(Low(c));
  }

  lemma {:induction false} RegisterAppend(c: Word, data: seq<Byte>, more: seq<Byte>)
    ensures Register(c, data + more) == Register(Register(c, data), more)
    decreases |data|
  {
    hide Step;
    if data == [] {
      assert data + more == more;
    } else {
      assert (data + more)[1..] == data[1..] + more;
      RegisterAppend(Step(c, data[0]), data[1..], more);
    }
  }

  /** The table, as the package initialiser builds it. */
  ghost predicate IsTable(t: seq<Word>) {
    |t| == 256 && Filled(t, 256)
  }

  ghost predicate Filled(t: seq<Word>, n: int) {
    0 <= n <= |t| && n <= 256 && forall i | 0 <= i < n :: t[i] == Entry(i as Byte)
  }

  lemma {:induction false} FillNone(t: seq<Word>)
    ensures Filled(t, 0)
  {}

  lemma {:induction false} FillOne(t: seq<Word>, n: int)
    requires Filled(t, n) && n < 256 && n < |t|
    ensures Filled(t[n := Entry(n as Byte)], n + 1)
  {}

  lemma {:induction false} IntByte(k: Byte)
    ensures (k as int) as Byte == k
  {}

  /** The byte reached by counting up to n. */
  function Counted(n: int): Byte
    requires 0 <= n < 256
  {
    if n == 0 then 0 else Counted(n - 1) + 1
  }

  lemma {:induction false} CountOne(b: Byte)
    requires b != 255
    ensures (b + 1) as int == (b as int) + 1
  {}

  lemma {:induction false} CountedIs(n: int)
    requires 0 <= n < 256
    ensures Counted(n) as int == n
    decreases n
  {
    if n > 0 {
      CountedIs(n - 1);
      CountOne(Counted(n - 1));
    }
  }

  lemma {:induction false} ByteInt(i: int)
    requires 0 <= i < 256
    ensures (i as Byte) as int == i
  {
    CountedIs(i);
    IntByte(Counted(i));
  }

  lemma {:induction false} TimesAsWritten(c: Word)
    ensures Times(c) == if !TopClear(c) then Xor(Up(c), POLY) else Up(c)
  {
    XorLaws(Up(c), 0, 0);
    hide Xor, Up;
  }

  lemma {:induction false} EntryStarts(b: Byte)
    ensures TimesN(Top(b), 8) == Entry(b)
  {}

  method BuildTable() returns (t: array<Word>)
    ensures IsTable(t[..])
  {
    hide Times, TimesN, Top, Up, Xor, TopClear, Entry, Filled;
    t := new Word[256];
    FillNone(t[..]);
    var i := 0;
    while i < 256
      invariant 0 <= i <= 256
      invariant Filled(t[..], i)
    {
      var c := Top(i as Byte);
      EntryStarts(i as Byte);
      var j := 0;
      while j < 8
        invariant 0 <= j <= 8 && TimesN(c, 8 - j) == Entry(i as Byte) && Filled(t[..], i)
      {
        Unroll(c, 7 - j);
        TimesAsWritten(c);
        c := if !TopClear(c) then Xor(Up(c), POLY) else Up(c);
        j := j + 1;
      }
      TimesNone(c);
      FillOne(t[..], i);
      ghost var filled := t[..][i := c];
      t[i] := c;
      assert t[..] == filled;
      i := i + 1;
    }
  }

  method ComputeCrc(t: array<Word>, data: seq<Byte>) returns (c: Word)
    requires IsTable(t[..])
    ensures c == Crc(data)
  {
    hide Step, Entry, Up8, Xor, Index;
    c := 0;
    var i := 0;
    assert data[0..] == data;
    while i < |data|
      invariant 0 <= i <= |data| && Register(c, data[i..]) == Crc(data)
    {
      var b := data[i];
      TableStep(c, b);
      IntByte(Index(c, b));
      assert data[i..][1..] == data[i + 1..];
      c := Xor(Up8(c), t[Index(c, b) as int]);
      i := i + 1;
    }
  }

  // ---- The checksum is a remainder ----

  /** Long division: bring down the bits one after another, reducing each time. */
  function Divide(r: Word, bits: seq<bool>): Word
    decreases |bits|
  {
    if bits == [] then r else Divide(Xor(Times(r), if bits[0] then 1 else 0), bits[1..])
  }

  function ByteBits(b: Byte): seq<bool> {
    [b & 0x80 != 0, b & 0x40 != 0, b & 0x20 != 0, b & 0x10 != 0, b & 8 != 0, b & 4 != 0, b & 2 != 0, b & 1 != 0]
  }

  /** The bits of a message, first byte first, most significant bit first. */
  function Bits(data: seq<Byte>): seq<bool> {
    if data == [] then [] else ByteBits(data[0]) + Bits(data[1..])
  }

  function Zeros(n: nat): seq<bool> {
    seq(n, _ => false)
  }

  lemma {:induction false} DivideAppend(r: Word, bits: seq<bool>, more: seq<bool>)
    ensures Divide(r, bits + more) == Divide(Divide(r, bits), more)
    decreases |bits|
  {
    hide Times, Xor;
    if bits == [] {
      assert bits + more == more;
    } else {
      assert (bits + more)[1..] == bits[1..] + more;
      DivideAppend(Xor(Times(r), if bits[0] then 1 else 0), bits[1..], more);
    }
  }

  /** Dividing with remainder r in hand: what r contributes is shifted, what the bits contribute is added. */
  lemma {:induction false} DivideLinear(r: Word, q: Word, bits: seq<bool>)
    ensures Divide(Xor(r, q), bits) == Xor(TimesN(r, |bits|), Divide(q, bits))
    decreases |bits|
  {
    hide Times, Xor;
    if bits != [] {
      var b: Word := if bits[0] then 1 else 0;
      TimesLinear(r, q);
      XorLaws(Times(r), Times(q), b);
      DivideLinear(Times(r), Xor(Times(q), b), bits[1..]);
    }
  }

  lemma {:induction false} DivideZeros(r: Word, n: nat)
    ensures Divide(r, Zeros(n)) == TimesN(r, n)
    decreases n
  {
    hide Times, Xor;
    if n > 0 {
      assert Zeros(n)[1..] == Zeros(n - 1);
      XorLaws(Times(r), 0, 0);
      DivideZeros(Times(r), n - 1);
    }
  }

  /** Bringing down one more bit while nothing falls out. */
  function Bring(r: Word, bit: bool): Word {
    Xor(Up(r), if bit then 1 else 0)
  }

  lemma {:induction false} ByteBrought(b: Byte)
    ensures var s := ByteBits(b);
            var r3 := Bring(Bring(Bring(0, s[0]), s[1]), s[2]);
            var r6 := Bring(Bring(Bring(r3, s[3]), s[4]), s[5]);
            && Bring(Bring(r6, s[6]), s[7]) == b as Word
            && TopClear(0) && TopClear(Bring(0, s[0])) && TopClear(Bring(Bring(0, s[0]), s[1])) && TopClear(r3)
            && TopClear(Bring(r3, s[3])) && TopClear(Bring(Bring(r3, s[3]), s[4])) && TopClear(r6)
            && TopClear(Bring(r6, s[6]))
  {}

  lemma {:induction false} BringOne(r: Word, bits: seq<bool>)
    requires bits != [] && TopClear(r)
    ensures Divide(r, bits) == Divide(Bring(r, bits[0]), bits[1..])
  {
    TimesUp(r);
    hide Times, Xor, Up, TopClear;
  }

  /** Eight bits brought down onto an empty remainder are the byte itself. */
  lemma {:induction false} DivideByte(b: Byte)
    ensures Divide(0, ByteBits(b)) == b as Word
  {
    var s := ByteBits(b);
    ByteBrought(b);
    hide Bring, TopClear, ByteBits, Divide;
    EightOf(b);
    EightBits(s);
    var r1 := Bring(0, s[0]);
    var r2 := Bring(r1, s[1]);
    var r3 := Bring(r2, s[2]);
    var r4 := Bring(r3, s[3]);
    var r5 := Bring(r4, s[4]);
    var r6 := Bring(r5, s[5]);
    var r7 := Bring(r6, s[6]);
    BringOne(0, s);
    BringOne(r1, s[1..]);
    BringOne(r2, s[2..]);
    BringOne(r3, s[3..]);
    BringOne(r4, s[4..]);
    BringOne(r5, s[5..]);
    BringOne(r6, s[6..]);
    BringOne(r7, s[7..]);
    DivideNone(Bring(r7, s[7]));
  }

  lemma {:induction false} EightBits(s: seq<bool>)
    requires |s| == 8
    ensures s[1..][1..] == s[2..] && s[2..][1..] == s[3..] && s[3..][1..] == s[4..] && s[4..][1..] == s[5..]
    ensures s[5..][1..] == s[6..] && s[6..][1..] == s[7..] && s[7..][1..] == []
  {}

  lemma {:induction false} DivideNone(r: Word)
    ensures Divide(r, []) == r
  {}

  lemma {:induction false} WordBytes(b: Byte)
    ensures Low(b as Word) == b as Word && Low(Up8(b as Word)) == Up8(b as Word)
    ensures Low(Up8(Up8(b as Word))) == Up8(Up8(b as Word)) && Up8(Up8(Up8(b as Word))) == Top(b)
  {}

  lemma {:induction false} TopIsUp24(b: Byte)
    ensures TimesN(b as Word, 24) == Top(b)
  {
    WordBytes(b);
    hide TimesN, Up8, Low, Top;
    var w := b as Word;
    ByteUp(w);
    ByteUp(Up8(w));
    ByteUp(Up8(Up8(w)));
    TimesNSum(w, 8, 8);
    TimesNSum(w, 16, 8);
  }

  /** A byte through the register is eight steps of the division, 32 places up. */
  lemma {:induction false} StepDivides(r: Word, b: Byte)
    ensures Step(TimesN(r, 32), b) == TimesN(Divide(r, ByteBits(b)), 32)
  {
    hide TimesN, Divide, Top, Xor, ByteBits;
    var c, w, s := TimesN(r, 32), b as Word, ByteBits(b);
    EightOf(b);
    TimesNLinear(c, Top(b), 8);
    TimesNSum(r, 32, 8);
    DivideLinear(r, 0, s);
    XorLaws(r, 0, 0);
    DivideByte(b);
    TimesNLinear(TimesN(r, 8), w, 32);
    TimesNSum(r, 8, 32);
    TimesNSum(w, 24, 8);
    TopIsUp24(b);
  }

  lemma {:induction false} EightOf(b: Byte)
    ensures |ByteBits(b)| == 8
  {}

  lemma {:induction false} RegisterDivides(r: Word, data: seq<Byte>)
    ensures Register(TimesN(r, 32), data) == TimesN(Divide(r, Bits(data)), 32)
    decreases |data|
  {
    hide TimesN, Divide, Step, ByteBits;
    if data == [] {
      DivideNone(r);
    } else {
      StepDivides(r, data[0]);
      RegisterDivides(Divide(r, ByteBits(data[0])), data[1..]);
      DivideAppend(r, ByteBits(data[0]), Bits(data[1..]));
    }
  }

  /** The checksum of a message is the remainder of message * x^32 on division by the generator. */
  lemma {:induction false} CrcIsRemainder(data: seq<Byte>)
    ensures Crc(data) == Divide(0, Bits(data) + Zeros(32))
  {
    hide TimesN, Divide, Step, Zeros, Bits;
    TimesNZero(0, 32);
    RegisterDivides(0, data);
    DivideAppend(0, Bits(data), Zeros(32));
    DivideZeros(Divide(0, Bits(data)), 32);
  }

  /** One step of it: twice the remainder, less the generator x^32 + x^26 + x^23 + ... + x + 1 if that has x^32. */
  lemma {:induction false} TimesIs(c: Word)
    ensures c < 0x8000_0000 ==> Times(c) == Twice(c)
    ensures c >= 0x8000_0000 ==> Times(c) == Xor(Twice(c), 0x04c1_1db7)
  {
    TopBitIs(c);
    XorLaws(Twice(c), 0, 0);
    hide Xor;
  }

  function Twice(c: Word): Word {
    c + c
  }

  lemma {:induction false} TopBitIs(c: Word)
    ensures c & 0x8000_0000 == 0 <==> c < 0x8000_0000
    ensures c << 1 == c + c
  {}

  /** So the message 1 leaves the generator without its first term. */
  lemma {:induction false} OneLeavesGenerator()
    ensures Crc([1]) == 0x04c1_1db7
  {
    var c := Xor(0, Top(1));
    assert c == 1 << 24 && [1][1..] == [];
    var c4 := Times(Times(Times(Times(c))));
    assert TimesN(c, 8) == TimesN(c4, 4) by {
      assert TimesN(c, 8) == TimesN(Times(Times(c)), 6) == TimesN(c4, 4);
    }
    var c7 := Times(Times(Times(c4)));
    assert TimesN(c4, 4) == TimesN(Times(Times(c4)), 2) == TimesN(c7, 1) == Times(c7);
    assert c7 == 0x8000_0000;
  }

  // ---- What the checksum can tell apart ----

  function XorBytes(a: seq<Byte>, b: seq<Byte>): (r: seq<Byte>)
    requires |a| == |b|
    ensures |r| == |a|
  {
    if a == [] then [] else [ByteXor(a[0], b[0])] + XorBytes(a[1..], b[1..])
  }

  lemma {:induction false} RegisterLinear(c: Word, a: seq<Byte>, d: Word, b: seq<Byte>)
    requires |a| == |b|
    ensures Register(Xor(c, d), XorBytes(a, b)) == Xor(Register(c, a), Register(d, b))
    decreases |a|
  {
    hide TimesN, Top, Xor, ByteXor;
    if a != [] {
      var x, y := Xor(c, Top(a[0])), Xor(d, Top(b[0]));
      TopLinear(a[0], b[0]);
      XorPairs(c, d, Top(a[0]), Top(b[0]));
      TimesNLinear(x, y, 8);
      RegisterLinear(TimesN(x, 8), a[1..], TimesN(y, 8), b[1..]);
      assert XorBytes(a, b)[1..] == XorBytes(a[1..], b[1..]);
    }
  }

  /** On messages of one length the checksum is linear. */
  lemma {:induction false} CrcLinear(a: seq<Byte>, b: seq<Byte>)
    requires |a| == |b|
    ensures Crc(XorBytes(a, b)) == Xor(Crc(a), Crc(b))
  {
    hide Register, XorBytes, Xor;
    XorLaws(0, 0, 0);
    RegisterLinear(0, a, 0, b);
  }

  lemma {:induction false} RegisterInjective(c: Word, d: Word, data: seq<Byte>)
    requires Register(c, data) == Register(d, data)
    ensures c == d
    decreases |data|
  {
    hide TimesN, Top, Xor;
    if data != [] {
      RegisterInjective(Step(c, data[0]), Step(d, data[0]), data[1..]);
      TimesNInjective(Xor(c, Top(data[0])), Xor(d, Top(data[0])), 8);
      XorLaws(c, Top(data[0]), 0);
      XorLaws(d, Top(data[0]), 0);
      XorCancel(c, d, Top(data[0]));
    }
  }

  /** One more byte at the bottom. */
  function Join(r: Word, b: Byte): Word {
    Xor(Up8(r), b as Word)
  }

  /** Four bytes, the first at the top. */
  function BigEndian(a: Byte, b: Byte, c: Byte, d: Byte): Word {
    Join(Join(Join(a as Word, b), c), d)
  }

  predicate Fits8(r: Word) {
    r & 0xff == r
  }

  predicate Fits16(r: Word) {
    r & 0xffff == r
  }

  lemma {:induction false} ByteFits(b: Byte)
    ensures Fits8(b as Word)
  {}

  lemma {:induction false} JoinFits8(r: Word, b: Byte)
    requires Fits8(r)
    ensures Fits16(Join(r, b)) && Low(r) == r
  {}

  lemma {:induction false} JoinFits16(r: Word, b: Byte)
    requires Fits16(r)
    ensures Low(Join(r, b)) == Join(r, b) && Low(r) == r
  {
    Up16(r);
    WordBytes(b);
    LowXor(Up8(r), b as Word);
    hide Low, Up8, Xor, Fits16;
  }

  lemma {:induction false} Up16(r: Word)
    requires Fits16(r)
    ensures Low(r) == r && Low(Up8(r)) == Up8(r)
  {}

  lemma {:induction false} LowXor(x: Word, y: Word)
    ensures Low(Xor(x, y)) == Xor(Low(x), Low(y))
  {}

  lemma {:induction false} JoinZero(r: Word, b: Byte)
    requires Low(r) == r && Join(r, b) == 0
    ensures r == 0 && b == 0
  {}

  lemma {:induction false} ByteZero(b: Byte)
    requires b as Word == 0
    ensures b == 0
  {}

  lemma {:induction false} FourFit(a: Byte, b: Byte, c: Byte)
    ensures var x, y := Join(a as Word, b), Join(Join(a as Word, b), c);
            Low(a as Word) == a as Word && Low(x) == x && Low(y) == y
  {
    hide Join, Fits8, Fits16, Low;
    ByteFits(a);
    JoinFits8(a as Word, b);
    JoinFits16(Join(a as Word, b), c);
  }

  lemma {:induction false} FourZero(a: Byte, b: Byte, c: Byte, d: Byte)
    requires BigEndian(a, b, c, d) == 0
    ensures a == 0 && b == 0 && c == 0 && d == 0
  {
    hide Join, Low;
    FourFit(a, b, c);
    JoinZero(Join(Join(a as Word, b), c), d);
    JoinZero(Join(a as Word, b), c);
    JoinZero(a as Word, b);
    ByteZero(a);
  }

  lemma {:induction false} NextByte(r: Word, b: Byte)
    requires Low(r) == r
    ensures Divide(r, ByteBits(b)) == Join(r, b)
  {
    hide TimesN, Divide, Xor, Up8, Low, ByteBits;
    EightOf(b);
    DivideLinear(r, 0, ByteBits(b));
    XorLaws(r, 0, 0);
    ByteUp(r);
    DivideByte(b);
  }

  lemma {:induction false} DivideMore(r: Word, u: seq<Byte>)
    requires u != [] && Low(r) == r
    ensures Divide(r, Bits(u)) == Divide(Join(r, u[0]), Bits(u[1..]))
  {
    hide Divide, Join, Low, ByteBits;
    NextByte(r, u[0]);
    DivideAppend(r, ByteBits(u[0]), Bits(u[1..]));
  }

  lemma {:induction false} DivideFour(a: Byte, b: Byte, c: Byte, d: Byte)
    ensures Divide(0, Bits([a, b, c, d])) == BigEndian(a, b, c, d)
  {
    FourFit(a, b, c);
    JoinNothing(a);
    hide Divide, Join, Low, Bits;
    assert [a, b, c, d][1..] == [b, c, d] && [b, c, d][1..] == [c, d] && [c, d][1..] == [d] && [d][1..] == [];
    DivideMore(0, [a, b, c, d]);
    DivideMore(a as Word, [b, c, d]);
    DivideMore(Join(a as Word, b), [c, d]);
    DivideMore(Join(Join(a as Word, b), c), [d]);
    DivideNothing(BigEndian(a, b, c, d));
  }

  lemma {:induction false} JoinNothing(b: Byte)
    ensures Join(0, b) == b as Word && Low(0) == 0
  {}

  lemma {:induction false} DivideNothing(r: Word)
    ensures Divide(r, Bits([])) == r
  {}

  /** Up to four bytes leave the register at zero only if they are all zero. */
  lemma {:induction false} FourDetected(u: seq<Byte>)
    requires |u| <= 4 && Register(0, u) == 0
    ensures forall i | 0 <= i < |u| :: u[i] == 0
    decreases 4 - |u|
  {
    hide TimesN, Divide, Xor, Up8, BigEndian;
    if |u| == 4 {
      TimesNZero(0, 32);
      RegisterDivides(0, u);
      TimesNZero(Divide(0, Bits(u)), 32);
      assert u == [u[0], u[1], u[2], u[3]];
      DivideFour(u[0], u[1], u[2], u[3]);
      FourZero(u[0], u[1], u[2], u[3]);
    } else {
      var v := [0 as Byte] + u;
      assert v[1..] == u;
      StepZero();
      FourDetected(v);
      forall i | 0 <= i < |u| ensures u[i] == 0 { assert v[i + 1] == 0; }
    }
  }

  lemma {:induction false} StepZero()
    ensures Step(0, 0) == 0
  {
    TopZero();
    TimesNZero(0, 8);
    hide TimesN;
  }

  lemma {:induction false} TopZero()
    ensures Xor(0, Top(0)) == 0
  {}

  lemma {:induction false} XorBytesZero(a: seq<Byte>, b: seq<Byte>)
    requires |a| == |b| && forall i | 0 <= i < |a| :: XorBytes(a, b)[i] == 0
    ensures a == b
    decreases |a|
  {
    if a != [] {
      var x := XorBytes(a, b);
      assert x[0] == 0;
      ByteXorZero(a[0], b[0]);
      forall i | 0 <= i < |a| - 1 ensures XorBytes(a[1..], b[1..])[i] == 0 { assert x[i + 1] == 0; }
      XorBytesZero(a[1..], b[1..]);
      assert a == [a[0]] + a[1..] && b == [b[0]] + b[1..];
    }
  }

  lemma {:induction false} ByteXorZero(a: Byte, b: Byte)
    requires ByteXor(a, b) == 0
    ensures a == b
  {}

  /** Damage confined to four consecutive bytes always changes the checksum. */
  lemma {:induction false} DamageDetected(before: seq<Byte>, w: seq<Byte>, v: seq<Byte>, after: seq<Byte>)
    requires |w| == |v| <= 4 && w != v
    ensures Crc(before + w + after) != Crc(before + v + after)
  {
    hide Step, XorBytes, Xor;
    if Crc(before + w + after) == Crc(before + v + after) {
      var c := Register(0, before);
      RegisterAppend(0, before + w, after);
      RegisterAppend(0, before, w);
      RegisterAppend(0, before + v, after);
      RegisterAppend(0, before, v);
      RegisterInjective(Register(c, w), Register(c, v), after);
      RegisterLinear(c, w, c, v);
      XorLaws(c, c, 0);
      XorLaws(Register(c, w), Register(c, v), 0);
      FourDetected(XorBytes(w, v));
      XorBytesZero(w, v);
    }
  }
}

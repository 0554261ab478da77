/** The hash of one key, worked out: a check of every constant and shift of the function. */
module KnownHash {
  import opened Bits
  import opened Murmur2

  // ------------------------------------------------------------ exclusive or, digit by digit

  lemma LastBit(p: nat, q: nat, x: nat, y: nat)
    requires x < 2 && y < 2
    ensures Xor(2 * p + x, 2 * q + y) == 2 * Xor(p, q) + BitXor(x, y)
  {
    XorBits(2 * p + x, 2 * q + y);
    hide Xor;
    assert (2 * p + x) / 2 == p && (2 * q + y) / 2 == q;
  }

  lemma NoBits()
    ensures Xor(0, 0) == 0
  {
  }

  lemma LastTwoBits(p: nat, q: nat, x1: nat, x0: nat, y1: nat, y0: nat)
    requires x1 < 2 && x0 < 2 && y1 < 2 && y0 < 2
    ensures Xor(4 * p + 2 * x1 + x0, 4 * q + 2 * y1 + y0) == 4 * Xor(p, q) + 2 * BitXor(x1, y1) + BitXor(x0, y0)
  {
    hide Xor, BitXor;
    LastBit(p, q, x1, y1);
    LastBit(2 * p + x1, 2 * q + y1, x0, y0);
    assert 4 * p + 2 * x1 + x0 == 2 * (2 * p + x1) + x0 && 4 * q + 2 * y1 + y0 == 2 * (2 * q + y1) + y0;
  }

  /** Exclusive or of two hexadecimal digits, bit by bit. */
  function DigitXor(x: nat, y: nat): nat
    requires x < 16 && y < 16
  {
    8 * BitXor(x / 8, y / 8) + 4 * BitXor(x / 4 % 2, y / 4 % 2)
    + 2 * BitXor(x / 2 % 2, y / 2 % 2) + BitXor(x % 2, y % 2)
  }

  lemma LastDigit(p: nat, q: nat, x: nat, y: nat)
    requires x < 16 && y < 16
    ensures Xor(16 * p + x, 16 * q + y) == 16 * Xor(p, q) + DigitXor(x, y)
  {
    hide Xor, BitXor;
    BitsOfDigit(x);
    BitsOfDigit(y);
    var p', q' := 4 * p + 2 * (x / 8) + x / 4 % 2, 4 * q + 2 * (y / 8) + y / 4 % 2;
    LastTwoBits(p, q, x / 8, x / 4 % 2, y / 8, y / 4 % 2);
    LastTwoBits(p', q', x / 2 % 2, x % 2, y / 2 % 2, y % 2);
    assert 16 * p + x == 4 * p' + 2 * (x / 2 % 2) + x % 2 && 16 * q + y == 4 * q' + 2 * (y / 2 % 2) + y % 2;
  }

  lemma BitsOfDigit(x: nat)
    requires x < 16
    ensures x == 8 * (x / 8) + 4 * (x / 4 % 2) + 2 * (x / 2 % 2) + x % 2 && x / 8 < 2
  {
  }

  /** The number with these hexadecimal digits. */
  function FromHex(digits: seq<nat>): nat {
    if digits == [] then 0 else 16 * FromHex(digits[..|digits| - 1]) + digits[|digits| - 1]
  }

  lemma {:induction false} XorOfDigits(a: seq<nat>, b: seq<nat>, c: seq<nat>)
    requires |a| == |b| == |c|
    requires forall i | 0 <= i < |a| :: a[i] < 16 && b[i] < 16 && DigitXor(a[i], b[i]) == c[i]
    ensures Xor(FromHex(a), FromHex(b)) == FromHex(c)
  {
    NoBits();
    hide Xor, DigitXor;
    if a != [] {
      var n := |a| - 1;
      XorOfDigits(a[..n], b[..n], c[..n]);
      LastDigit(FromHex(a[..n]), FromHex(b[..n]), a[n], b[n]);
    }
  }

  function Digits(d: seq<nat>): nat
    requires |d| == 8
  {
    0x1000_0000 * d[0] + 0x100_0000 * d[1] + 0x10_0000 * d[2] + 0x1_0000 * d[3] + 0x1000 * d[4] + 0x100 * d[5]
    + 0x10 * d[6] + d[7]
  }

  lemma EightDigits(d: seq<nat>)
    requires |d| == 8
    ensures FromHex(d) == Digits(d)
  {
    assert d[..7][..6] == d[..6] && d[..6][..5] == d[..5] && d[..5][..4] == d[..4] && d[..4][..3] == d[..3];
    assert d[..3][..2] == d[..2] && d[..2][..1] == d[..1] && d[..1][..0] == [];
    assert FromHex(d[..0]) == 0;
    assert FromHex(d[..1]) == d[0];
    assert FromHex(d[..2]) == 16 * d[0] + d[1];
    assert FromHex(d[..3]) == 16 * FromHex(d[..2]) + d[2];
    assert FromHex(d[..4]) == 16 * FromHex(d[..3]) + d[3];
    assert FromHex(d[..5]) == 16 * FromHex(d[..4]) + d[4];
    assert FromHex(d[..6]) == 16 * FromHex(d[..5]) + d[5];
    assert FromHex(d[..7]) == 16 * FromHex(d[..6]) + d[6];
  }

  /** Exclusive or of two words of eight digits. */
  lemma XorOfWords(a: seq<nat>, b: seq<nat>, c: seq<nat>)
    requires |a| == |b| == |c| == 8
    requires a[0] < 16 && b[0] < 16 && DigitXor(a[0], b[0]) == c[0]
    requires a[1] < 16 && b[1] < 16 && DigitXor(a[1], b[1]) == c[1]
    requires a[2] < 16 && b[2] < 16 && DigitXor(a[2], b[2]) == c[2]
    requires a[3] < 16 && b[3] < 16 && DigitXor(a[3], b[3]) == c[3]
    requires a[4] < 16 && b[4] < 16 && DigitXor(a[4], b[4]) == c[4]
    requires a[5] < 16 && b[5] < 16 && DigitXor(a[5], b[5]) == c[5]
    requires a[6] < 16 && b[6] < 16 && DigitXor(a[6], b[6]) == c[6]
    requires a[7] < 16 && b[7] < 16 && DigitXor(a[7], b[7]) == c[7]
    ensures Xor(Digits(a), Digits(b)) == Digits(c)
  {
    hide Xor, DigitXor, FromHex;
    forall i | 0 <= i < 8 ensures a[i] < 16 && b[i] < 16 && DigitXor(a[i], b[i]) == c[i] {}
    EightDigits(a);
    EightDigits(b);
    EightDigits(c);
    XorOfDigits(a, b, c);
  }

  lemma WithZero(x: nat)
    requires x < 16
    ensures DigitXor(x, 0) == x
  {
    BitsOfDigit(x);
  }

  lemma DigitBits(x: nat, y: nat, x3: nat, x2: nat, x1: nat, x0: nat, y3: nat, y2: nat, y1: nat, y0: nat)
    requires x3 < 2 && x2 < 2 && x1 < 2 && x0 < 2 && x == 8 * x3 + 4 * x2 + 2 * x1 + x0
    requires y3 < 2 && y2 < 2 && y1 < 2 && y0 < 2 && y == 8 * y3 + 4 * y2 + 2 * y1 + y0
    ensures DigitXor(x, y) == 8 * BitXor(x3, y3) + 4 * BitXor(x2, y2) + 2 * BitXor(x1, y1) + BitXor(x0, y0)
  {
    hide BitXor;
    BitsAre(x, x3, x2, x1, x0);
    BitsAre(y, y3, y2, y1, y0);
  }

  lemma BitsAre(x: nat, x3: nat, x2: nat, x1: nat, x0: nat)
    requires x3 < 2 && x2 < 2 && x1 < 2 && x0 < 2 && x == 8 * x3 + 4 * x2 + 2 * x1 + x0
    ensures x / 8 == x3 && x / 4 % 2 == x2 && x / 2 % 2 == x1 && x % 2 == x0
  {
    assert x / 2 == 4 * x3 + 2 * x2 + x1 && x / 4 == 2 * x3 + x2;
  }

  lemma SeedAndLength()
    ensures Xor(0x9747_B28C, 0x6) == 0x9747_B28A
  {
    hide Xor, DigitXor;
    DigitBits(12, 6, 1, 1, 0, 0, 0, 1, 1, 0);
    WithZero(2);
    WithZero(4);
    WithZero(7);
    WithZero(8);
    WithZero(9);
    WithZero(11);
    XorOfWords([9, 7, 4, 7, 11, 2, 8, 12], [0, 0, 0, 0, 0, 0, 0, 6],
               [9, 7, 4, 7, 11, 2, 8, 10]);
  }

  lemma MixedWord()
    ensures Xor(0xEB85_AC5E, 0xEB) == 0xEB85_ACB5
  {
    hide Xor, DigitXor;
    DigitBits(5, 14, 0, 1, 0, 1, 1, 1, 1, 0);
    DigitBits(14, 11, 1, 1, 1, 0, 1, 0, 1, 1);
    WithZero(5);
    WithZero(8);
    WithZero(10);
    WithZero(11);
    WithZero(12);
    WithZero(14);
    XorOfWords([14, 11, 8, 5, 10, 12, 5, 14], [0, 0, 0, 0, 0, 0, 14, 11],
               [14, 11, 8, 5, 10, 12, 11, 5]);
  }

  lemma AbsorbedWord()
    ensures Xor(0x1EE4_8452, 0x15C3_4259) == 0xB27_C60B
  {
    hide Xor, DigitXor;
    DigitBits(1, 1, 0, 0, 0, 1, 0, 0, 0, 1);
    DigitBits(14, 5, 1, 1, 1, 0, 0, 1, 0, 1);
    DigitBits(14, 12, 1, 1, 1, 0, 1, 1, 0, 0);
    DigitBits(4, 3, 0, 1, 0, 0, 0, 0, 1, 1);
    DigitBits(8, 4, 1, 0, 0, 0, 0, 1, 0, 0);
    DigitBits(4, 2, 0, 1, 0, 0, 0, 0, 1, 0);
    DigitBits(5, 5, 0, 1, 0, 1, 0, 1, 0, 1);
    DigitBits(2, 9, 0, 0, 1, 0, 1, 0, 0, 1);
    XorOfWords([1, 14, 14, 4, 8, 4, 5, 2], [1, 5, 12, 3, 4, 2, 5, 9],
               [0, 11, 2, 7, 12, 6, 0, 11]);
  }

  lemma WithTheTail()
    ensures Xor(0xB27_C60B, 0x7261) == 0xB27_B46A
  {
    hide Xor, DigitXor;
    DigitBits(12, 7, 1, 1, 0, 0, 0, 1, 1, 1);
    DigitBits(6, 2, 0, 1, 1, 0, 0, 0, 1, 0);
    DigitBits(0, 6, 0, 0, 0, 0, 0, 1, 1, 0);
    DigitBits(11, 1, 1, 0, 1, 1, 0, 0, 0, 1);
    WithZero(0);
    WithZero(2);
    WithZero(7);
    WithZero(11);
    XorOfWords([0, 11, 2, 7, 12, 6, 0, 11], [0, 0, 0, 0, 7, 2, 6, 1],
               [0, 11, 2, 7, 11, 4, 6, 10]);
  }

  lemma FirstFold()
    ensures Xor(0x99DA_7BB2, 0x4_CED3) == 0x99DE_B561
  {
    hide Xor, DigitXor;
    DigitBits(10, 4, 1, 0, 1, 0, 0, 1, 0, 0);
    DigitBits(7, 12, 0, 1, 1, 1, 1, 1, 0, 0);
    DigitBits(11, 14, 1, 0, 1, 1, 1, 1, 1, 0);
    DigitBits(11, 13, 1, 0, 1, 1, 1, 1, 0, 1);
    DigitBits(2, 3, 0, 0, 1, 0, 0, 0, 1, 1);
    WithZero(9);
    WithZero(13);
    XorOfWords([9, 9, 13, 10, 7, 11, 11, 2], [0, 0, 0, 4, 12, 14, 13, 3],
               [9, 9, 13, 14, 11, 5, 6, 1]);
  }

  lemma LastFold()
    ensures Xor(0xD0E5_DA75, 0x1_A1CB) == 0xD0E4_7BBE
  {
    hide Xor, DigitXor;
    DigitBits(5, 1, 0, 1, 0, 1, 0, 0, 0, 1);
    DigitBits(13, 10, 1, 1, 0, 1, 1, 0, 1, 0);
    DigitBits(10, 1, 1, 0, 1, 0, 0, 0, 0, 1);
    DigitBits(7, 12, 0, 1, 1, 1, 1, 1, 0, 0);
    DigitBits(5, 11, 0, 1, 0, 1, 1, 0, 1, 1);
    WithZero(0);
    WithZero(13);
    WithZero(14);
    XorOfWords([13, 0, 14, 5, 13, 10, 7, 5], [0, 0, 0, 1, 10, 1, 12, 11],
               [13, 0, 14, 4, 7, 11, 11, 14]);
  }

  lemma {:induction false} ShiftDivides(x: nat, r: nat)
    ensures ShiftRight(x, r) == x / Pow2(r)
  {
    if r > 0 {
      ShiftDivides(x / 2, r - 1);
      HalfFirst(x, Pow2(r - 1));
    }
  }

  lemma HalfFirst(x: nat, n: nat)
    requires n > 0
    ensures x / 2 / n == x / (2 * n)
  {
    var q, r := x / (2 * n), x % (2 * n);
    assert x == 2 * (q * n) + r;
    assert x / 2 == q * n + r / 2 && r / 2 < n;
    QuotientIs(x / 2, n, q, r / 2);
  }

  lemma QuotientIs(a: nat, n: nat, q: nat, r: nat)
    requires a == q * n + r && r < n
    ensures a / n == q
  {
    RemainderIs(a, n, q, r);
    var d := a / n - q;
    assert d * n == 0;
    Multiples(d, n);
  }

  lemma FoldIs(x: Word, r: nat, shifted: nat, c: Word)
    requires shifted == x / Pow2(r) && Xor(x, shifted) == c
    ensures Fold(x, r) == c
  {
    ShiftDivides(x, r);
  }

  lemma WordTimes()
    ensures Times(0x626F_6F66) == 0xEB85_AC5E && Times(0xEB85_ACB5) == 0x15C3_4259
  {
  }

  lemma TopByte(x: Word)
    ensures x / Pow2(24) == x / 0x100_0000
  {
    PowersOfTwo();
    hide Pow2;
  }

  lemma WordMixes()
    ensures Mix(0x626F_6F66) == 0x15C3_4259
  {
    hide Xor, Pow2, Fold, ShiftRight, Times;
    WordTimes();
    MixedWord();
    TopByte(0xEB85_AC5E);
    FoldIs(0xEB85_AC5E, 24, 0xEB, 0xEB85_ACB5);
  }

  lemma Finishes()
    ensures Finish(0x99DA_7BB2) == 0xD0E4_7BBE
  {
    hide Xor, Pow2, Fold, ShiftRight;
    ShiftsUsed();
    FirstFold();
    LastFold();
    FoldIs(0x99DA_7BB2, 13, 0x4_CED3, 0x99DE_B561);
    FoldIs(0xD0E5_DA75, 15, 0x1_A1CB, 0xD0E4_7BBE);
  }

  lemma ShiftsUsed()
    ensures Pow2(13) == 0x2000 && Pow2(15) == 0x8000
  {
    assert Pow2(5) == 32 && Pow2(9) == 512;
  }

  /** Kafka's hash of the six bytes of "foobar". */
  lemma FoobarHashes()
    ensures Hash([102, 111, 111, 98, 97, 114]) == 0xD0E4_7BBE
  {
    hide Xor, Pow2, Mix, Finish;
    var data: seq<Byte> := [102, 111, 111, 98, 97, 114];
    SeedAndLength();
    assert State(data, 0) == 0x9747_B28A;
    assert WordAt(data, 0) == 0x626F_6F66;
    WordMixes();
    AbsorbedWord();
    assert State(data, 1) == 0x0B27_C60B;
    assert data[4..] == [97, 114] && TailWord(data[4..]) == 0x7261;
    WithTheTail();
    assert WithTail(0x0B27_C60B, data[4..]) == 0x99DA_7BB2;
    Finishes();
  }
}

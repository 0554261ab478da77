/**
 Kafka's murmur2 as the skew harness ports it: Python integers of any size with
 a mask after every product. `Hash` is the function on 32-bit words, where a
 product is taken modulo two to the 32.
 */
module Murmur2 {
  import opened Bits

  const TWO_32 := 0x1_0000_0000
  const MASK := 0xFFFF_FFFF
  const M := 0x5BD1E995
  const M_INVERSE := 0xE59B19BD
  const SEED := 0x9747B28C

  type Word = x: nat | x < TWO_32

  type Byte = x: nat | x < 256

  lemma PowersOfTwo()
    ensures Pow2(8) == 0x100 && Pow2(16) == 0x1_0000 && Pow2(24) == 0x100_0000 && Pow2(31) == 0x8000_0000
    ensures Pow2(32) == TWO_32
  {
    assert Pow2(4) == 16 && Pow2(8) == 0x100;
    assert Pow2(12) == 0x1000 && Pow2(16) == 0x1_0000;
    assert Pow2(20) == 0x10_0000 && Pow2(24) == 0x100_0000;
    assert Pow2(28) == 0x1000_0000 && Pow2(31) == 0x8000_0000 && Pow2(32) == TWO_32;
  }

  lemma Shifted(x: nat)
    ensures ShiftLeft(x, 8) == 0x100 * x && ShiftLeft(x, 16) == 0x1_0000 * x && ShiftLeft(x, 24) == 0x100_0000 * x
  {
    PowersOfTwo();
    hide Pow2;
  }

  // ------------------------------------------------------------ words

  function Times(x: Word): Word { x * M % TWO_32 }

  function XorWord(x: Word, y: Word): Word {
    PowersOfTwo();
    XorBound(x, y, 32);
    Xor(x, y)
  }

  function Fold(x: Word, r: nat): Word {
    ShiftRightShrinks(x, r);
    XorWord(x, ShiftRight(x, r))
  }

  function Mix(k: Word): Word { Times(Fold(Times(k), 24)) }

  function Absorb(h: Word, k: Word): Word { XorWord(Times(h), Mix(k)) }

  /** Up to four bytes as a number, the lowest first. */
  function Pack(a: Byte, b: Byte, c: Byte, d: Byte): Word { a + 0x100 * b + 0x1_0000 * c + 0x100_0000 * d }

  function WordAt(data: seq<Byte>, i: nat): Word
    requires 4 * i + 4 <= |data|
  {
    Pack(data[4 * i], data[4 * i + 1], data[4 * i + 2], data[4 * i + 3])
  }

  /** The state after the first `n` words. */
  function State(data: seq<Byte>, n: nat): Word
    requires 4 * n <= |data|
  {
    if n == 0 then XorWord(SEED, |data| % TWO_32) else Absorb(State(data, n - 1), WordAt(data, n - 1))
  }

  function TailWord(tail: seq<Byte>): Word
    requires |tail| < 4
  {
    Pack(if |tail| > 0 then tail[0] else 0, if |tail| > 1 then tail[1] else 0, if |tail| > 2 then tail[2] else 0, 0)
  }

  function WithTail(h: Word, tail: seq<Byte>): Word
    requires |tail| < 4
  {
    if tail == [] then h else Times(XorWord(h, TailWord(tail)))
  }

  function Finish(h: Word): Word { Fold(Times(Fold(h, 13)), 15) }

  function Hash(data: seq<Byte>): Word {
    var n := |data| / 4;
    Finish(WithTail(State(data, n), data[4 * n..]))
  }

  // ------------------------------------------------------------ the port

  lemma Masked(x: nat)
    ensures And(x, MASK) == x % TWO_32
  {
    PowersOfTwo();
    hide And, Pow2;
    AndMask(x, 32);
  }

  lemma ByteMasked(b: Byte)
    ensures And(b, 0xFF) == b
  {
    PowersOfTwo();
    hide And, Pow2;
    AndMask(b, 8);
  }

  lemma BytesJoined(a: Byte, b: Byte, c: Byte, d: Byte)
    ensures Or(Or(Or(a, ShiftLeft(b, 8)), ShiftLeft(c, 16)), ShiftLeft(d, 24)) == Pack(a, b, c, d)
  {
    hide Or, Xor, Pow2, ShiftLeft;
    PowersOfTwo();
    Shifted(b);
    Shifted(c);
    Shifted(d);
    JoinFields(a, b, 8);
    var two: nat := a + 0x100 * b;
    JoinFields(two, c, 16);
    JoinFields(two + 0x1_0000 * c, d, 24);
  }

  method ReadWord(data: seq<Byte>, i4: nat) returns (k: nat)
    requires i4 + 4 <= |data|
    ensures k == Pack(data[i4], data[i4 + 1], data[i4 + 2], data[i4 + 3])
  {
    hide And, Or, ShiftLeft, Pack;
    var a, b, c, d := data[i4], data[i4 + 1], data[i4 + 2], data[i4 + 3];
    ByteMasked(a);
    ByteMasked(b);
    ByteMasked(c);
    ByteMasked(d);
    BytesJoined(a, b, c, d);
    k := Or(Or(Or(And(a, 0xFF), ShiftLeft(And(b, 0xFF), 8)), ShiftLeft(And(c, 0xFF), 16)),
            ShiftLeft(And(d, 0xFF), 24));
  }

  method MixWord(word: Word) returns (k: nat)
    ensures k == Mix(word)
  {
    k := word;
    Masked(k * M);
    k := And(k * M, MASK);
    k := Xor(k, ShiftRight(k, 24));
    Masked(k * M);
    k := And(k * M, MASK);
  }

  method AbsorbTail(start: Word, data: seq<Byte>) returns (h: nat)
    ensures h == WithTail(start, data[|data| - |data| % 4..])
  {
    h := start;
    var rem, base := |data| % 4, |data| - |data| % 4;
    ghost var tail := data[base..];
    if rem == 3 {
      ByteMasked(data[base + 2]);
      h := Xor(h, ShiftLeft(And(data[base + 2], 0xFF), 16));
    }
    if rem >= 2 {
      ByteMasked(data[base + 1]);
      h := Xor(h, ShiftLeft(And(data[base + 1], 0xFF), 8));
    }
    if rem >= 1 {
      ByteMasked(data[base]);
      h := Xor(h, And(data[base], 0xFF));
      TailJoined(start, tail);
      Masked(h * M);
      h := And(h * M, MASK);
    }
  }

  /** Mixing the tail in from its highest byte down is mixing it in at once. */
  lemma TailJoined(h: Word, tail: seq<Byte>)
    requires 0 < |tail| < 4
    ensures |tail| == 1 ==> Xor(h, tail[0]) == XorWord(h, TailWord(tail))
    ensures |tail| == 2 ==> Xor(Xor(h, ShiftLeft(tail[1], 8)), tail[0]) == XorWord(h, TailWord(tail))
    ensures |tail| == 3
        ==> Xor(Xor(Xor(h, ShiftLeft(tail[2], 16)), ShiftLeft(tail[1], 8)), tail[0]) == XorWord(h, TailWord(tail))
  {
    hide Xor, Pow2, ShiftLeft;
    if |tail| == 2 {
      XorOfTwo(h, tail[0], tail[1]);
    } else if |tail| == 3 {
      XorOfThree(h, tail[0], tail[1], tail[2]);
    }
  }

  lemma XorOfTwo(h: nat, a: Byte, b: Byte)
    ensures Xor(Xor(h, ShiftLeft(b, 8)), a) == Xor(h, a + 0x100 * b)
  {
    hide Xor, Or, Pow2, ShiftLeft;
    PowersOfTwo();
    Shifted(b);
    JoinFields(a, b, 8);
    XorCommutes(a, ShiftLeft(b, 8));
    XorAssociates(h, ShiftLeft(b, 8), a);
  }

  lemma XorOfThree(h: nat, a: Byte, b: Byte, c: Byte)
    ensures Xor(Xor(Xor(h, ShiftLeft(c, 16)), ShiftLeft(b, 8)), a) == Xor(h, a + 0x100 * b + 0x1_0000 * c)
  {
    hide Xor, Or, Pow2, ShiftLeft;
    PowersOfTwo();
    Shifted(c);
    var low: nat, high := a + 0x100 * b, ShiftLeft(c, 16);
    XorOfTwo(Xor(h, high), a, b);
    JoinFields(low, c, 16);
    XorCommutes(low, high);
    XorAssociates(h, high, low);
  }

  method Murmur2(data: seq<Byte>) returns (hash: nat)
    ensures hash == Hash(data)
  {
    hide Mix, Finish, WithTail, And, Xor, Pow2, Pack;
    var length, length4 := |data|, |data| / 4;
    Masked(Xor(SEED, length));
    StartIsMasked(length);
    var h := And(Xor(SEED, length), MASK);
    for i := 0 to length4
      invariant h == State(data, i)
    {
      var k := ReadWord(data, 4 * i);
      k := MixWord(k);
      Masked(h * M);
      h := And(h * M, MASK);
      h := Xor(h, k);
    }
    h := AbsorbTail(h, data);
    h := FinishHash(h);
    Masked(h);
    hash := And(h, MASK);
  }

  lemma StartIsMasked(length: nat)
    ensures Xor(SEED, length) % TWO_32 == XorWord(SEED, length % TWO_32)
  {
    PowersOfTwo();
    XorRemainder(SEED, length, 32);
  }

  method FinishHash(start: Word) returns (h: nat)
    ensures h == Finish(start)
  {
    h := Xor(start, ShiftRight(start, 13));
    Masked(h * M);
    h := And(h * M, MASK);
    h := Xor(h, ShiftRight(h, 15));
  }

  // ------------------------------------------------------------ every step forgets nothing

  /** The multiplier is odd, so it has an inverse. */
  lemma TimesUndone(x: Word)
    ensures Times(x) * M_INVERSE % TWO_32 == x
  {
    var q, p: nat := x * M / TWO_32, Times(x);
    assert x * M == q * TWO_32 + p;
    hide Times;
    var z := x * 0x525A_6746 - q * M_INVERSE;
    assert p * M_INVERSE == z * TWO_32 + x by { assert M * M_INVERSE == 0x525A_6746 * TWO_32 + 1; }
    assert z >= 0;
    RemainderIs(p * M_INVERSE, TWO_32, z, x);
  }

  lemma TimesIsInjective(x: Word, y: Word)
    requires Times(x) == Times(y)
    ensures x == y
  {
    hide Times;
    TimesUndone(x);
    TimesUndone(y);
  }

  lemma FoldForgetsNothing(x: Word, y: Word, r: nat)
    requires r > 0 && Fold(x, r) == Fold(y, r)
    ensures x == y
  {
    FoldIsInjective(x, y, r);
  }

  lemma MixIsInjective(x: Word, y: Word)
    requires Mix(x) == Mix(y)
    ensures x == y
  {
    hide Times, Fold;
    TimesIsInjective(Fold(Times(x), 24), Fold(Times(y), 24));
    FoldForgetsNothing(Times(x), Times(y), 24);
    TimesIsInjective(x, y);
  }

  lemma FinishIsInjective(x: Word, y: Word)
    requires Finish(x) == Finish(y)
    ensures x == y
  {
    hide Times, Fold;
    FoldForgetsNothing(Times(Fold(x, 13)), Times(Fold(y, 13)), 15);
    TimesIsInjective(Fold(x, 13), Fold(y, 13));
    FoldForgetsNothing(x, y, 13);
  }

  lemma XorWordCancels(a: Word, b: Word, c: Word, d: Word)
    requires XorWord(a, b) == XorWord(c, d)
    ensures a == c <==> b == d
  {
    XorCancels(a, b);
    XorCancels(c, d);
    XorCancels(b, a);
    XorCancels(d, c);
    XorCommutes(a, b);
    XorCommutes(c, d);
  }

  lemma AbsorbIsInjective(h: Word, k: Word, h': Word, k': Word)
    requires Absorb(h, k) == Absorb(h', k')
    ensures h == h' <==> k == k'
  {
    hide Times, Mix, XorWord;
    XorWordCancels(Times(h), Mix(k), Times(h'), Mix(k'));
    if Times(h) == Times(h') {
      TimesIsInjective(h, h');
      MixIsInjective(k, k');
    }
  }

  lemma LowByte(a: Byte, x: nat, b: Byte, y: nat)
    requires a + 0x100 * x == b + 0x100 * y
    ensures a == b && x == y
  {
  }

  lemma PackIsInjective(a: Byte, b: Byte, c: Byte, d: Byte, e: Byte, f: Byte, g: Byte, h: Byte)
    requires Pack(a, b, c, d) == Pack(e, f, g, h)
    ensures a == e && b == f && c == g && d == h
  {
    LowByte(a, b + 0x100 * c + 0x1_0000 * d, e, f + 0x100 * g + 0x1_0000 * h);
    LowByte(b, c + 0x100 * d, f, g + 0x100 * h);
    LowByte(c, d, g, h);
  }

  lemma TailWordIsInjective(t: seq<Byte>, t': seq<Byte>)
    requires |t| == |t'| < 4 && TailWord(t) == TailWord(t')
    ensures t == t'
  {
    PackIsInjective(if |t| > 0 then t[0] else 0, if |t| > 1 then t[1] else 0, if |t| > 2 then t[2] else 0, 0,
                    if |t| > 0 then t'[0] else 0, if |t| > 1 then t'[1] else 0, if |t| > 2 then t'[2] else 0, 0);
    hide Pack;
  }

  lemma WithTailIsInjective(h: Word, t: seq<Byte>, h': Word, t': seq<Byte>)
    requires |t| == |t'| < 4 && WithTail(h, t) == WithTail(h', t')
    ensures t == t' <==> h == h' || t == []
  {
    hide Times, XorWord, TailWord;
    if t != [] {
      var w, w' := TailWord(t), TailWord(t');
      TimesIsInjective(XorWord(h, w), XorWord(h', w'));
      XorWordCancels(h, w, h', w');
      if w == w' { TailWordIsInjective(t, t'); }
    }
  }

  lemma {:induction false} StateOfEqualPrefix(a: seq<Byte>, b: seq<Byte>, n: nat)
    requires |a| == |b| && 4 * n <= |a| && a[..4 * n] == b[..4 * n]
    ensures State(a, n) == State(b, n)
  {
    hide Absorb, Pack, XorWord;
    if n > 0 {
      forall i | 0 <= i < 4 * n ensures a[i] == b[i] {
        assert a[..4 * n][i] == b[..4 * n][i];
      }
      StateOfEqualPrefix(a, b, n - 1);
    }
  }

  /** Two strings of bytes that differ inside one aligned word and nowhere else. */
  predicate OneWordApart(a: seq<Byte>, b: seq<Byte>, w: nat) {
    && |a| == |b| && 4 * w + 4 <= |a| && a != b
    && a[..4 * w] == b[..4 * w] && a[4 * w + 4..] == b[4 * w + 4..]
  }

  lemma WordsApart(a: seq<Byte>, b: seq<Byte>, w: nat, i: nat)
    requires OneWordApart(a, b, w) && 4 * i + 4 <= |a|
    ensures WordAt(a, i) == WordAt(b, i) <==> i != w
  {
    var j := 4 * i;
    if i == w {
      SameOutside(a, b, j);
      hide Pack, OneWordApart;
      if WordAt(a, i) == WordAt(b, i) {
        PackIsInjective(a[j], a[j + 1], a[j + 2], a[j + 3], b[j], b[j + 1], b[j + 2], b[j + 3]);
      }
    } else {
      hide Pack, OneWordApart;
      SameByte(a, b, w, j);
      SameByte(a, b, w, j + 1);
      SameByte(a, b, w, j + 2);
      SameByte(a, b, w, j + 3);
    }
  }

  lemma SameByte(a: seq<Byte>, b: seq<Byte>, w: nat, j: nat)
    requires OneWordApart(a, b, w) && j < |a| && (j < 4 * w || 4 * w + 4 <= j)
    ensures a[j] == b[j]
  {
    var n := 4 * w;
    if j < n { assert a[..n][j] == b[..n][j]; } else { assert a[n + 4..][j - n - 4] == b[n + 4..][j - n - 4]; }
  }

  /** If only one word may differ and the strings do, some byte of that word does. */
  lemma SameOutside(a: seq<Byte>, b: seq<Byte>, n: nat)
    requires |a| == |b| && n + 4 <= |a| && a != b && a[..n] == b[..n] && a[n + 4..] == b[n + 4..]
    ensures a[n] != b[n] || a[n + 1] != b[n + 1] || a[n + 2] != b[n + 2] || a[n + 3] != b[n + 3]
  {
    var word, word' := a[n..n + 4], b[n..n + 4];
    assert a == a[..n] + word + a[n + 4..] && b == b[..n] + word' + b[n + 4..];
    assert word == [a[n], a[n + 1], a[n + 2], a[n + 3]] && word' == [b[n], b[n + 1], b[n + 2], b[n + 3]];
  }

  lemma {:induction false} StatesApart(a: seq<Byte>, b: seq<Byte>, w: nat, n: nat)
    requires OneWordApart(a, b, w) && w < n && 4 * n <= |a|
    ensures State(a, n) != State(b, n)
  {
    hide Absorb, WordAt, XorWord;
    WordsApart(a, b, w, n - 1);
    if n - 1 == w {
      StateOfEqualPrefix(a, b, w);
    } else {
      StatesApart(a, b, w, n - 1);
    }
    if State(a, n) == State(b, n) {
      AbsorbIsInjective(State(a, n - 1), WordAt(a, n - 1), State(b, n - 1), WordAt(b, n - 1));
    }
  }

  /** Keys of one length that differ only inside one aligned word never collide. */
  lemma WordChangesTheHash(a: seq<Byte>, b: seq<Byte>, w: nat)
    requires OneWordApart(a, b, w)
    ensures Hash(a) != Hash(b)
  {
    hide State, WithTail, Finish;
    var n := |a| / 4;
    StatesApart(a, b, w, n);
    assert a[4 * n..] == b[4 * n..] by {
      assert a[4 * n..] == a[4 * w + 4..][4 * n - 4 * w - 4..];
      assert b[4 * n..] == b[4 * w + 4..][4 * n - 4 * w - 4..];
    }
    if Hash(a) == Hash(b) {
      FinishIsInjective(WithTail(State(a, n), a[4 * n..]), WithTail(State(b, n), b[4 * n..]));
      TailKeepsApart(State(a, n), State(b, n), a[4 * n..]);
    }
  }

  lemma TailKeepsApart(h: Word, h': Word, t: seq<Byte>)
    requires |t| < 4 && h != h'
    ensures WithTail(h, t) != WithTail(h', t)
  {
    if t != [] && WithTail(h, t) == WithTail(h', t) { WithTailIsInjective(h, t, h', t); }
  }

  /** Nor do keys of one length that differ only after the last aligned word. */
  lemma TailChangesTheHash(a: seq<Byte>, b: seq<Byte>)
    requires |a| == |b| && a != b
    requires var n := 4 * (|a| / 4); a[..n] == b[..n]
    ensures Hash(a) != Hash(b)
  {
    hide State, WithTail, Finish;
    var n := |a| / 4;
    StateOfEqualPrefix(a, b, n);
    assert a == a[..4 * n] + a[4 * n..] && b == b[..4 * n] + b[4 * n..];
    if Hash(a) == Hash(b) {
      FinishIsInjective(WithTail(State(a, n), a[4 * n..]), WithTail(State(b, n), b[4 * n..]));
      WithTailIsInjective(State(a, n), a[4 * n..], State(b, n), b[4 * n..]);
    }
  }

  // ------------------------------------------------------------ the partitioner

  /** Python's remainder, which takes the sign of the divisor. */
  function FloorMod(a: nat, n: int): int
    requires n != 0
  {
    if n > 0 || a % n == 0 then a % n else a % n + n
  }

  function PartitionOf(key: seq<Byte>, partitions: int): (p: int)
    requires partitions != 0
    ensures partitions > 0 ==> 0 <= p < partitions
  {
    FloorMod(And(Hash(key), 0x7FFF_FFFF), partitions)
  }

  /** The sign bit is dropped and nothing else. */
  lemma PartitionIsRemainder(key: seq<Byte>, partitions: int)
    requires partitions > 0
    ensures PartitionOf(key, partitions) == Hash(key) % 0x8000_0000 % partitions
  {
    hide Hash, And, Pow2;
    PowersOfTwo();
    AndMask(Hash(key), 31);
  }

  /** Python's remainder has the sign of the divisor and leaves a whole number of divisors. */
  lemma FloorModIsRemainder(a: nat, n: int)
    requires n != 0
    ensures n > 0 ==> 0 <= FloorMod(a, n) < n
    ensures n < 0 ==> n < FloorMod(a, n) <= 0
    ensures exists q: int :: a == q * n + FloorMod(a, n)
  {
    assert a == a / n * n + a % n;
    if n < 0 && a % n != 0 {
      assert a == (a / n - 1) * n + (a % n + n);
    }
  }

  /** Bytes as a number, the lowest first. */
  function Little(bytes: seq<Byte>): nat { if bytes == [] then 0 else bytes[0] + 256 * Little(bytes[1..]) }

  lemma LittleStep(bytes: seq<Byte>)
    ensures Little(bytes) == if bytes == [] then 0 else bytes[0] + 256 * Little(bytes[1..])
  {
  }

  lemma LittleOfFew(b: seq<Byte>)
    requires |b| <= 3
    ensures Little(b) == (if |b| > 0 then b[0] as int else 0) + 256 * (if |b| > 1 then b[1] as int else 0)
                         + 65536 * (if |b| > 2 then b[2] as int else 0)
  {
    hide Little;
    LittleStep(b);
    if |b| > 0 {
      var one := b[1..];
      LittleStep(one);
      if |one| > 0 {
        var two := one[1..];
        LittleStep(two);
        assert two == b[2..];
        if |two| > 0 {
          LittleStep(two[1..]);
          assert two[1..] == [];
        }
      }
    }
  }

  lemma TailIsSum(b: seq<Byte>)
    requires |b| < 4
    ensures TailWord(b) == (if |b| > 0 then b[0] as int else 0) + 256 * (if |b| > 1 then b[1] as int else 0)
                           + 65536 * (if |b| > 2 then b[2] as int else 0)
  {
  }

  /** The bytes after the last word are read as those of a word are. */
  lemma TailIsLittle(tail: seq<Byte>)
    requires |tail| < 4
    ensures TailWord(tail) == Little(tail)
  {
    hide Little, TailWord;
    LittleOfFew(tail);
    TailIsSum(tail);
  }
}

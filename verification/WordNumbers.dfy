// The generator on numbers: the seed hash and the step in plain arithmetic.

module WordNumbers {
  import opened Words
  import opened XorShift
  import opened SeededRandom

  // Bit by bit, the sum without carry.
  function XorOf(x: nat, y: nat, width: nat): nat {
    if width == 0 then 0 else (x + y) % 2 + 2 * XorOf(x / 2, y / 2, width - 1)
  }

  function Doubled(x: nat, k: nat): nat {
    if k == 0 then x else 2 * Doubled(x, k - 1)
  }

  function Halved(x: nat, k: nat): nat {
    if k == 0 then x else Halved(x / 2, k - 1)
  }

  lemma BitIs(x: nat, width: nat, i: nat)
    requires i < width
    ensures Bits(x, width)[i] == if i == 0 then x % 2 == 1 else Bits(x / 2, width - 1)[i - 1]
  {
  }

  lemma XorSplits(x: nat, y: nat, width: nat)
    requires width > 0
    ensures XorOf(x, y, width) / 2 == XorOf(x / 2, y / 2, width - 1)
    ensures XorOf(x, y, width) % 2 == 1 <==> (x % 2 == 1) != (y % 2 == 1)
  {
    var rest := XorOf(x / 2, y / 2, width - 1);
    hide XorOf;
    assert (x + y) % 2 == 1 <==> (x % 2 == 1) != (y % 2 == 1);
    assert XorOf(x, y, width) == (x + y) % 2 + 2 * rest by {
      XorUnfolds(x, y, width);
    }
  }

  lemma XorUnfolds(x: nat, y: nat, width: nat)
    requires width > 0
    ensures XorOf(x, y, width) == (x + y) % 2 + 2 * XorOf(x / 2, y / 2, width - 1)
  {
  }

  lemma {:induction false} BitOfXor(x: nat, y: nat, width: nat, i: nat)
    requires i < width
    ensures Bits(XorOf(x, y, width), width)[i] == (Bits(x, width)[i] != Bits(y, width)[i])
  {
    hide Bits, XorOf;
    XorSplits(x, y, width);
    BitIs(x, width, i);
    BitIs(y, width, i);
    BitIs(XorOf(x, y, width), width, i);
    if i > 0 {
      BitOfXor(x / 2, y / 2, width - 1, i - 1);
    }
  }

  lemma {:induction false} XorBound(x: nat, y: nat, width: nat)
    ensures XorOf(x, y, width) < Pow2(width)
  {
    if width > 0 {
      XorBound(x / 2, y / 2, width - 1);
    }
  }

  lemma XorIs(x: nat, y: nat)
    ensures Xor(Bits(x, 32), Bits(y, 32)) == Bits(XorOf(x, y, 32), 32)
  {
    hide Bits, XorOf;
    forall i | 0 <= i < 32 ensures Bits(XorOf(x, y, 32), 32)[i] == (Bits(x, 32)[i] != Bits(y, 32)[i]) {
      BitOfXor(x, y, 32, i);
    }
  }

  lemma {:induction false} LongerBits(x: nat, width: nat, more: nat)
    requires width <= more
    ensures Bits(x, more)[..width] == Bits(x, width)
  {
    if width > 0 {
      LongerBits(x / 2, width - 1, more - 1);
    }
  }

  lemma {:induction false} DoubledBits(x: nat, k: nat, width: nat, i: nat)
    requires i < width
    ensures Bits(Doubled(x, k), width)[i] == (i >= k && Bits(x, width)[i - k])
  {
    hide Bits;
    if k > 0 {
      BitIs(Doubled(x, k), width, i);
      if i > 0 {
        DoubledBits(x, k - 1, width - 1, i - 1);
        LongerBits(x, width - 1, width);
      }
    }
  }

  lemma DoubledIs(x: nat, k: nat)
    ensures ShiftLeft(Bits(x, 32), k) == Bits(Doubled(x, k), 32)
  {
    hide Bits, Doubled;
    forall i | 0 <= i < 32 ensures Bits(Doubled(x, k), 32)[i] == ShiftLeft(Bits(x, 32), k)[i] {
      DoubledBits(x, k, 32, i);
    }
  }

  lemma {:induction false} HighBits(x: nat, j: nat, width: nat)
    requires x < Pow2(j)
    ensures forall i :: j <= i < width ==> !Bits(x, width)[i]
  {
    if width > 0 {
      if j > 0 {
        HighBits(x / 2, j - 1, width - 1);
      } else {
        HighBits(0, 0, width - 1);
      }
      forall i | j <= i < width ensures !Bits(x, width)[i] {
        if i > 0 {
          assert Bits(x, width)[i] == Bits(x / 2, width - 1)[i - 1];
        }
      }
    }
  }

  lemma {:induction false} HalvedBits(x: nat, k: nat, width: nat)
    requires k <= width
    ensures Bits(x, width)[k..] == Bits(Halved(x, k), width - k)
    ensures x < Pow2(width) ==> Halved(x, k) < Pow2(width - k)
  {
    if k > 0 {
      HalvedBits(x / 2, k - 1, width - 1);
      assert Bits(x, width)[k..] == Bits(x / 2, width - 1)[k - 1..];
    }
  }

  lemma HalvedIs(x: nat, k: nat)
    requires k <= 32 && x < UINT32_RANGE
    ensures ShiftRight(Bits(x, 32), k) == Bits(Halved(x, k), 32)
  {
    hide Bits, Halved;
    Pow2At32();
    HalvedBits(x, k, 32);
    HighBits(Halved(x, k), 32 - k, 32);
    LongerBits(Halved(x, k), 32 - k, 32);
    var half := Bits(Halved(x, k), 32);
    forall i | 0 <= i < 32 ensures half[i] == ShiftRight(Bits(x, 32), k)[i] {
      if i < 32 - k {
        assert half[i] == half[..32 - k][i] == Bits(x, 32)[k..][i];
      }
    }
  }

  // The step on numbers.
  function StepOf(x: nat): nat {
    var a := XorOf(x, Doubled(x, 13), 32);
    var b := XorOf(a, Halved(a, 17), 32);
    XorOf(b, Doubled(b, 5), 32)
  }

  lemma StepOnBits(x: nat)
    requires x < UINT32_RANGE
    ensures Step(Bits(x, 32)) == Bits(StepOf(x), 32) && StepOf(x) < UINT32_RANGE
  {
    hide Bits, XorOf, Doubled, Halved, ShiftLeft, ShiftRight, Xor;
    Pow2At32();
    var a := XorOf(x, Doubled(x, 13), 32);
    DoubledIs(x, 13);
    XorIs(x, Doubled(x, 13));
    XorBound(x, Doubled(x, 13), 32);
    var b := XorOf(a, Halved(a, 17), 32);
    HalvedIs(a, 17);
    XorIs(a, Halved(a, 17));
    DoubledIs(b, 5);
    XorIs(b, Doubled(b, 5));
    XorBound(b, Doubled(b, 5), 32);
  }

  // The step on a word is the step on the number it stands for.
  lemma StepIs(word: Word)
    ensures Value(Step(word)) == StepOf(Value(word))
  {
    hide Bits, Value, Step, StepOf;
    ValueRange(word);
    BitsOfValue(word);
    StepOnBits(Value(word));
    Pow2At32();
    ValueOfBits(StepOf(Value(word)), 32);
  }

  // The seed hash on numbers: FNV-1a with its standard basis and prime.
  function HashOf(hash: nat, codes: seq<nat>): nat
    decreases |codes|
  {
    if codes == [] then hash else HashOf(XorOf(hash, codes[0], 32) * 16777619 % 0x1_0000_0000, codes[1..])
  }

  lemma UnitIs(hash: nat, code: nat)
    ensures HashUnit(Bits(hash, 32), code) == Bits(XorOf(hash, code, 32) * 16777619 % 0x1_0000_0000, 32)
  {
    hide Bits, XorOf, Xor, Value;
    Pow2At32();
    XorIs(hash, code);
    XorBound(hash, code, 32);
    ValueOfBits(XorOf(hash, code, 32), 32);
  }

  lemma {:induction false} HashIs(hash: nat, codes: seq<nat>)
    requires hash < 0x1_0000_0000
    ensures HashFrom(Bits(hash, 32), codes) == Bits(HashOf(hash, codes), 32) && HashOf(hash, codes) < 0x1_0000_0000
    decreases |codes|
  {
    hide Bits, XorOf, HashUnit;
    if codes != [] {
      UnitIs(hash, codes[0]);
      HashIs(XorOf(hash, codes[0], 32) * 16777619 % 0x1_0000_0000, codes[1..]);
    }
  }

  // The number a seed starts from.
  lemma SeedIs(seed: string, r: RandomState)
    requires IsSeeded(seed, r)
    ensures var hash := HashOf(2166136261, CodeUnits(seed));
            Value(r.state) == if hash == 0 then 0x6d2b_79f5 else hash
  {
    hide Bits, HashOf, HashFrom, CodeUnits, Value;
    HashIs(FNV_OFFSET_BASIS, CodeUnits(seed));
    Pow2At32();
    ValueOfBits(HashOf(FNV_OFFSET_BASIS, CodeUnits(seed)), 32);
    ValueOfBits(ZERO_STATE_FALLBACK, 32);
  }
}

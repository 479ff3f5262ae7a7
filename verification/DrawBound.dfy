// Why the rejection loop always ends. Over GF(2) the XORSHIFT32 step satisfies its
// characteristic polynomial, which has 11 terms: the top bits of the words numbered
// 0, 6, 9, 14, 15, 17, 18, 19, 20, 21 and 32 of any run have even parity. Eleven set bits
// would have odd parity, so of any 33 successive words one is in the lower half.

module DrawBound {
  import opened Words
  import opened XorShift

  // The parity of the common bits of a mask and a word.
  function Dot(m: seq<bool>, x: seq<bool>): bool
    requires |m| == |x|
  {
    if m == [] then false else (m[0] && x[0]) != Dot(m[1..], x[1..])
  }

  lemma {:induction false} DotSymmetric(m: seq<bool>, x: seq<bool>)
    requires |m| == |x|
    ensures Dot(m, x) == Dot(x, m)
  {
    if m != [] {
      DotSymmetric(m[1..], x[1..]);
    }
  }

  lemma {:induction false} DotXor(m: seq<bool>, x: seq<bool>, y: seq<bool>, z: seq<bool>)
    requires |m| == |x| == |y| == |z|
    requires forall i :: 0 <= i < |z| ==> z[i] == (x[i] != y[i])
    ensures Dot(m, z) == (Dot(m, x) != Dot(m, y))
  {
    if m != [] {
      DotXor(m[1..], x[1..], y[1..], z[1..]);
    }
  }

  lemma {:induction false} DotAppend(m: seq<bool>, m': seq<bool>, x: seq<bool>, x': seq<bool>)
    requires |m| == |x| && |m'| == |x'|
    ensures Dot(m + m', x + x') == (Dot(m, x) != Dot(m', x'))
  {
    if m == [] {
      assert m + m' == m' && x + x' == x';
    } else {
      assert (m + m')[1..] == m[1..] + m' && (x + x')[1..] == x[1..] + x';
      DotAppend(m[1..], m', x[1..], x');
    }
  }

  lemma {:induction false} DotNothing(m: seq<bool>, x: seq<bool>)
    requires |m| == |x|
    requires forall i :: 0 <= i < |x| ==> !(m[i] && x[i])
    ensures !Dot(m, x)
  {
    if m != [] {
      DotNothing(m[1..], x[1..]);
    }
  }

  lemma DotShiftLeft(m: Word, x: Word, k: nat)
    requires k <= 32
    ensures Dot(m, ShiftLeft(x, k)) == Dot(ShiftRight(m, k), x)
  {
    var zeros := seq(k, i => false);
    assert ShiftLeft(x, k) == zeros + x[..32 - k] && m == m[..k] + m[k..];
    assert ShiftRight(m, k) == m[k..] + zeros && x == x[..32 - k] + x[32 - k..];
    DotAppend(m[..k], m[k..], zeros, x[..32 - k]);
    DotAppend(m[k..], zeros, x[..32 - k], x[32 - k..]);
    DotNothing(m[..k], zeros);
    DotNothing(zeros, x[32 - k..]);
  }

  // The transposed step, acting on masks.
  function Transpose(m: Word): Word {
    var a := Xor(m, ShiftRight(m, 5));
    var b := Xor(a, ShiftLeft(a, 17));
    Xor(b, ShiftRight(b, 13))
  }

  lemma DotStageLeft(m: Word, x: Word, k: nat)
    requires k <= 32
    ensures Dot(m, Xor(x, ShiftLeft(x, k))) == Dot(Xor(m, ShiftRight(m, k)), x)
  {
    DotXor(m, x, ShiftLeft(x, k), Xor(x, ShiftLeft(x, k)));
    DotShiftLeft(m, x, k);
    DotXor(x, m, ShiftRight(m, k), Xor(m, ShiftRight(m, k)));
    DotSymmetric(x, m);
    DotSymmetric(x, ShiftRight(m, k));
    DotSymmetric(x, Xor(m, ShiftRight(m, k)));
  }

  lemma DotStageRight(m: Word, x: Word, k: nat)
    requires k <= 32
    ensures Dot(m, Xor(x, ShiftRight(x, k))) == Dot(Xor(m, ShiftLeft(m, k)), x)
  {
    DotSymmetric(m, Xor(x, ShiftRight(x, k)));
    DotStageLeft(x, m, k);
    DotSymmetric(Xor(m, ShiftLeft(m, k)), x);
  }

  lemma DotStep(m: Word, x: Word)
    ensures Dot(m, Step(x)) == Dot(Transpose(m), x)
  {
    DotStageLeft(m, Stage17(Stage13(x)), 5);
    var a := Xor(m, ShiftRight(m, 5));
    DotStageRight(a, Stage13(x), 17);
    var b := Xor(a, ShiftLeft(a, 17));
    DotStageLeft(b, x, 13);
  }

  function Iterate(x: Word, n: nat): Word
    decreases n
  {
    if n == 0 then x else Iterate(Step(x), n - 1)
  }

  function TransposeIterate(m: Word, n: nat): Word {
    if n == 0 then m else Transpose(TransposeIterate(m, n - 1))
  }

  lemma {:induction false} DotIterate(m: Word, x: Word, n: nat)
    ensures Dot(m, Iterate(x, n)) == Dot(TransposeIterate(m, n), x)
    decreases n
  {
    if n > 0 {
      DotIterate(m, Step(x), n - 1);
      DotStep(TransposeIterate(m, n - 1), x);
    }
  }

  // The mask of the top bit, and its digits after each transposed step.

  function Top(): Word {
    seq(32, i => i == 31)
  }

  // Bits k to k + 3 of a word, as one hexadecimal digit.
  predicate Digit(m: Word, k: nat, digit: nat)
    requires k + 3 < 32
  {
    && m[k] == (digit % 2 >= 1) && m[k + 1] == (digit % 4 >= 2)
    && m[k + 2] == (digit % 8 >= 4) && m[k + 3] == (digit >= 8)
  }

  predicate Hex(m: Word, h7: nat, h6: nat, h5: nat, h4: nat, h3: nat, h2: nat, h1: nat, h0: nat) {
    && Digit(m, 28, h7) && Digit(m, 24, h6) && Digit(m, 20, h5) && Digit(m, 16, h4)
    && Digit(m, 12, h3) && Digit(m, 8, h2) && Digit(m, 4, h1) && Digit(m, 0, h0)
  }

  function Mask(n: nat): Word {
    TransposeIterate(Top(), n)
  }

  // The transposed step, bit by bit.

  predicate FirstStage(m: Word, i: nat) {
    i < 32 && m[i] != (i + 5 < 32 && m[i + 5])
  }

  predicate SecondStage(m: Word, i: nat) {
    FirstStage(m, i) != (i >= 17 && FirstStage(m, i - 17))
  }

  predicate LastStage(m: Word, i: nat) {
    SecondStage(m, i) != (i + 13 < 32 && SecondStage(m, i + 13))
  }

  lemma TransposeBit(m: Word, i: nat)
    requires i < 32
    ensures Transpose(m)[i] == LastStage(m, i)
  {
  }

  // One transposed step from m to m'.
  predicate Follows(m: Word, m': Word) {
    && m'[0] == LastStage(m, 0) && m'[1] == LastStage(m, 1) && m'[2] == LastStage(m, 2) && m'[3] == LastStage(m, 3)
    && m'[4] == LastStage(m, 4) && m'[5] == LastStage(m, 5) && m'[6] == LastStage(m, 6) && m'[7] == LastStage(m, 7)
    && m'[8] == LastStage(m, 8) && m'[9] == LastStage(m, 9) && m'[10] == LastStage(m, 10) && m'[11] == LastStage(m, 11)
    && m'[12] == LastStage(m, 12) && m'[13] == LastStage(m, 13) && m'[14] == LastStage(m, 14) && m'[15] == LastStage(m, 15)
    && m'[16] == LastStage(m, 16) && m'[17] == LastStage(m, 17) && m'[18] == LastStage(m, 18) && m'[19] == LastStage(m, 19)
    && m'[20] == LastStage(m, 20) && m'[21] == LastStage(m, 21) && m'[22] == LastStage(m, 22) && m'[23] == LastStage(m, 23)
    && m'[24] == LastStage(m, 24) && m'[25] == LastStage(m, 25) && m'[26] == LastStage(m, 26) && m'[27] == LastStage(m, 27)
    && m'[28] == LastStage(m, 28) && m'[29] == LastStage(m, 29) && m'[30] == LastStage(m, 30) && m'[31] == LastStage(m, 31)
  }

  lemma TransposeFollows(m: Word)
    ensures Follows(m, Transpose(m))
  {
    hide Transpose, LastStage;
    TransposeBit(m, 0); TransposeBit(m, 1); TransposeBit(m, 2); TransposeBit(m, 3);
    TransposeBit(m, 4); TransposeBit(m, 5); TransposeBit(m, 6); TransposeBit(m, 7);
    TransposeBit(m, 8); TransposeBit(m, 9); TransposeBit(m, 10); TransposeBit(m, 11);
    TransposeBit(m, 12); TransposeBit(m, 13); TransposeBit(m, 14); TransposeBit(m, 15);
    TransposeBit(m, 16); TransposeBit(m, 17); TransposeBit(m, 18); TransposeBit(m, 19);
    TransposeBit(m, 20); TransposeBit(m, 21); TransposeBit(m, 22); TransposeBit(m, 23);
    TransposeBit(m, 24); TransposeBit(m, 25); TransposeBit(m, 26); TransposeBit(m, 27);
    TransposeBit(m, 28); TransposeBit(m, 29); TransposeBit(m, 30); TransposeBit(m, 31);
  }

  lemma MaskNext(n: nat)
    ensures Follows(Mask(n), Mask(n + 1))
  {
    hide Follows;
    TransposeFollows(Mask(n));
  }

  // The masks, step by step.

  lemma Mask0()
    ensures Hex(Mask(0), 0x8, 0x0, 0x0, 0x0, 0x0, 0x0, 0x0, 0x0)
  {
  }

  lemma MasksTo9()
    ensures hide *; Hex(Mask(0), 0x8, 0x0, 0x0, 0x0, 0x0, 0x0, 0x0, 0x0)
    ensures Hex(Mask(6), 0x2, 0x4, 0x9, 0xA, 0x9, 0x9, 0x8, 0x0)
    ensures Hex(Mask(9), 0x5, 0x5, 0xB, 0x2, 0x7, 0x0, 0x4, 0x8)
  {
    hide Mask;
    Mask0();
    assert Hex(Mask(1), 0x8, 0x4, 0x0, 0x4, 0x2, 0x0, 0x0, 0x0) by {
      MaskNext(0);
    }
    assert Hex(Mask(2), 0x8, 0x2, 0x2, 0x0, 0x1, 0x0, 0x2, 0x0) by {
      MaskNext(1);
    }
    assert Hex(Mask(3), 0xA, 0x7, 0x7, 0x6, 0x2, 0xB, 0x3, 0x9) by {
      MaskNext(2);
    }
    assert Hex(Mask(4), 0x9, 0x6, 0x8, 0x9, 0x2, 0xE, 0x0, 0xC) by {
      MaskNext(3);
    }
    assert Hex(Mask(5), 0x5, 0xC, 0xC, 0x7, 0x8, 0x1, 0x5, 0x7) by {
      MaskNext(4);
    }
    assert Hex(Mask(6), 0x2, 0x4, 0x9, 0xA, 0x9, 0x9, 0x8, 0x0) by {
      MaskNext(5);
    }
    assert Hex(Mask(7), 0xB, 0xF, 0x2, 0x3, 0xB, 0x4, 0x7, 0xE) by {
      MaskNext(6);
    }
    assert Hex(Mask(8), 0xE, 0x9, 0x6, 0x7, 0xE, 0x2, 0xD, 0x8) by {
      MaskNext(7);
    }
    assert Hex(Mask(9), 0x5, 0x5, 0xB, 0x2, 0x7, 0x0, 0x4, 0x8) by {
      MaskNext(8);
    }
  }

  lemma MasksTo15()
    ensures Hex(Mask(14), 0x0, 0x4, 0x5, 0xB, 0x5, 0xD, 0xC, 0xA)
    ensures Hex(Mask(15), 0x0, 0xA, 0x3, 0x1, 0xD, 0x6, 0xA, 0x8)
  {
    hide Mask;
    MasksTo9();
    assert Hex(Mask(10), 0x9, 0x0, 0x8, 0xF, 0x6, 0x7, 0x9, 0x5) by {
      MaskNext(9);
    }
    assert Hex(Mask(11), 0xA, 0xD, 0x5, 0xC, 0x7, 0x6, 0x6, 0x1) by {
      MaskNext(10);
    }
    assert Hex(Mask(12), 0x8, 0x3, 0x9, 0x6, 0x8, 0x9, 0x4, 0x6) by {
      MaskNext(11);
    }
    assert Hex(Mask(13), 0xF, 0xD, 0x9, 0x5, 0xD, 0x1, 0x9, 0xD) by {
      MaskNext(12);
    }
    assert Hex(Mask(14), 0x0, 0x4, 0x5, 0xB, 0x5, 0xD, 0xC, 0xA) by {
      MaskNext(13);
    }
    assert Hex(Mask(15), 0x0, 0xA, 0x3, 0x1, 0xD, 0x6, 0xA, 0x8) by {
      MaskNext(14);
    }
  }

  lemma MasksTo21()
    ensures hide *; Hex(Mask(17), 0x5, 0x2, 0xB, 0xD, 0xE, 0x3, 0x6, 0x2)
    ensures Hex(Mask(18), 0x4, 0x8, 0xD, 0x8, 0x4, 0xA, 0xA, 0x9)
    ensures Hex(Mask(19), 0x5, 0xB, 0x6, 0x4, 0x5, 0x3, 0xC, 0x8)
    ensures Hex(Mask(20), 0xB, 0xB, 0x1, 0x6, 0xA, 0x9, 0xC, 0xD)
    ensures Hex(Mask(21), 0x8, 0x7, 0xC, 0xC, 0x2, 0x2, 0xC, 0x3)
  {
    hide Mask;
    MasksTo15();
    assert Hex(Mask(16), 0xB, 0xA, 0x5, 0xF, 0x8, 0xA, 0xC, 0xF) by {
      MaskNext(15);
    }
    assert Hex(Mask(17), 0x5, 0x2, 0xB, 0xD, 0xE, 0x3, 0x6, 0x2) by {
      MaskNext(16);
    }
    assert Hex(Mask(18), 0x4, 0x8, 0xD, 0x8, 0x4, 0xA, 0xA, 0x9) by {
      MaskNext(17);
    }
    assert Hex(Mask(19), 0x5, 0xB, 0x6, 0x4, 0x5, 0x3, 0xC, 0x8) by {
      MaskNext(18);
    }
    assert Hex(Mask(20), 0xB, 0xB, 0x1, 0x6, 0xA, 0x9, 0xC, 0xD) by {
      MaskNext(19);
    }
    assert Hex(Mask(21), 0x8, 0x7, 0xC, 0xC, 0x2, 0x2, 0xC, 0x3) by {
      MaskNext(20);
    }
  }

  lemma MasksTo27()
    ensures Hex(Mask(27), 0x2, 0x2, 0x0, 0x7, 0xD, 0xB, 0x1, 0xD)
  {
    hide Mask;
    MasksTo21();
    assert Hex(Mask(22), 0x0, 0x4, 0x5, 0x8, 0x6, 0x1, 0x1, 0x7) by {
      MaskNext(21);
    }
    assert Hex(Mask(23), 0x4, 0x0, 0x4, 0x6, 0xA, 0x0, 0x3, 0xA) by {
      MaskNext(22);
    }
    assert Hex(Mask(24), 0x6, 0x8, 0x3, 0x1, 0xD, 0x4, 0xA, 0xF) by {
      MaskNext(23);
    }
    assert Hex(Mask(25), 0xD, 0xF, 0x6, 0x2, 0xA, 0x1, 0x2, 0x8) by {
      MaskNext(24);
    }
    assert Hex(Mask(26), 0xB, 0x1, 0xD, 0xE, 0x3, 0xA, 0xF, 0xC) by {
      MaskNext(25);
    }
    assert Hex(Mask(27), 0x2, 0x2, 0x0, 0x7, 0xD, 0xB, 0x1, 0xD) by {
      MaskNext(26);
    }
  }

  lemma MasksTo32()
    ensures Hex(Mask(32), 0x8, 0x2, 0x9, 0x9, 0x1, 0x3, 0xA, 0x7)
  {
    hide Mask;
    MasksTo27();
    assert Hex(Mask(28), 0xE, 0x8, 0x9, 0xA, 0xA, 0x1, 0x2, 0xA) by {
      MaskNext(27);
    }
    assert Hex(Mask(29), 0x0, 0x7, 0x9, 0x8, 0x4, 0x8, 0xE, 0x0) by {
      MaskNext(28);
    }
    assert Hex(Mask(30), 0x1, 0x2, 0xE, 0xA, 0x1, 0xD, 0xF, 0x3) by {
      MaskNext(29);
    }
    assert Hex(Mask(31), 0x8, 0x8, 0x4, 0x1, 0x0, 0xF, 0x3, 0x6) by {
      MaskNext(30);
    }
    assert Hex(Mask(32), 0x8, 0x2, 0x9, 0x9, 0x1, 0x3, 0xA, 0x7) by {
      MaskNext(31);
    }
  }

  // The eleven masks cancel out.
  lemma MasksCancel(s6: Word, s9: Word, s14: Word, s15: Word, s17: Word, s18: Word, s19: Word, s20: Word, s21: Word)
    requires s6 == Xor(Mask(0), Mask(6)) && s9 == Xor(s6, Mask(9)) && s14 == Xor(s9, Mask(14))
    requires s15 == Xor(s14, Mask(15)) && s17 == Xor(s15, Mask(17)) && s18 == Xor(s17, Mask(18))
    requires s19 == Xor(s18, Mask(19)) && s20 == Xor(s19, Mask(20)) && s21 == Xor(s20, Mask(21))
    ensures s21 == Mask(32)
  {
    hide Mask;
    MasksTo9();
    MasksTo15();
    MasksTo21();
    MasksTo32();
  }

  lemma DotOfXor(m: Word, m': Word, x: Word)
    ensures Dot(Xor(m, m'), x) == (Dot(m, x) != Dot(m', x))
  {
    DotXor(x, m, m', Xor(m, m'));
    DotSymmetric(x, m);
    DotSymmetric(x, m');
    DotSymmetric(x, Xor(m, m'));
  }

  lemma DotTop(x: Word)
    ensures Dot(Top(), x) == x[31]
  {
    assert Top() == seq(31, i => false) + [true] && x == x[..31] + [x[31]];
    DotAppend(seq(31, i => false), [true], x[..31], [x[31]]);
    DotNothing(seq(31, i => false), x[..31]);
    assert Dot([true][1..], [x[31]][1..]) == false;
  }

  // The top bit of the n-th word is a fixed parity of the bits of the first.
  lemma TopBit(x: Word, n: nat)
    ensures Iterate(x, n)[31] == Dot(Mask(n), x)
  {
    DotIterate(Top(), x, n);
    DotTop(Iterate(x, n));
  }

  predicate IsHigh(x: Word, n: nat) {
    Iterate(x, n)[31]
  }

  // How many of the eleven words have their top bit set is always even.
  lemma TopsAreEven(x: Word)
    ensures var s6 := IsHigh(x, 0) != IsHigh(x, 6);
            var s9 := s6 != IsHigh(x, 9);
            var s14 := s9 != IsHigh(x, 14);
            var s15 := s14 != IsHigh(x, 15);
            var s17 := s15 != IsHigh(x, 17);
            var s18 := s17 != IsHigh(x, 18);
            var s19 := s18 != IsHigh(x, 19);
            var s20 := s19 != IsHigh(x, 20);
            var s21 := s20 != IsHigh(x, 21);
            s21 == IsHigh(x, 32)
  {
    hide Iterate, Dot, Xor, Mask;
    var s6 := Xor(Mask(0), Mask(6));
    var s9 := Xor(s6, Mask(9));
    var s14 := Xor(s9, Mask(14));
    var s15 := Xor(s14, Mask(15));
    var s17 := Xor(s15, Mask(17));
    var s18 := Xor(s17, Mask(18));
    var s19 := Xor(s18, Mask(19));
    var s20 := Xor(s19, Mask(20));
    var s21 := Xor(s20, Mask(21));
    MasksCancel(s6, s9, s14, s15, s17, s18, s19, s20, s21);
    TopBit(x, 0);
    TopBit(x, 6);
    TopBit(x, 9);
    TopBit(x, 14);
    TopBit(x, 15);
    TopBit(x, 17);
    TopBit(x, 18);
    TopBit(x, 19);
    TopBit(x, 20);
    TopBit(x, 21);
    TopBit(x, 32);
    DotOfXor(Mask(0), Mask(6), x);
    DotOfXor(s6, Mask(9), x);
    DotOfXor(s9, Mask(14), x);
    DotOfXor(s14, Mask(15), x);
    DotOfXor(s15, Mask(17), x);
    DotOfXor(s17, Mask(18), x);
    DotOfXor(s18, Mask(19), x);
    DotOfXor(s19, Mask(20), x);
    DotOfXor(s20, Mask(21), x);
  }

  // Of any 33 successive words one is in the lower half.
  lemma SomeWordIsLow(x: Word) returns (n: nat)
    ensures n <= 32 && !IsHigh(x, n)
  {
    hide IsHigh;
    TopsAreEven(x);
    if !IsHigh(x, 0) { return 0; }
    if !IsHigh(x, 6) { return 6; }
    if !IsHigh(x, 9) { return 9; }
    if !IsHigh(x, 14) { return 14; }
    if !IsHigh(x, 15) { return 15; }
    if !IsHigh(x, 17) { return 17; }
    if !IsHigh(x, 18) { return 18; }
    if !IsHigh(x, 19) { return 19; }
    if !IsHigh(x, 20) { return 20; }
    if !IsHigh(x, 21) { return 21; }
    n := 32;
  }
}

// Seeded randomness: XORSHIFT32, rejection sampling and the Fisher-Yates shuffle.

module Words {
  // A 32-bit word, bit 0 first.
  type Word = w: seq<bool> | |w| == 32 witness seq(32, i => false)

  const UINT32_RANGE: nat := 0x1_0000_0000

  function Xor(x: Word, y: Word): Word {
    seq(32, i requires 0 <= i < 32 => x[i] != y[i])
  }

  function ShiftLeft(x: Word, k: nat): Word {
    seq(32, i requires 0 <= i < 32 => i >= k && x[i - k])
  }

  // The unsigned right shift.
  function ShiftRight(x: Word, k: nat): Word {
    seq(32, i requires 0 <= i < 32 => i + k < 32 && x[i + k])
  }

  function Zero(): Word {
    seq(32, i => false)
  }

  function Value(bits: seq<bool>): nat {
    if bits == [] then 0 else (if bits[0] then 1 else 0) + 2 * Value(bits[1..])
  }

  function Bits(n: nat, width: nat): (bits: seq<bool>)
    ensures |bits| == width
  {
    if width == 0 then [] else [n % 2 == 1] + Bits(n / 2, width - 1)
  }

  function Pow2(k: nat): nat {
    if k == 0 then 1 else 2 * Pow2(k - 1)
  }

  lemma {:induction false} ValueBound(bits: seq<bool>)
    ensures Value(bits) < Pow2(|bits|)
    ensures |bits| > 0 && !bits[|bits| - 1] ==> Value(bits) < Pow2(|bits| - 1)
  {
    if bits != [] {
      ValueBound(bits[1..]);
      if |bits| > 1 {
        assert bits[1..][|bits| - 2] == bits[|bits| - 1];
      }
    }
  }

  lemma {:induction false} ValueLow(bits: seq<bool>, k: nat)
    requires k < |bits| && !bits[k]
    ensures Value(bits) + Pow2(k) < Pow2(|bits|)
  {
    ValueBound(bits[1..]);
    if k > 0 {
      assert bits[1..][k - 1] == bits[k];
      ValueLow(bits[1..], k - 1);
    }
  }

  // Bits and Value are inverse, so words and the numbers below 2^32 are the same thing.
  lemma {:induction false} BitsOfValue(bits: seq<bool>)
    ensures Bits(Value(bits), |bits|) == bits
  {
    if bits != [] {
      BitsOfValue(bits[1..]);
      assert bits == [bits[0]] + bits[1..];
    }
  }

  lemma {:induction false} ValueOfBits(n: nat, width: nat)
    requires n < Pow2(width)
    ensures Value(Bits(n, width)) == n
  {
    if width > 0 {
      ValueOfBits(n / 2, width - 1);
      assert Bits(n, width)[1..] == Bits(n / 2, width - 1);
    }
  }

  lemma Pow2At32()
    ensures Pow2(32) == UINT32_RANGE && Pow2(31) == 0x8000_0000 && Pow2(13) == 8192
  {
    assert Pow2(8) == 256;
    assert Pow2(13) == 8192;
    assert Pow2(16) == 65536;
    assert Pow2(24) == 0x100_0000;
    assert Pow2(31) == 0x8000_0000;
  }

  lemma ValueRange(x: Word)
    ensures Value(x) < UINT32_RANGE
    ensures !x[31] ==> Value(x) < 0x8000_0000
  {
    ValueBound(x);
    Pow2At32();
  }

  lemma ValueZero(x: Word)
    ensures Value(x) == 0 <==> x == Zero()
  {
    BitsOfValue(x);
    BitsOfValue(Zero());
    ZeroBits(32);
  }

  lemma {:induction false} ZeroBits(width: nat)
    ensures Value(seq(width, i => false)) == 0
  {
    if width > 0 {
      assert seq(width, i => false)[1..] == seq(width - 1, i => false);
      ZeroBits(width - 1);
    }
  }
}

module XorShift {
  import opened Words

  function Stage13(x: Word): Word { Xor(x, ShiftLeft(x, 13)) }
  function Stage17(x: Word): Word { Xor(x, ShiftRight(x, 17)) }
  function Stage5(x: Word): Word { Xor(x, ShiftLeft(x, 5)) }

  function Step(x: Word): Word {
    Stage5(Stage17(Stage13(x)))
  }

  function Unstage13(y: Word): Word { Xor(y, Xor(ShiftLeft(y, 13), ShiftLeft(y, 26))) }
  function Unstage17(y: Word): Word { Xor(y, ShiftRight(y, 17)) }

  function Unstage5(y: Word): Word {
    var a := Xor(y, ShiftLeft(y, 5));
    var b := Xor(a, ShiftLeft(a, 10));
    Xor(b, ShiftLeft(b, 20))
  }

  function Unstep(y: Word): Word {
    Unstage13(Unstage17(Unstage5(y)))
  }

  lemma Stage13Inverse(x: Word)
    ensures Unstage13(Stage13(x)) == x && Stage13(Unstage13(x)) == x
  {
  }

  lemma Stage17Inverse(x: Word)
    ensures Unstage17(Stage17(x)) == x && Stage17(Unstage17(x)) == x
  {
  }

  // Squaring a stage doubles its shift, and a shift by 40 leaves nothing.
  lemma XorShiftTwice(x: Word, k: nat)
    ensures Xor(Xor(x, ShiftLeft(x, k)), ShiftLeft(Xor(x, ShiftLeft(x, k)), k)) == Xor(x, ShiftLeft(x, 2 * k))
  {
  }

  lemma XorShiftsCommute(x: Word, j: nat, k: nat)
    ensures var xj := Xor(x, ShiftLeft(x, j)); var xk := Xor(x, ShiftLeft(x, k));
            Xor(xj, ShiftLeft(xj, k)) == Xor(xk, ShiftLeft(xk, j))
  {
  }

  lemma Stage5Inverse(x: Word)
    ensures Unstage5(Stage5(x)) == x && Stage5(Unstage5(x)) == x
  {
    XorShiftTwice(x, 5);
    XorShiftTwice(x, 10);
    XorShiftTwice(x, 20);
    assert Xor(x, ShiftLeft(x, 40)) == x;
    assert Unstage5(Stage5(x)) == x;
    var a := Xor(x, ShiftLeft(x, 5));
    XorShiftsCommute(a, 10, 20);
    var b := Xor(a, ShiftLeft(a, 10));
    XorShiftsCommute(b, 20, 5);
    XorShiftsCommute(a, 10, 5);
  }

  // The step is a bijection on 32-bit words, with `Unstep` as its inverse.
  lemma StepIsBijection(x: Word)
    ensures Unstep(Step(x)) == x
    ensures Step(Unstep(x)) == x
  {
    Stage13Inverse(x);
    Stage17Inverse(Stage13(x));
    Stage5Inverse(Stage17(Stage13(x)));
    Stage5Inverse(x);
    Stage17Inverse(Unstage5(x));
    Stage13Inverse(Unstage17(Unstage5(x)));
  }

  // Only zero steps to zero, so the forbidden state is never produced.
  lemma StepNonZero(x: Word)
    ensures Step(x) == Zero() <==> x == Zero()
  {
    assert Step(Zero()) == Zero();
    StepIsBijection(x);
    StepIsBijection(Zero());
  }

  // A word within 8192 of the top is followed by a word in the lower half.
  lemma RejectedThenLow(x: Word)
    requires Value(x) >= UINT32_RANGE - 8192
    ensures Value(Step(x)) < 0x8000_0000
  {
    Pow2At32();
    forall k | 13 <= k < 32 ensures x[k] {
      if !x[k] {
        ValueLow(x, k);
        PowMonotone(13, k);
      }
    }
    var a := Stage13(x);
    var b := Stage17(a);
    assert !a[26] && !a[31];
    assert !b[26] && !b[31];
    assert !Stage5(b)[31];
    ValueRange(Step(x));
  }

  lemma {:induction false} PowMonotone(j: nat, k: nat)
    requires j <= k
    ensures Pow2(j) <= Pow2(k)
  {
    if j < k {
      PowMonotone(j, k - 1);
    }
  }
}

module SeededRandom {
  import opened Words
  import opened XorShift
  import opened DrawBound

  // Draw counts are mathematical: the safe-integer overflow guard is left out.
  datatype RandomState = RandomState(seed: string, state: Word, drawCount: nat)

  predicate ValidRandomState(r: RandomState) {
    r.seed != [] && r.state != Zero()
  }

  // The seed hash (FNV-1a over the UTF-16 code units of the seed).

  const FNV_OFFSET_BASIS: nat := 0x811c_9dc5
  const FNV_PRIME: nat := 0x0100_0193
  const ZERO_STATE_FALLBACK: nat := 0x6d2b_79f5

  function HashUnit(hash: Word, code: nat): Word {
    Bits(Value(Xor(hash, Bits(code, 32))) * FNV_PRIME % UINT32_RANGE, 32)
  }

  function HashFrom(hash: Word, codes: seq<nat>): Word
    decreases |codes|
  {
    if codes == [] then hash else HashFrom(HashUnit(hash, codes[0]), codes[1..])
  }

  // The UTF-16 code units of a character: itself, or a surrogate pair.
  function UnitsOf(c: char): seq<nat> {
    var code := c as nat;
    if code < 0x1_0000 then [code]
    else [0xd800 + (code - 0x1_0000) / 0x400, 0xdc00 + (code - 0x1_0000) % 0x400]
  }

  function CodeUnits(seed: string): seq<nat> {
    if seed == [] then [] else UnitsOf(seed[0]) + CodeUnits(seed[1..])
  }

  // The state a seed stands for.
  predicate IsSeeded(seed: string, r: RandomState) {
    && r.seed == seed && r.drawCount == 0
    && (var hash := HashFrom(Bits(FNV_OFFSET_BASIS, 32), CodeUnits(seed));
        r.state == if Value(hash) == 0 then Bits(ZERO_STATE_FALLBACK, 32) else hash)
  }

  method CreateInitialRandomState(seed: string) returns (r: RandomState)
    requires seed != []
    ensures ValidRandomState(r) && IsSeeded(seed, r)
  {
    var codes := CodeUnits(seed);
    var hash: Word := Bits(FNV_OFFSET_BASIS, 32);
    for index := 0 to |codes|
      invariant HashFrom(hash, codes[index..]) == HashFrom(Bits(FNV_OFFSET_BASIS, 32), codes)
    {
      assert codes[index..][1..] == codes[index + 1..];
      hash := HashUnit(hash, codes[index]);
    }
    ValueZero(hash);
    if Value(hash) == 0 {
      Pow2At32();
      ValueOfBits(ZERO_STATE_FALLBACK, 32);
      hash := Bits(ZERO_STATE_FALLBACK, 32);
      ValueZero(hash);
    }
    r := RandomState(seed, hash, 0);
  }

  // One draw: the new state is the drawn value.
  function NextRandomUint32(r: RandomState): (next: RandomState)
    requires ValidRandomState(r)
    ensures ValidRandomState(next) && next.seed == r.seed && next.drawCount == r.drawCount + 1
  {
    StepNonZero(r.state);
    RandomState(r.seed, Step(r.state), r.drawCount + 1)
  }

  function After(r: RandomState, draws: nat): (next: RandomState)
    requires ValidRandomState(r)
    ensures ValidRandomState(next) && next.drawCount == r.drawCount + draws
  {
    if draws == 0 then r else NextRandomUint32(After(r, draws - 1))
  }

  // Rejection sampling.

  function Limit(span: nat): nat
    requires span > 0
  {
    UINT32_RANGE / span * span
  }

  predicate Accepts(r: RandomState, span: nat, draw: nat)
    requires ValidRandomState(r) && span > 0
  {
    Value(After(r, draw + 1).state) < Limit(span)
  }

  ghost predicate FirstAccepted(r: RandomState, span: nat, draw: nat)
    requires ValidRandomState(r) && span > 0
  {
    Accepts(r, span, draw) && forall k: nat :: k < draw ==> !Accepts(r, span, k)
  }

  lemma LimitRange(span: nat)
    requires 1 <= span <= UINT32_RANGE
    ensures UINT32_RANGE - span < Limit(span) <= UINT32_RANGE
    ensures 0x8000_0000 < Limit(span)
  {
    assert UINT32_RANGE == UINT32_RANGE / span * span + UINT32_RANGE % span;
    var q := UINT32_RANGE / span;
    assert q >= 1;
    assert q * span >= span by {
      assert (q - 1) * span >= 0;
    }
  }

  lemma {:induction false} IterateNext(x: Word, n: nat)
    ensures Iterate(x, n + 1) == Step(Iterate(x, n))
    decreases n
  {
    if n > 0 {
      IterateNext(Step(x), n - 1);
    }
  }

  lemma {:induction false} AfterIterates(r: RandomState, n: nat)
    requires ValidRandomState(r)
    ensures After(r, n + 1).state == Iterate(After(r, 1).state, n)
  {
    hide Step;
    if n > 0 {
      AfterIterates(r, n - 1);
      IterateNext(After(r, 1).state, n - 1);
    }
  }

  // The rejection loop ends for every span: of any 33 draws one is in the lower half, and
  // the limit is above it.
  lemma SomeDrawIsAccepted(r: RandomState, span: nat) returns (draw: nat)
    requires ValidRandomState(r) && 1 <= span <= UINT32_RANGE
    ensures draw <= 32 && Accepts(r, span, draw)
  {
    hide Limit, Iterate;
    LimitRange(span);
    draw := SomeWordIsLow(After(r, 1).state);
    AfterIterates(r, draw);
    ValueRange(After(r, draw + 1).state);
  }

  // A rejected word is within `span` of 2^32, so for the spans the game uses the
  // word after it is in the lower half and is accepted: two draws always suffice.
  lemma TwoDrawsSuffice(r: RandomState, span: nat)
    requires ValidRandomState(r) && 1 <= span <= 8192
    ensures Accepts(r, span, 0) || Accepts(r, span, 1)
  {
    LimitRange(span);
    var first, second := After(r, 1), After(r, 2);
    if !Accepts(r, span, 0) {
      RejectedThenLow(first.state);
      assert second == NextRandomUint32(first);
    }
  }

  // `next` is the state reached by the first accepted draw.
  ghost predicate StopsAt(r: RandomState, span: nat, next: RandomState)
    requires ValidRandomState(r) && span > 0
  {
    exists draw: nat :: FirstAccepted(r, span, draw) && next == After(r, draw + 1)
  }

  lemma StopsOnce(r: RandomState, span: nat, next: RandomState, other: RandomState)
    requires ValidRandomState(r) && span > 0 && StopsAt(r, span, next) && StopsAt(r, span, other)
    ensures next == other
  {
    hide Accepts, After;
    var d: nat :| FirstAccepted(r, span, d) && next == After(r, d + 1);
    var e: nat :| FirstAccepted(r, span, e) && other == After(r, e + 1);
    assert !(d < e) && !(e < d);
  }

  // The loop as written. It needs no bound on the number of draws.
  method NextRandomInt(r: RandomState, minInclusive: int, maxExclusive: int)
    returns (value: int, next: RandomState)
    requires ValidRandomState(r)
    requires 1 <= maxExclusive - minInclusive <= UINT32_RANGE
    ensures minInclusive <= value < maxExclusive
    ensures StopsAt(r, maxExclusive - minInclusive, next)
    ensures value == minInclusive + Value(next.state) % (maxExclusive - minInclusive)
    ensures (value, next) == NextInt(r, minInclusive, maxExclusive)
  {
    hide FirstBelow, StopsAt, Limit;
    var span: nat := maxExclusive - minInclusive;
    var limit := Limit(span);
    next := RejectBelow(r, span, limit);
    NextIntStops(r, minInclusive, maxExclusive);
    StopsOnce(r, span, next, NextInt(r, minInclusive, maxExclusive).1);
    value := minInclusive + Value(next.state) % span;
  }

  lemma AfterNext(r: RandomState, draws: nat)
    requires ValidRandomState(r)
    ensures After(r, 0) == r && After(r, draws + 1) == NextRandomUint32(After(r, draws))
  {
  }

  method RejectBelow(r: RandomState, span: nat, limit: nat) returns (next: RandomState)
    requires ValidRandomState(r) && 1 <= span <= UINT32_RANGE && limit == Limit(span)
    ensures ValidRandomState(next) && StopsAt(r, span, next)
  {
    hide After, Limit, Step, Value, NextRandomUint32;
    ghost var last := SomeDrawIsAccepted(r, span);
    ghost var rejected: nat := 0;
    next := NextRandomUint32(r);
    AfterNext(r, 0);
    while Value(next.state) >= limit
      invariant rejected <= last
      invariant ValidRandomState(next) && next == After(r, rejected + 1)
      invariant forall k: nat :: k < rejected ==> !Accepts(r, span, k)
      decreases last - rejected
    {
      assert !Accepts(r, span, rejected);
      AfterNext(r, rejected + 1);
      next := NextRandomUint32(next);
      rejected := rejected + 1;
    }
    assert FirstAccepted(r, span, rejected);
  }

  // The first draw below the limit, or the one that brings the draw count to the cutoff.
  function FirstBelow(r: RandomState, limit: nat, cutoff: nat): (next: RandomState)
    requires ValidRandomState(r) && r.drawCount < cutoff
    ensures ValidRandomState(next) && r.drawCount < next.drawCount <= cutoff
    decreases cutoff - r.drawCount
  {
    var next := NextRandomUint32(r);
    if next.drawCount == cutoff || Value(next.state) < limit then next else FirstBelow(next, limit, cutoff)
  }

  // What the loop returns.
  function NextInt(r: RandomState, minInclusive: int, maxExclusive: int): (result: (int, RandomState))
    requires ValidRandomState(r)
    requires 1 <= maxExclusive - minInclusive <= UINT32_RANGE
    ensures minInclusive <= result.0 < maxExclusive
    ensures ValidRandomState(result.1) && r.drawCount < result.1.drawCount <= r.drawCount + 33
  {
    var span := maxExclusive - minInclusive;
    var accepted := FirstBelow(r, Limit(span), r.drawCount + 33);
    (minInclusive + Value(accepted.state) % span, accepted)
  }

  lemma {:induction false} FirstBelowStops(r: RandomState, span: nat, k: nat, last: nat, cutoff: nat)
    requires ValidRandomState(r) && span > 0 && k <= last < cutoff - r.drawCount && Accepts(r, span, last)
    requires forall j: nat :: j < k ==> !Accepts(r, span, j)
    ensures StopsAt(r, span, FirstBelow(After(r, k), Limit(span), cutoff))
    decreases last - k
  {
    hide Limit, NextRandomUint32, Value;
    AfterNext(r, k);
    if Accepts(r, span, k) {
      assert FirstAccepted(r, span, k);
    } else {
      FirstBelowStops(r, span, k + 1, last, cutoff);
    }
  }

  // The drawn number is the residue of the first accepted word, counted from the lower end.
  lemma NextIntStops(r: RandomState, minInclusive: int, maxExclusive: int)
    requires ValidRandomState(r) && 1 <= maxExclusive - minInclusive <= UINT32_RANGE
    ensures var (value, next) := NextInt(r, minInclusive, maxExclusive);
            && StopsAt(r, maxExclusive - minInclusive, next)
            && value == minInclusive + Value(next.state) % (maxExclusive - minInclusive)
  {
    hide Limit, FirstBelow, Accepts, StopsAt;
    var span := maxExclusive - minInclusive;
    var last := SomeDrawIsAccepted(r, span);
    FirstBelowStops(r, span, 0, last, r.drawCount + 33);
    AfterNext(r, 0);
  }

  // For the spans the game uses the loop ends within two draws.
  lemma AtMostTwoDraws(r: RandomState, minInclusive: int, maxExclusive: int)
    requires ValidRandomState(r) && 1 <= maxExclusive - minInclusive <= 8192
    ensures NextInt(r, minInclusive, maxExclusive).1.drawCount <= r.drawCount + 2
  {
    hide NextInt, Accepts;
    var span := maxExclusive - minInclusive;
    NextIntStops(r, minInclusive, maxExclusive);
    var draw: nat :| FirstAccepted(r, span, draw) && NextInt(r, minInclusive, maxExclusive).1 == After(r, draw + 1);
    TwoDrawsSuffice(r, span);
  }

  lemma {:induction false} MultiplesApart(p: nat, q: nat, span: nat)
    ensures p > q ==> p * span >= q * span + span
  {
    if p > q + 1 {
      MultiplesApart(p - 1, q, span);
    }
  }

  lemma ModOfSum(q: nat, span: nat, rest: nat)
    requires rest < span
    ensures (q * span + rest) % span == rest
  {
    var x := q * span + rest;
    assert x == x / span * span + x % span;
    MultiplesApart(q, x / span, span);
    MultiplesApart(x / span, q, span);
  }

  function Hits(span: nat, residue: nat, bound: nat): set<nat>
    requires span > 0
  {
    set v | 0 <= v < bound && v % span == residue
  }

  lemma HitsOfNextBlock(span: nat, residue: nat, q: nat, base: nat)
    requires residue < span && base == q * span
    ensures Hits(span, residue, base + span) == Hits(span, residue, base) + {base + residue}
  {
    ModOfSum(q, span, residue);
    forall v | base <= v < base + span ensures v % span == v - base {
      ModOfSum(q, span, v - base);
    }
  }

  lemma OneFewer(q: nat, span: nat)
    requires q > 0
    ensures (q - 1) * span == q * span - span
  {
  }

  lemma {:induction false} ResidueCount(span: nat, residue: nat, q: nat, bound: nat)
    requires residue < span && bound == q * span
    ensures |Hits(span, residue, bound)| == q
    decreases q
  {
    if q == 0 {
      assert Hits(span, residue, 0) == {};
    } else {
      OneFewer(q, span);
      assert bound - span == (q - 1) * span >= 0;
      ResidueCount(span, residue, q - 1, bound - span);
      HitsOfNextBlock(span, residue, q - 1, bound - span);
      assert bound - span + residue !in Hits(span, residue, bound - span);
    }
  }

  // Among the accepted words every residue is hit equally often.
  lemma ResiduesAreUniform(span: nat, residue: nat)
    requires 1 <= span <= UINT32_RANGE && residue < span
    ensures |Hits(span, residue, Limit(span))| == UINT32_RANGE / span
  {
    ResidueCount(span, residue, UINT32_RANGE / span, Limit(span));
  }

  // A value of the range is drawn exactly if the accepted word is one of its floor(2^32 / span)
  // words below the limit.
  lemma ResultsAreUniform(r: RandomState, minInclusive: int, maxExclusive: int, value: int)
    requires ValidRandomState(r) && 1 <= maxExclusive - minInclusive <= UINT32_RANGE
    requires minInclusive <= value < maxExclusive
    ensures var span: nat := maxExclusive - minInclusive;
            var words := set word | 0 <= word < Limit(span) && minInclusive + word % span == value;
            var (drawn, next) := NextInt(r, minInclusive, maxExclusive);
            && |words| == UINT32_RANGE / span
            && Value(next.state) < Limit(span)
            && (drawn == value <==> Value(next.state) in words)
  {
    hide NextInt, After, Limit, Hits;
    var span: nat := maxExclusive - minInclusive;
    var next := NextInt(r, minInclusive, maxExclusive).1;
    ResiduesAreUniform(span, value - minInclusive);
    HitsAre(span, value - minInclusive, Limit(span));
    assert (set word | 0 <= word < Limit(span) && minInclusive + word % span == value) == Hits(span, value - minInclusive, Limit(span));
    NextIntStops(r, minInclusive, maxExclusive);
    var draw: nat :| FirstAccepted(r, span, draw) && next == After(r, draw + 1);
    assert Accepts(r, span, draw);
  }

  lemma HitsAre(span: nat, residue: nat, bound: nat)
    requires span > 0
    ensures forall v :: v in Hits(span, residue, bound) <==> 0 <= v < bound && v % span == residue
  {
  }
}

// What the seed hash keeps apart.
module SeedHash {
  import opened Words
  import opened SeededRandom

  // The inverse of the prime modulo 2^32.
  const PRIME_INVERSE: nat := 0x359c_449b

  lemma SmallMultiple(x: int, k: int)
    requires -0x1_0000_0000 < x < 0x1_0000_0000 && x == k * 0x1_0000_0000
    ensures x == 0
  {
  }

  // Multiplying by the prime loses nothing.
  lemma ProductsDiffer(x: nat, y: nat)
    requires x < UINT32_RANGE && y < UINT32_RANGE && x * FNV_PRIME % UINT32_RANGE == y * FNV_PRIME % UINT32_RANGE
    ensures x == y
  {
    assert FNV_PRIME * PRIME_INVERSE == 3513497 * UINT32_RANGE + 1;
    var a, b := x * FNV_PRIME / UINT32_RANGE, y * FNV_PRIME / UINT32_RANGE;
    assert x * FNV_PRIME == a * UINT32_RANGE + x * FNV_PRIME % UINT32_RANGE;
    assert y * FNV_PRIME == b * UINT32_RANGE + y * FNV_PRIME % UINT32_RANGE;
    SmallMultiple(x - y, (a - b) * PRIME_INVERSE - (x - y) * 3513497);
  }

  lemma XorDiffers(x: Word, y: Word, z: Word)
    requires Xor(x, z) == Xor(y, z) || Xor(z, x) == Xor(z, y)
    ensures x == y
  {
    forall i | 0 <= i < 32 ensures x[i] == y[i] {
      assert Xor(x, z)[i] == (x[i] != z[i]) && Xor(y, z)[i] == (y[i] != z[i]);
      assert Xor(z, x)[i] == (z[i] != x[i]) && Xor(z, y)[i] == (z[i] != y[i]);
    }
  }

  lemma SameBits(m: nat, n: nat)
    requires m < UINT32_RANGE && n < UINT32_RANGE && Bits(m, 32) == Bits(n, 32)
    ensures m == n
  {
    Pow2At32();
    ValueOfBits(m, 32);
    ValueOfBits(n, 32);
  }

  lemma MixedDiffer(x: Word, y: Word)
    requires Bits(Value(x) * FNV_PRIME % UINT32_RANGE, 32) == Bits(Value(y) * FNV_PRIME % UINT32_RANGE, 32)
    ensures x == y
  {
    hide Bits, Value;
    ValueRange(x);
    ValueRange(y);
    SameBits(Value(x) * FNV_PRIME % UINT32_RANGE, Value(y) * FNV_PRIME % UINT32_RANGE);
    ProductsDiffer(Value(x), Value(y));
    BitsOfValue(x);
    BitsOfValue(y);
  }

  // One unit keeps different hashes apart, and different units keep one hash apart.
  lemma UnitsKeepApart(hash: Word, other: Word, code: nat, unit: nat)
    requires code < UINT32_RANGE && unit < UINT32_RANGE
    ensures HashUnit(hash, code) == HashUnit(other, code) ==> hash == other
    ensures HashUnit(hash, code) == HashUnit(hash, unit) ==> code == unit
  {
    hide Bits, Value, Xor;
    if HashUnit(hash, code) == HashUnit(other, code) {
      MixedDiffer(Xor(hash, Bits(code, 32)), Xor(other, Bits(code, 32)));
      XorDiffers(hash, other, Bits(code, 32));
    }
    if HashUnit(hash, code) == HashUnit(hash, unit) {
      MixedDiffer(Xor(hash, Bits(code, 32)), Xor(hash, Bits(unit, 32)));
      XorDiffers(Bits(code, 32), Bits(unit, 32), hash);
      SameBits(code, unit);
    }
  }

  predicate AreUnits(codes: seq<nat>) {
    forall i :: 0 <= i < |codes| ==> codes[i] < 0x1_0000
  }

  lemma {:induction false} HashesKeepApart(hash: Word, other: Word, codes: seq<nat>)
    requires AreUnits(codes) && HashFrom(hash, codes) == HashFrom(other, codes)
    ensures hash == other
    decreases |codes|
  {
    hide HashUnit;
    if codes != [] {
      HashesKeepApart(HashUnit(hash, codes[0]), HashUnit(other, codes[0]), codes[1..]);
      UnitsKeepApart(hash, other, codes[0], codes[0]);
    }
  }

  // Seeds that differ in one code unit never get the same hash, whatever surrounds it.
  lemma {:induction false} OneUnitMatters(start: Word, before: seq<nat>, code: nat, unit: nat, after: seq<nat>)
    requires AreUnits(before) && AreUnits(after) && code < 0x1_0000 && unit < 0x1_0000 && code != unit
    ensures HashFrom(start, before + [code] + after) != HashFrom(start, before + [unit] + after)
    decreases |before|
  {
    hide HashUnit;
    var one, two := before + [code] + after, before + [unit] + after;
    if before == [] {
      assert one[1..] == after && two[1..] == after;
      if HashFrom(start, one) == HashFrom(start, two) {
        HashesKeepApart(HashUnit(start, code), HashUnit(start, unit), after);
        UnitsKeepApart(start, start, code, unit);
      }
    } else {
      assert one[1..] == before[1..] + [code] + after && two[1..] == before[1..] + [unit] + after;
      OneUnitMatters(HashUnit(start, before[0]), before[1..], code, unit, after);
    }
  }

  // A character is one unit, or the surrogate pair that stands for it.
  lemma UnitsAre(c: char)
    ensures AreUnits(UnitsOf(c)) && (|UnitsOf(c)| == 1 || |UnitsOf(c)| == 2)
    ensures |UnitsOf(c)| == 1 ==> c as nat == UnitsOf(c)[0]
    ensures |UnitsOf(c)| == 2 ==>
              && 0xd800 <= UnitsOf(c)[0] < 0xdc00 <= UnitsOf(c)[1] < 0xe000
              && c as nat == 0x1_0000 + (UnitsOf(c)[0] - 0xd800) * 0x400 + (UnitsOf(c)[1] - 0xdc00)
  {
  }
}

module Shuffle {
  import opened Board
  import opened Words
  import opened SeededRandom

  function Swap<T>(s: seq<T>, i: nat, j: nat): (r: seq<T>)
    requires i < |s| && j < |s|
    ensures |r| == |s|
  {
    s[i := s[j]][j := s[i]]
  }

  // One draw for each index from the last down to 1, each at most that index.
  ghost predicate ValidDraws(draws: seq<nat>, n: nat) {
    && |draws| == (if n <= 1 then 0 else n - 1)
    && forall k :: 0 <= k < |draws| ==> draws[k] <= n - 1 - k
  }

  lemma TailDraws(draws: seq<nat>, n: nat)
    requires ValidDraws(draws, n) && n > 1
    ensures ValidDraws(draws[1..], n - 1)
  {
  }

  // The Fisher-Yates shuffle as a function of its draws.
  function Permute<T>(s: seq<T>, draws: seq<nat>): (r: seq<T>)
    requires ValidDraws(draws, |s|)
    ensures |r| == |s|
    decreases |s|
  {
    if |s| <= 1 then s
    else
      var last := |s| - 1;
      var t := Swap(s, last, draws[0]);
      TailDraws(draws, |s|);
      Permute(t[..last], draws[1..]) + [t[last]]
  }

  function ShuffleDraws(r: RandomState, n: nat): (result: (seq<nat>, RandomState))
    requires ValidRandomState(r) && n <= UINT32_RANGE
    ensures ValidDraws(result.0, n) && ValidRandomState(result.1)
    decreases n
  {
    if n <= 1 then ([], r)
    else
      var draw := NextInt(r, 0, n);
      var rest := ShuffleDraws(draw.1, n - 1);
      ([draw.0] + rest.0, rest.1)
  }

  // The draws follow one another: each is made from the state the one before it left, and is the
  // residue of its accepted word modulo the number of items still to place.
  ghost predicate DrawnInTurn(r: RandomState, n: nat, draws: seq<nat>, states: seq<RandomState>) {
    && |states| == |draws| + 1 && |draws| <= n && states[0] == r
    && forall k :: 0 <= k < |draws| ==>
         && ValidRandomState(states[k]) && StopsAt(states[k], n - k, states[k + 1])
         && draws[k] == Value(states[k + 1].state) % (n - k)
  }

  lemma DrawnBefore(r: RandomState, n: nat, draw: nat, draws: seq<nat>, states: seq<RandomState>)
    requires hide *; ValidRandomState(r) && n > 0 && |states| > 0 && DrawnInTurn(states[0], n - 1, draws, states)
    requires hide *; StopsAt(r, n, states[0]) && draw == Value(states[0].state) % n
    ensures DrawnInTurn(r, n, [draw] + draws, [r] + states)
  {
    hide ValidRandomState, StopsAt, Value;
    var (all, path) := ([draw] + draws, [r] + states);
    forall k | 0 <= k < |all|
      ensures ValidRandomState(path[k]) && StopsAt(path[k], n - k, path[k + 1])
      ensures all[k] == Value(path[k + 1].state) % (n - k)
    {
      if k > 0 {
        var j := k - 1;
        assert StopsAt(states[j], (n - 1) - j, states[j + 1]);
      }
    }
  }

  lemma {:induction false} DrawsFollow(r: RandomState, n: nat) returns (states: seq<RandomState>)
    requires ValidRandomState(r) && n <= UINT32_RANGE
    ensures var (draws, next) := ShuffleDraws(r, n);
            DrawnInTurn(r, n, draws, states) && states[|draws|] == next
    decreases n
  {
    hide NextInt, StopsAt, Value;
    if n <= 1 {
      states := [r];
    } else {
      var draw := NextInt(r, 0, n);
      NextIntStops(r, 0, n);
      var rest := DrawsFollow(draw.1, n - 1);
      DrawnBefore(r, n, draw.0, ShuffleDraws(draw.1, n - 1).0, rest);
      states := [r] + rest;
    }
  }

  lemma PermuteStep<T>(s: seq<T>, r: RandomState)
    requires ValidRandomState(r) && 1 < |s| <= UINT32_RANGE
    ensures var draw := NextInt(r, 0, |s|);
            var t := Swap(s, |s| - 1, draw.0);
            && Permute(s, ShuffleDraws(r, |s|).0)
            == Permute(t[..|s| - 1], ShuffleDraws(draw.1, |s| - 1).0) + [t[|s| - 1]]
            && ShuffleDraws(r, |s|).1 == ShuffleDraws(draw.1, |s| - 1).1
  {
    assert ShuffleDraws(r, |s|).0[1..] == ShuffleDraws(NextInt(r, 0, |s|).1, |s| - 1).0;
  }

  // The order the random state selects, and the state that is left.
  ghost predicate IsShuffle<T>(items: seq<T>, r: RandomState, shuffled: seq<T>, next: RandomState) {
    && ValidRandomState(r) && |items| <= UINT32_RANGE
    && shuffled == Permute(items, ShuffleDraws(r, |items|).0) && next == ShuffleDraws(r, |items|).1
  }

  method ShuffleWithRandom<T>(items: seq<T>, r: RandomState) returns (shuffled: seq<T>, next: RandomState)
    requires ValidRandomState(r) && |items| <= UINT32_RANGE
    ensures shuffled == Permute(items, ShuffleDraws(r, |items|).0)
    ensures next == ShuffleDraws(r, |items|).1
  {
    hide Permute, ShuffleDraws, NextInt;
    var a := new T[|items|](i requires 0 <= i < |items| => items[i]);
    next := r;
    var index := |items| - 1;
    ghost var prefix, done := items, [];
    while index >= 1
      invariant |prefix| == index + 1 && |prefix| + |done| == |items|
      invariant a[..] == prefix + done
      invariant ValidRandomState(next)
      invariant Permute(prefix, ShuffleDraws(next, index + 1).0) + done
             == Permute(items, ShuffleDraws(r, |items|).0)
      invariant ShuffleDraws(next, index + 1).1 == ShuffleDraws(r, |items|).1
    {
      PermuteStep(prefix, next);
      var draw := NextInt(next, 0, index + 1);
      next := draw.1;
      var selected, current := a[draw.0], a[index];
      a[index] := selected;
      a[draw.0] := current;
      ghost var swapped := Swap(prefix, index, draw.0);
      assert a[..] == swapped + done;
      prefix, done := swapped[..index], [swapped[index]] + done;
      index := index - 1;
    }
    PermuteTrivial(prefix, next);
    shuffled := a[..];
  }

  lemma PermuteTrivial<T>(s: seq<T>, r: RandomState)
    requires ValidRandomState(r) && |s| <= 1
    ensures Permute(s, ShuffleDraws(r, |s|).0) == s && ShuffleDraws(r, |s|).1 == r
  {
  }

  lemma SwapKeepsItems<T>(s: seq<T>, i: nat, j: nat)
    requires i < |s| && j < |s|
    ensures multiset(Swap(s, i, j)) == multiset(s)
  {
  }

  // For every draw vector the shuffle returns a permutation of its input.
  lemma {:induction false} PermuteIsPermutation<T>(s: seq<T>, draws: seq<nat>)
    requires ValidDraws(draws, |s|)
    ensures multiset(Permute(s, draws)) == multiset(s)
    decreases |s|
  {
    if |s| > 1 {
      var last := |s| - 1;
      var t := Swap(s, last, draws[0]);
      SwapKeepsItems(s, last, draws[0]);
      TailDraws(draws, |s|);
      PermuteIsPermutation(t[..last], draws[1..]);
      assert t == t[..last] + [t[last]];
    }
  }

  // Different draw vectors give different orders of distinct items.
  lemma {:induction false} PermuteIsInjective<T>(s: seq<T>, d: seq<nat>, e: seq<nat>)
    requires Distinct(s) && ValidDraws(d, |s|) && ValidDraws(e, |s|)
    requires Permute(s, d) == Permute(s, e)
    ensures d == e
    decreases |s|
  {
    if |s| > 1 {
      var last := |s| - 1;
      var t, u := Swap(s, last, d[0]), Swap(s, last, e[0]);
      TailDraws(d, |s|);
      TailDraws(e, |s|);
      assert Permute(s, d)[last] == s[d[0]] && Permute(s, e)[last] == s[e[0]];
      assert d[0] == e[0];
      assert Permute(s, d)[..last] == Permute(t[..last], d[1..]);
      assert Permute(s, e)[..last] == Permute(t[..last], e[1..]);
      PermuteIsInjective(t[..last], d[1..], e[1..]);
      assert d == [d[0]] + d[1..] && e == [e[0]] + e[1..];
    }
  }

  lemma PrefixesMatch<T>(t: seq<T>, target: seq<T>)
    requires |t| == |target| > 0 && multiset(t) == multiset(target) && t[|t| - 1] == target[|t| - 1]
    ensures multiset(t[..|t| - 1]) == multiset(target[..|t| - 1])
  {
    var last := |t| - 1;
    assert t == t[..last] + [t[last]] && target == target[..last] + [target[last]];
    assert multiset(t[..last]) == multiset(t) - multiset{t[last]};
    assert multiset(target[..last]) == multiset(target) - multiset{target[last]};
  }

  lemma PermuteFrom<T>(s: seq<T>, i: nat, rest: seq<nat>, target: seq<T>)
    requires |s| == |target| > 1 && i < |s| && s[i] == target[|s| - 1]
    requires ValidDraws(rest, |s| - 1)
    requires Permute(Swap(s, |s| - 1, i)[..|s| - 1], rest) == target[..|s| - 1]
    ensures ValidDraws([i] + rest, |s|) && Permute(s, [i] + rest) == target
  {
    assert ([i] + rest)[1..] == rest;
    assert target == target[..|s| - 1] + [target[|s| - 1]];
  }

  // Every order of the items comes from some draw vector.
  lemma {:induction false} PermuteIsSurjective<T>(s: seq<T>, target: seq<T>) returns (draws: seq<nat>)
    requires |s| == |target| && multiset(s) == multiset(target)
    ensures ValidDraws(draws, |s|) && Permute(s, draws) == target
    decreases |s|
  {
    if |s| <= 1 {
      draws := [];
      if |s| == 1 {
        assert s[0] in multiset(target);
      }
    } else {
      var i, t := BringLastInto(s, target);
      var rest := PermuteIsSurjective(t[..|s| - 1], target[..|s| - 1]);
      PermuteFrom(s, i, rest, target);
      draws := [i] + rest;
    }
  }

  lemma BringLastInto<T>(s: seq<T>, target: seq<T>) returns (i: nat, t: seq<T>)
    requires |s| == |target| > 1 && multiset(s) == multiset(target)
    ensures i < |s| && s[i] == target[|s| - 1] && t == Swap(s, |s| - 1, i)
    ensures multiset(t[..|s| - 1]) == multiset(target[..|s| - 1])
  {
    assert target[|s| - 1] in multiset(s);
    i :| 0 <= i < |s| && s[i] == target[|s| - 1];
    t := Swap(s, |s| - 1, i);
    SwapKeepsItems(s, |s| - 1, i);
    PrefixesMatch(t, target);
  }
}

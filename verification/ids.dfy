/**
 Short-id families: the reversible (tick, sequence) encoding and the durable
 allocator. No id of a family and agent is ever issued twice, whatever the
 clock does.
 */
module Ids {
  import opened Common
  import opened IdCodec

  datatype IdFamily = IdFamily(
    tickChars: nat, seqChars: nat, tickSeconds: nat,
    tickMultiplier: nat, tickOffset: nat,
    seqMultiplier: nat, seqOffset: nat, maskSeed: nat)
  {
    /** The checks made when a family is declared. */
    predicate Valid() {
      && tickChars > 0 && seqChars > 0 && tickSeconds > 0
      && (tickChars + seqChars) * 5 % 2 == 0
      && 0 < tickMultiplier < TickModulus() && 0 < seqMultiplier < SeqModulus()
      && tickOffset < TickModulus() && seqOffset < SeqModulus()
      && tickMultiplier % 2 == 1 && seqMultiplier % 2 == 1
    }

    function Width(): nat { tickChars + seqChars }

    function TickModulus(): nat { Bound(tickChars) }

    function SeqModulus(): nat { Bound(seqChars) }
  }

  datatype IdError =
    | Codec(error: CodecError)
    | TickOutOfRange
    | SeqOutOfRange
    | BeforeEpoch
    | BadAttempts
    | TicksExhausted
    | SeqExhausted
    | AttemptsExhausted

  datatype Place = Place(tick: nat, seqNo: nat)

  predicate Within(family: IdFamily, at: Place) {
    at.tick < family.TickModulus() && at.seqNo < family.SeqModulus()
  }

  // ---------------------------------------------------------------------
  // Affine codes modulo a power of two
  // ---------------------------------------------------------------------

  /** Lifts an inverse one bit at a time. */
  function Inverse(m: nat, bits: nat): (inverse: nat)
    requires m % 2 == 1
    ensures inverse < Pow2(bits) && (m * inverse - 1) % Pow2(bits) == 0
  {
    if bits == 0 then
      DividesOne(m * 0 - 1);
      0
    else
      var x := Inverse(m, bits - 1);
      Lift(m, x, Pow2(bits - 1));
      if (m * x - 1) / Pow2(bits - 1) % 2 == 0 then x else x + Pow2(bits - 1)
  }

  lemma DividesOne(n: int)
    ensures n % 1 == 0
  {
  }

  lemma Multiple(q: int, m: nat)
    requires m > 0
    ensures q * m % m == 0
  {
    QuotientUnique(q, 0, q * m / m, q * m % m, m);
  }

  lemma Halved(q: int, p: nat)
    requires p > 0 && q % 2 == 0
    ensures q * p % (2 * p) == 0
  {
    var h := q / 2;
    assert q == 2 * h;
    assert q * p == h * (2 * p);
    Multiple(h, 2 * p);
  }

  lemma Distribute(a: int, b: int, c: int)
    ensures a * (b + c) == a * b + a * c
    ensures a * (b - c) == a * b - a * c
  {
  }

  lemma Associate(a: int, b: int, c: int)
    ensures a * (b * c) == (a * b) * c
  {
  }

  lemma Lift(m: nat, x: nat, p: nat)
    requires m % 2 == 1 && p > 0 && (m * x - 1) % p == 0
    ensures var next := if (m * x - 1) / p % 2 == 0 then x else x + p;
            (m * next - 1) % (2 * p) == 0
  {
    var q := (m * x - 1) / p;
    Exact(m * x - 1, p);
    if q % 2 == 0 {
      Halved(q, p);
    } else {
      LiftOdd(m, x, p, q);
    }
  }

  lemma LiftOdd(m: nat, x: nat, p: nat, q: int)
    requires m % 2 == 1 && q % 2 == 1 && p > 0 && m * x - 1 == q * p
    ensures (m * (x + p) - 1) % (2 * p) == 0
  {
    EvenSum(q, m);
    OddProduct(m, x, p, q);
    HalvedIs(m * (x + p) - 1, q + m, p);
  }

  lemma EvenSum(a: int, b: int)
    requires a % 2 == 1 && b % 2 == 1
    ensures (a + b) % 2 == 0
  {
  }

  lemma HalvedIs(n: int, q: int, p: nat)
    requires p > 0 && q % 2 == 0 && n == q * p
    ensures n % (2 * p) == 0
  {
    Halved(q, p);
  }

  lemma OddProduct(m: int, x: int, p: int, q: int)
    requires m * x - 1 == q * p
    ensures m * (x + p) - 1 == (q + m) * p
  {
    Distribute(m, x, p);
    Distribute(p, q, m);
  }

  lemma Exact(n: int, p: nat)
    requires p > 0 && n % p == 0
    ensures n / p * p == n
  {
  }

  function AffineEncode(value: int, modulus: nat, multiplier: nat, offset: nat): (code: nat)
    requires modulus > 0
    ensures code < modulus
  {
    (multiplier * value + offset) % modulus
  }

  function AffineDecode(code: int, modulus: nat, inverse: nat, offset: nat): (value: nat)
    requires modulus > 0
    ensures value < modulus
  {
    inverse * (code - offset) % modulus
  }

  /** An odd multiplier gives a bijection, undone by the inverse. */
  lemma AffineDecodes(value: nat, modulus: nat, m: nat, inverse: nat, offset: nat)
    requires value < modulus && (m * inverse - 1) % modulus == 0
    ensures AffineDecode(AffineEncode(value, modulus, m, offset), modulus, inverse, offset) == value
  {
    hide *;
    var t := EncodesTo(value, modulus, m, offset);
    var s := Factor(m * inverse - 1, modulus);
    var x := Collapse(inverse, m, value, s, t, modulus);
    DecodesTo(AffineEncode(value, modulus, m, offset), modulus, inverse, offset, x, value);
  }

  lemma EncodesTo(value: int, modulus: nat, m: nat, offset: nat) returns (t: int)
    requires modulus > 0
    ensures AffineEncode(value, modulus, m, offset) - offset == m * value - t * modulus
  {
    t := Quotient(m * value + offset, modulus);
  }

  lemma DecodesTo(code: int, modulus: nat, inverse: nat, offset: nat, x: int, value: nat)
    requires value < modulus && inverse * (code - offset) == x * modulus + value
    ensures AffineDecode(code, modulus, inverse, offset) == value
  {
    Remainder(x, value, modulus);
  }

  lemma AffineEncodes(code: nat, modulus: nat, m: nat, inverse: nat, offset: nat)
    requires code < modulus && (m * inverse - 1) % modulus == 0
    ensures AffineEncode(AffineDecode(code, modulus, inverse, offset), modulus, m, offset) == code
  {
    var d := code - offset;
    var t := Quotient(inverse * d, modulus);
    var s := Factor(m * inverse - 1, modulus);
    var x := Collapse(m, inverse, d, s, t, modulus);
    var value := AffineDecode(code, modulus, inverse, offset);
    assert value == inverse * d - t * modulus;
    Remainder(x, code, modulus);
  }

  lemma Quotient(n: int, q: nat) returns (t: int)
    requires q > 0
    ensures n % q == n - t * q
  {
    t := n / q;
  }

  lemma Factor(n: int, q: nat) returns (s: int)
    requires q > 0 && n % q == 0
    ensures n == s * q
  {
    s := n / q;
    Exact(n, q);
  }

  /** A factor times its inverse, up to multiples of the modulus, leaves the rest. */
  lemma Collapse(a: int, b: int, d: int, s: int, t: int, q: int) returns (x: int)
    requires a * b == s * q + 1
    ensures a * (b * d - t * q) == x * q + d
  {
    x := s * d - a * t;
    Distribute(a, b * d, t * q);
    Associate(a, b, d);
    Associate(a, t, q);
    Distribute(d, s * q, 1);
    Associate(d, s, q);
    Distribute(q, s * d, a * t);
  }

  lemma Remainder(q: int, r: nat, m: nat)
    requires r < m
    ensures (q * m + r) % m == r
  {
    var n := q * m + r;
    QuotientUnique(q, r, n / m, n % m, m);
  }

  // ---------------------------------------------------------------------
  // Encoding a place
  // ---------------------------------------------------------------------

  function TickMask(family: IdFamily, tick: nat): (mask: nat)
    ensures mask < family.SeqModulus()
  {
    var folded := Xor(tick, tick / Pow2(7));
    var spread := Xor(folded, folded / Pow2(13));
    Xor(spread, family.maskSeed) % family.SeqModulus()
  }

  /** Low ticks are not folded: the mask is the seed with the tick mixed in. */
  lemma LowTickMask(family: IdFamily, tick: nat)
    requires tick < 128
    ensures TickMask(family, tick) == Xor(tick, family.maskSeed) % family.SeqModulus()
  {
    hide *;
    SmallPowers();
    XorNothing(tick);
    MaskIs(family, tick);
    assert tick / 128 == 0 && tick / 8192 == 0;
  }

  lemma MaskIs(family: IdFamily, tick: nat)
    ensures var folded := Xor(tick, tick / Pow2(7));
            TickMask(family, tick) == Xor(Xor(folded, folded / Pow2(13)), family.maskSeed) % family.SeqModulus()
  {
    hide Xor, Pow2;
  }

  lemma SmallPowers()
    ensures Pow2(7) == 128 && Pow2(13) == 8192
  {
    assert Pow2(3) == 8;
    assert Pow2(6) == 64;
    assert Pow2(9) == 512;
    assert Pow2(12) == 4096;
  }

  lemma {:induction false} XorNothing(a: nat)
    ensures Xor(a, 0) == a
  {
    if a != 0 {
      XorNothing(a / 2);
    }
  }

  function TickCode(family: IdFamily, tick: nat): (code: nat)
    ensures code < family.TickModulus()
  {
    AffineEncode(tick, family.TickModulus(), family.tickMultiplier, family.tickOffset)
  }

  function SeqCode(family: IdFamily, at: Place): (code: nat)
    ensures code < family.SeqModulus()
  {
    AffineEncode(Xor(at.seqNo, TickMask(family, at.tick)), family.SeqModulus(), family.seqMultiplier, family.seqOffset)
  }

  function RawCode(family: IdFamily, at: Place): nat {
    Compose(TickCode(family, at.tick), SeqCode(family, at), family.SeqModulus())
  }

  function HalfBits(family: IdFamily): nat {
    5 * family.Width() / 2
  }

  function WireCode(family: IdFamily, f: Round, at: Place): nat {
    Scrambled(RawCode(family, at), f, HalfBits(family))
  }

  /** The id text of a place, for the agent whose key selects `f`. */
  function IdText(family: IdFamily, f: Round, at: Place): string {
    Digits(WireCode(family, f, at), family.Width())
  }

  function PlaceOf(family: IdFamily, raw: nat): Place
    requires family.Valid()
  {
    var tick := AffineDecode(
                  High(raw, family.SeqModulus()), family.TickModulus(),
                  Inverse(family.tickMultiplier, 5 * family.tickChars), family.tickOffset);
    var mixed := AffineDecode(
                   Low(raw, family.SeqModulus()), family.SeqModulus(),
                   Inverse(family.seqMultiplier, 5 * family.seqChars), family.seqOffset);
    Place(tick, Xor(mixed, TickMask(family, tick)))
  }

  /** The place a canonical text stands for. */
  function TextPlace(family: IdFamily, f: Round, text: string): Place
    requires family.Valid() && Canonical(text)
  {
    PlaceOf(family, Unscrambled(Value(text), f, HalfBits(family)))
  }

  lemma RawBound(family: IdFamily)
    requires family.Valid()
    ensures family.TickModulus() * family.SeqModulus() == Bound(family.Width())
    ensures Bound(family.Width()) == Pow2(HalfBits(family) + HalfBits(family))
  {
    BoundIsPow2(family.tickChars);
    BoundIsPow2(family.seqChars);
    BoundIsPow2(family.Width());
    Pow2Sum(5 * family.tickChars, 5 * family.seqChars);
    assert HalfBits(family) + HalfBits(family) == 5 * family.Width();
  }

  lemma InverseOf(m: nat, chars: nat)
    requires m % 2 == 1
    ensures (m * Inverse(m, 5 * chars) - 1) % Bound(chars) == 0
  {
    BoundIsPow2(chars);
  }

  lemma MixFits(a: nat, b: nat, chars: nat)
    requires a < Bound(chars) && b < Bound(chars)
    ensures Xor(a, b) < Bound(chars)
  {
    BoundIsPow2(chars);
    XorFits(a, b, 5 * chars);
  }

  lemma RawDecodes(family: IdFamily, at: Place)
    requires family.Valid() && Within(family, at)
    ensures RawCode(family, at) < Bound(family.Width()) && PlaceOf(family, RawCode(family, at)) == at
  {
    hide Bound, Pow2, Xor, TickMask, AffineEncode, AffineDecode, Inverse, High, Low, Compose;
    var tick, code := TickCode(family, at.tick), SeqCode(family, at);
    RawBound(family);
    Composed(tick, code, family.TickModulus(), family.SeqModulus());
    InverseOf(family.tickMultiplier, family.tickChars);
    AffineDecodes(at.tick, family.TickModulus(), family.tickMultiplier,
                  Inverse(family.tickMultiplier, 5 * family.tickChars), family.tickOffset);
    var mask := TickMask(family, at.tick);
    MixFits(at.seqNo, mask, family.seqChars);
    InverseOf(family.seqMultiplier, family.seqChars);
    AffineDecodes(Xor(at.seqNo, mask), family.SeqModulus(), family.seqMultiplier,
                  Inverse(family.seqMultiplier, 5 * family.seqChars), family.seqOffset);
    XorUndoes(at.seqNo, mask);
  }

  lemma TickEncodes(family: IdFamily, code: nat)
    requires family.Valid() && code < family.TickModulus()
    ensures var inverse := Inverse(family.tickMultiplier, 5 * family.tickChars);
            TickCode(family, AffineDecode(code, family.TickModulus(), inverse, family.tickOffset)) == code
  {
    hide Bound, AffineEncode, AffineDecode, Inverse;
    InverseOf(family.tickMultiplier, family.tickChars);
    AffineEncodes(code, family.TickModulus(), family.tickMultiplier,
                  Inverse(family.tickMultiplier, 5 * family.tickChars), family.tickOffset);
  }

  lemma SeqEncodes(family: IdFamily, code: nat, tick: nat)
    requires family.Valid() && code < family.SeqModulus()
    ensures var inverse := Inverse(family.seqMultiplier, 5 * family.seqChars);
            var mixed := AffineDecode(code, family.SeqModulus(), inverse, family.seqOffset);
            var seqNo := Xor(mixed, TickMask(family, tick));
            seqNo < family.SeqModulus() && SeqCode(family, Place(tick, seqNo)) == code
  {
    hide Bound, Xor, TickMask, AffineEncode, AffineDecode, Inverse;
    var inverse := Inverse(family.seqMultiplier, 5 * family.seqChars);
    var mixed := AffineDecode(code, family.SeqModulus(), inverse, family.seqOffset);
    InverseOf(family.seqMultiplier, family.seqChars);
    AffineEncodes(code, family.SeqModulus(), family.seqMultiplier, inverse, family.seqOffset);
    MixFits(mixed, TickMask(family, tick), family.seqChars);
    XorUndoes(mixed, TickMask(family, tick));
  }

  lemma RawEncodes(family: IdFamily, raw: nat)
    requires family.Valid() && raw < Bound(family.Width())
    ensures Within(family, PlaceOf(family, raw)) && RawCode(family, PlaceOf(family, raw)) == raw
  {
    hide Bound, Pow2, Xor, TickMask, AffineEncode, AffineDecode, Inverse, High, Low, Compose;
    var m := family.SeqModulus();
    RawBound(family);
    Decomposed(raw, family.TickModulus(), m);
    TickEncodes(family, High(raw, m));
    SeqEncodes(family, Low(raw, m), PlaceOf(family, raw).tick);
  }

  /** Decoding inverts encoding, for every key, multiplier and mask. */
  lemma DecodeEncode(family: IdFamily, f: Round, at: Place)
    requires family.Valid() && Within(family, at)
    ensures var text := IdText(family, f, at);
            |text| == family.Width() && Canonical(text) && TextPlace(family, f, text) == at
  {
    hide RawCode, PlaceOf, Scrambled, Unscrambled, Bound, Pow2, Digits, Value;
    RawDecodes(family, at);
    RawBound(family);
    ScrambleBijective(RawCode(family, at), f, HalfBits(family));
    ValueOfDigits(WireCode(family, f, at), family.Width());
  }

  /** Every canonical text of the right width is the id of exactly one place. */
  lemma EncodeDecode(family: IdFamily, f: Round, text: string)
    requires family.Valid() && Canonical(text) && |text| == family.Width()
    ensures Within(family, TextPlace(family, f, text))
    ensures IdText(family, f, TextPlace(family, f, text)) == text
  {
    hide RawCode, PlaceOf, Scrambled, Unscrambled, Bound, Pow2, Digits, Value, Within;
    DigitsOfValue(text);
    RawBound(family);
    ScrambleBijective(Value(text), f, HalfBits(family));
    RawEncodes(family, Unscrambled(Value(text), f, HalfBits(family)));
  }

  lemma IdsDistinct(family: IdFamily, f: Round, a: Place, b: Place)
    requires family.Valid() && Within(family, a) && Within(family, b)
    ensures IdText(family, f, a) == IdText(family, f, b) ==> a == b
  {
    hide IdText, TextPlace;
    DecodeEncode(family, f, a);
    DecodeEncode(family, f, b);
  }

  lemma WireFits(family: IdFamily, f: Round, at: Place)
    requires family.Valid() && Within(family, at)
    ensures family.Width() > 0 && family.Width() % 2 == 0
    ensures RawCode(family, at) < Bound(family.Width()) && WireCode(family, f, at) < Bound(family.Width())
  {
    hide *;
    WidthIs(family);
    RawDecodes(family, at);
    RawBound(family);
    WireScrambles(family, f, at);
    ScrambleBijective(RawCode(family, at), f, HalfBits(family));
  }

  lemma WidthIs(family: IdFamily)
    requires family.Valid()
    ensures family.Width() > 0 && family.Width() % 2 == 0
  {
    hide IdFamily.TickModulus, IdFamily.SeqModulus;
    HalfOfFive(family.tickChars + family.seqChars);
  }

  lemma HalfOfFive(n: nat)
    requires n * 5 % 2 == 0
    ensures n % 2 == 0
  {
    assert n * 5 == 2 * (2 * n) + n;
  }

  lemma WireScrambles(family: IdFamily, f: Round, at: Place)
    ensures WireCode(family, f, at) == Scrambled(RawCode(family, at), f, HalfBits(family))
  {
    hide Scrambled, RawCode, HalfBits;
  }

  method EncodeId(family: IdFamily, f: Round, tick: int, seqNo: int) returns (text: Result<string, IdError>)
    requires family.Valid()
    ensures !(0 <= tick < family.TickModulus()) ==> text == Err(TickOutOfRange)
    ensures 0 <= tick < family.TickModulus() && !(0 <= seqNo < family.SeqModulus()) ==> text == Err(SeqOutOfRange)
    ensures 0 <= tick < family.TickModulus() && 0 <= seqNo < family.SeqModulus() ==>
              text == Ok(IdText(family, f, Place(tick, seqNo)))
  {
    if !(0 <= tick < family.TickModulus()) {
      return Err(TickOutOfRange);
    }
    if !(0 <= seqNo < family.SeqModulus()) {
      return Err(SeqOutOfRange);
    }
    hide RawCode, Scrambled, Bound, Pow2, Digits, IdFamily.Valid, IdFamily.Width;
    var at := Place(tick, seqNo);
    WireFits(family, f, at);
    var wire := ScrambleId(RawCode(family, at), family.Width(), f, false);
    var encoded := EncodeShortId(wire.value, family.Width());
    text := Ok(encoded.value);
  }

  /** Decodes a text the way it is typed: stripped, in any case. */
  method DecodeId(family: IdFamily, f: Round, value: string, normal: string -> string)
    returns (at: Result<Place, IdError>)
    requires family.Valid()
    requires normal(normal(value)) == normal(value)
    ensures var text := normal(value);
            at == if |text| != family.Width() then Err(Codec(BadLength))
                  else if !Canonical(text) then Err(Codec(BadCharacter))
                  else Ok(TextPlace(family, f, text))
  {
    var text := normal(value);
    if |text| != family.Width() {
      return Err(Codec(BadLength));
    }
    hide PlaceOf, Unscrambled, Bound, Pow2, Value;
    var wire := DecodeShortId(text, family.Width(), normal);
    if wire.Err? {
      return Err(Codec(wire.error));
    }
    DigitsOfValue(text);
    var raw := ScrambleId(wire.value, family.Width(), f, true);
    at := Ok(PlaceOf(family, raw.value));
  }

  // ---------------------------------------------------------------------
  // Reserving
  // ---------------------------------------------------------------------

  /** The last reservation; -1 before the first one. */
  datatype AllocatorState = AllocatorState(lastTick: int, lastSeq: int)

  const FRESH := AllocatorState(-1, -1)

  predicate Stored(family: IdFamily, state: AllocatorState) {
    || state == FRESH
    || (0 <= state.lastTick < family.TickModulus() && -1 <= state.lastSeq < family.SeqModulus())
  }

  predicate Later(state: AllocatorState, at: Place) {
    at.tick > state.lastTick || (at.tick == state.lastTick && at.seqNo > state.lastSeq)
  }

  /** The clock's bucket holds the clock. */
  lemma ClockBucket(now: nat, width: nat)
    requires width > 0
    ensures now / width * width <= now < now / width * width + width
  {
    assert now == now / width * width + now % width;
  }

  function TickNow(family: IdFamily, now: nat): nat
    requires family.Valid()
  {
    now / family.tickSeconds
  }

  /** The bucket to draw from: never behind the last one, whatever the clock says. */
  function Bucket(family: IdFamily, state: AllocatorState, now: nat): (bucket: int)
    requires family.Valid()
    ensures bucket >= state.lastTick && bucket * family.tickSeconds > now - family.tickSeconds
    ensures bucket == state.lastTick || bucket * family.tickSeconds <= now
  {
    ClockBucket(now, family.tickSeconds);
    if TickNow(family, now) < state.lastTick then state.lastTick else TickNow(family, now)
  }

  function FirstSeq(family: IdFamily, state: AllocatorState, now: nat): int
    requires family.Valid()
  {
    if Bucket(family, state, now) > state.lastTick then 0 else state.lastSeq + 1
  }

  /** Sequence numbers start at the least one that makes the place later than the last. */
  lemma FirstIsLeast(family: IdFamily, state: AllocatorState, now: nat, n: nat)
    requires family.Valid() && Stored(family, state) && Bucket(family, state, now) >= 0
    ensures Later(state, Place(Bucket(family, state, now), n)) <==> n >= FirstSeq(family, state, now)
  {
  }

  function Refusal(family: IdFamily, state: AllocatorState, now: int, maxAttempts: int): IdError
    requires family.Valid()
  {
    if maxAttempts <= 0 then BadAttempts
    else if now < 0 then BeforeEpoch
    else if Bucket(family, state, now) >= family.TickModulus() then TicksExhausted
    else if FirstSeq(family, state, now) + maxAttempts > family.SeqModulus() then SeqExhausted
    else AttemptsExhausted
  }

  /** `now` counts seconds from the epoch; `exists_` says which texts are taken. */
  method ReserveNextId(
    state: AllocatorState, family: IdFamily, f: Round, now: int, exists_: string -> bool, maxAttempts: int)
    returns (r: Result<(string, Place), IdError>)
    requires family.Valid() && Stored(family, state)
    ensures r.Ok? ==>
              && now >= 0 && maxAttempts > 0
              && var (text, at) := r.value;
              && text == IdText(family, f, at) && !exists_(text)
              && Within(family, at) && Later(state, at)
              && at.tick == Bucket(family, state, now)
              && FirstSeq(family, state, now) <= at.seqNo < FirstSeq(family, state, now) + maxAttempts
              && forall k: nat :: FirstSeq(family, state, now) <= k < at.seqNo ==>
                   exists_(IdText(family, f, Place(at.tick, k)))
    ensures r.Err? ==>
              r.error == Refusal(family, state, now, maxAttempts)
    ensures r.Err? && maxAttempts > 0 && 0 <= now && Bucket(family, state, now) < family.TickModulus() ==>
              forall k: nat ::
                FirstSeq(family, state, now) <= k < FirstSeq(family, state, now) + maxAttempts
                && k < family.SeqModulus() ==>
                exists_(IdText(family, f, Place(Bucket(family, state, now), k)))
  {
    hide IdText;
    if maxAttempts <= 0 {
      return Err(BadAttempts);
    }
    if now < 0 {
      return Err(BeforeEpoch);
    }
    var tick: nat := Bucket(family, state, now);
    if tick >= family.TickModulus() {
      return Err(TicksExhausted);
    }
    var next: nat := FirstSeq(family, state, now);
    for attempt := 0 to maxAttempts
      invariant next == FirstSeq(family, state, now) + attempt
      invariant attempt > 0 ==> next <= family.SeqModulus()
      invariant forall k: nat :: FirstSeq(family, state, now) <= k < next ==>
                  exists_(IdText(family, f, Place(tick, k)))
    {
      if next >= family.SeqModulus() {
        return Err(SeqExhausted);
      }
      var text := EncodeId(family, f, tick, next);
      if !exists_(text.value) {
        return Ok((text.value, Place(tick, next)));
      }
      next := next + 1;
    }
    r := Err(AttemptsExhausted);
  }

  // ---------------------------------------------------------------------
  // The durable allocator
  // ---------------------------------------------------------------------

  function StateOf(at: Place): AllocatorState {
    AllocatorState(at.tick, at.seqNo)
  }

  predicate Increasing(places: seq<Place>) {
    forall i, j :: 0 <= i < j < |places| ==> Later(StateOf(places[i]), places[j])
  }

  /** One family's allocator row, with every id ever issued from it. */
  class Allocator {
    const family: IdFamily
    const round: Round
    var row: Option<AllocatorState>
    ghost var issued: seq<Place>
    ghost var texts: seq<string>

    ghost predicate Valid()
      reads this
    {
      && family.Valid() && |texts| == |issued| && Increasing(issued)
      && (forall i :: 0 <= i < |issued| ==> Within(family, issued[i]) && texts[i] == IdText(family, round, issued[i]))
      && (row.None? <==> issued == [])
      && (row.Some? ==> row.value == StateOf(issued[|issued| - 1]))
    }

    constructor (family: IdFamily, round: Round)
      requires family.Valid()
      ensures Valid() && issued == [] && this.family == family && this.round == round
    {
      this.family, this.round := family, round;
      row, issued, texts := None, [], [];
    }

    /** Reserves and commits in one transaction; a failure issues nothing. */
    method Allocate(now: int, exists_: string -> bool, maxAttempts: int) returns (r: Result<string, IdError>)
      requires Valid()
      modifies this
      ensures Valid()
      ensures r.Err? ==> row == old(row) && issued == old(issued) && texts == old(texts)
      ensures r.Ok? ==> texts == old(texts) + [r.value] && r.value !in old(texts) && !exists_(r.value)
      ensures r.Ok? ==> |issued| == |old(issued)| + 1 && issued[..|old(issued)|] == old(issued)
    {
      hide IdText, Later, Within, IdFamily.Valid;
      var state := if row.Some? then row.value else FRESH;
      RowStored();
      var reserved := ReserveNextId(state, family, round, now, exists_, maxAttempts);
      if reserved.Err? {
        return Err(reserved.error);
      }
      var (text, at) := reserved.value;
      ExtendsIssued(issued, at, state);
      NeverIssued(at, text);
      row := Some(StateOf(at));
      issued, texts := issued + [at], texts + [text];
      r := Ok(text);
    }

    lemma RowStored()
      requires Valid()
      ensures Stored(family, if row.Some? then row.value else FRESH)
    {
      if row.Some? {
        assert Within(family, issued[|issued| - 1]);
      }
    }

    lemma NeverIssued(at: Place, text: string)
      requires Valid() && Increasing(issued + [at]) && Within(family, at) && text == IdText(family, round, at)
      ensures text !in texts
    {
      hide IdText;
      forall i | 0 <= i < |texts| ensures texts[i] != text {
        assert Later(StateOf((issued + [at])[i]), (issued + [at])[|issued|]);
        IdsDistinct(family, round, issued[i], at);
      }
    }

    /** All ids of one family and agent are pairwise different. */
    lemma NoRepeats(i: nat, j: nat)
      requires Valid() && i < j < |texts|
      ensures texts[i] != texts[j]
    {
      hide IdText;
      assert Later(StateOf(issued[i]), issued[j]);
      IdsDistinct(family, round, issued[i], issued[j]);
    }
  }

  lemma ExtendsIssued(issued: seq<Place>, at: Place, state: AllocatorState)
    requires Increasing(issued) && Later(state, at)
    requires state == if issued == [] then FRESH else StateOf(issued[|issued| - 1])
    ensures Increasing(issued + [at])
  {
    var all := issued + [at];
    forall i, j | 0 <= i < j < |all| ensures Later(StateOf(all[i]), all[j]) {
      if j == |issued| && i < |issued| - 1 {
        assert Later(StateOf(issued[i]), issued[|issued| - 1]);
      }
    }
  }
}

/**
 The reversible halves of a short id: fixed-width Base32 and a keyed four-round
 Feistel permutation. Masks, shifts and disjoint ORs on unsigned values are
 written as remainders, quotients and sums of powers of two.
 */
module IdCodec {
  import opened Common

  const ALPHABET := "0123456789abcdefghjkmnpqrstvwxyz"
  const FEISTEL_ROUNDS: nat := 4

  datatype CodecError = BadWidth | OutOfRange | OddBits | BadLength | BadCharacter

  // ---------------------------------------------------------------------
  // Powers and exclusive or
  // ---------------------------------------------------------------------

  function Pow2(n: nat): (p: nat)
    ensures p > 0
  {
    if n == 0 then 1 else 2 * Pow2(n - 1)
  }

  lemma {:induction false} Pow2Sum(m: nat, n: nat)
    ensures Pow2(m + n) == Pow2(m) * Pow2(n)
  {
    if m != 0 {
      Pow2Sum(m - 1, n);
      assert Pow2(m + n) == 2 * Pow2(m - 1 + n);
    }
  }

  function Xor(a: nat, b: nat): nat {
    if a == 0 && b == 0 then 0
    else 2 * Xor(a / 2, b / 2) + if a % 2 == b % 2 then 0 else 1
  }

  /** Mixing the same mask twice restores the value. */
  lemma {:induction false} XorUndoes(a: nat, b: nat)
    ensures Xor(Xor(a, b), b) == a
  {
    if a != 0 || b != 0 {
      XorUndoes(a / 2, b / 2);
      var mixed := Xor(a, b);
      assert mixed / 2 == Xor(a / 2, b / 2);
    }
  }

  lemma {:induction false} XorFits(a: nat, b: nat, n: nat)
    requires a < Pow2(n) && b < Pow2(n)
    ensures Xor(a, b) < Pow2(n)
  {
    if n != 0 && (a != 0 || b != 0) {
      XorFits(a / 2, b / 2, n - 1);
    }
  }

  // ---------------------------------------------------------------------
  // Base32
  // ---------------------------------------------------------------------

  function Bound(width: nat): (p: nat)
    ensures p > 0
  {
    if width == 0 then 1 else 32 * Bound(width - 1)
  }

  lemma {:induction false} BoundIsPow2(width: nat)
    ensures Bound(width) == Pow2(5 * width)
  {
    if width != 0 {
      BoundIsPow2(width - 1);
      Pow2Sum(5, 5 * (width - 1));
      assert Pow2(5) == 32;
    }
  }

  /** The digit symbols, range by range of `ALPHABET`. */
  function Glyph(digit: nat): char
    requires digit < 32
  {
    if digit < 10 then '0' + digit as char
    else if digit < 18 then 'a' + (digit - 10) as char
    else if digit < 20 then 'j' + (digit - 18) as char
    else if digit < 22 then 'm' + (digit - 20) as char
    else if digit < 27 then 'p' + (digit - 22) as char
    else 'v' + (digit - 27) as char
  }

  lemma GlyphsSpellAlphabet()
    ensures seq(32, i requires 0 <= i < 32 => Glyph(i)) == ALPHABET
  {
  }

  function Lookup(c: char): (digit: Option<nat>)
    ensures digit.Some? ==> digit.value < 32 && Glyph(digit.value) == c
    ensures digit.None? ==> forall d: nat :: d < 32 ==> Glyph(d) != c
  {
    LookupFrom(c, 0)
  }

  function LookupFrom(c: char, i: nat): (digit: Option<nat>)
    requires i <= 32
    ensures digit.Some? ==> digit.value < 32 && Glyph(digit.value) == c
    ensures digit.None? ==> forall d: nat :: i <= d < 32 ==> Glyph(d) != c
    decreases 32 - i
  {
    if i == 32 then None else if Glyph(i) == c then Some(i) else LookupFrom(c, i + 1)
  }

  lemma LookupGlyph(digit: nat)
    requires digit < 32
    ensures Lookup(Glyph(digit)) == Some(digit)
  {
    var found := Lookup(Glyph(digit));
    assert found.Some? && Glyph(found.value) == Glyph(digit);
  }

  function Digits(value: nat, width: nat): (text: string)
    ensures |text| == width
  {
    if width == 0 then ""
    else Digits(value / 32, width - 1) + [Glyph(value % 32)]
  }

  predicate Canonical(text: string) {
    forall i :: 0 <= i < |text| ==> Lookup(text[i]).Some?
  }

  function Value(text: string): nat
    requires Canonical(text)
  {
    if text == "" then 0
    else Value(text[..|text| - 1]) * 32 + Lookup(text[|text| - 1]).value
  }

  lemma {:induction false} ValueOfDigits(value: nat, width: nat)
    requires value < Bound(width)
    ensures Canonical(Digits(value, width)) && Value(Digits(value, width)) == value
  {
    if width != 0 {
      ValueOfDigits(value / 32, width - 1);
      var text := Digits(value, width);
      assert text[..width - 1] == Digits(value / 32, width - 1);
      LookupGlyph(value % 32);
    }
  }

  lemma {:induction false} DigitsOfValue(text: string)
    requires Canonical(text)
    ensures Value(text) < Bound(|text|) && Digits(Value(text), |text|) == text
  {
    hide *;
    if text == "" {
      NoDigits();
    } else {
      var digit := ValueSnoc(text);
      var init := text[..|text| - 1];
      DigitsOfValue(init);
      DigitsSnoc(Value(init), digit, |text|);
    }
  }

  lemma NoDigits()
    ensures Value("") == 0 && Bound(0) == 1 && Digits(0, 0) == ""
  {
  }

  lemma ValueSnoc(text: string) returns (digit: nat)
    requires Canonical(text) && text != ""
    ensures Canonical(text[..|text| - 1]) && digit < 32
    ensures Value(text) == Value(text[..|text| - 1]) * 32 + digit
    ensures text == text[..|text| - 1] + [Glyph(digit)]
  {
    hide Glyph;
    digit := Lookup(text[|text| - 1]).value;
  }

  lemma DigitsSnoc(value: nat, digit: nat, width: nat)
    requires width > 0 && digit < 32
    ensures Digits(value * 32 + digit, width) == Digits(value, width - 1) + [Glyph(digit)]
    ensures value < Bound(width - 1) ==> value * 32 + digit < Bound(width)
  {
    hide Glyph;
  }

  predicate InRange(value: int, width: int) {
    width > 0 && 0 <= value < Bound(width)
  }

  function RangeError(width: int): CodecError {
    if width <= 0 then BadWidth else OutOfRange
  }

  method EncodeShortId(value: int, width: int) returns (text: Result<string, CodecError>)
    ensures width > 0 && 0 <= value < Bound(width) ==> text == Ok(Digits(value, width))
    ensures width > 0 && !(0 <= value < Bound(width)) ==> text == Err(OutOfRange)
    ensures width <= 0 ==> text == Err(BadWidth)
  {
    hide Digits, Glyph, Bound;
    if !InRange(value, width) {
      return Err(RangeError(width));
    }
    var chars := new char[width](_ => '0');
    var rest: nat := value;
    for index := width downto 0
      invariant Digits(value, width) == Digits(rest, index) + chars[index..]
    {
      DigitsStep(rest, index + 1, chars[index + 1..]);
      chars[index] := Glyph(rest % 32);
      assert chars[index..] == [Glyph(rest % 32)] + chars[index + 1..];
      rest := rest / 32;
    }
    DigitsEnd(rest, chars[0..]);
    assert chars[0..] == chars[..];
    text := Ok(chars[..]);
  }

  lemma DigitsStep(rest: nat, width: nat, done: string)
    requires width > 0
    ensures Digits(rest, width) + done == Digits(rest / 32, width - 1) + ([Glyph(rest % 32)] + done)
  {
    hide Glyph;
  }

  lemma DigitsEnd(rest: nat, done: string)
    ensures Digits(rest, 0) + done == done
  {
  }

  /** `normal` stands for stripping and lower-casing; it keeps canonical text. */
  method DecodeShortId(value: string, width: nat, normal: string -> string)
    returns (decoded: Result<nat, CodecError>)
    ensures var text := normal(value);
            decoded == if |text| != width then Err(BadLength)
                       else if !Canonical(text) then Err(BadCharacter)
                       else Ok(Value(text))
  {
    var text := normal(value);
    if |text| != width {
      return Err(BadLength);
    }
    var sum: nat := 0;
    for i := 0 to |text|
      invariant Canonical(text[..i]) && sum == Value(text[..i])
    {
      assert text[..i + 1][..i] == text[..i];
      var digit := Lookup(text[i]);
      if digit.None? {
        return Err(BadCharacter);
      }
      sum := sum * 32 + digit.value;
    }
    assert text[..|text|] == text;
    decoded := Ok(sum);
  }

  // ---------------------------------------------------------------------
  // Feistel permutation
  // ---------------------------------------------------------------------

  /** The keyed round function: any function of the round and one half. */
  type Round = (nat, nat) -> nat

  datatype Halves = Halves(left: nat, right: nat)

  predicate Fits(h: Halves, bits: nat) {
    h.left < Pow2(bits) && h.right < Pow2(bits)
  }

  function Masked(f: Round, index: nat, value: nat, bits: nat): (r: nat)
    ensures r < Pow2(bits)
  {
    f(index, value) % Pow2(bits)
  }

  function Forth(h: Halves, f: Round, index: nat, bits: nat): Halves {
    Halves(h.right, Xor(h.left, Masked(f, index, h.right, bits)))
  }

  function Back(h: Halves, f: Round, index: nat, bits: nat): Halves {
    Halves(Xor(h.right, Masked(f, index, h.left, bits)), h.left)
  }

  /** Rounds 0 to n - 1. */
  function Forward(h: Halves, f: Round, n: nat, bits: nat): Halves {
    if n == 0 then h else Forth(Forward(h, f, n - 1, bits), f, n - 1, bits)
  }

  /** Undoes rounds n - 1 down to 0. */
  function Backward(h: Halves, f: Round, n: nat, bits: nat): Halves
    decreases n
  {
    if n == 0 then h
    else
      Backward(Back(h, f, n - 1, bits), f, n - 1, bits)
  }

  lemma {:induction false} BackwardUndoesForward(h: Halves, f: Round, n: nat, bits: nat)
    ensures Backward(Forward(h, f, n, bits), f, n, bits) == h
  {
    if n != 0 {
      var before := Forward(h, f, n - 1, bits);
      XorUndoes(before.left, Masked(f, n - 1, before.right, bits));
      BackwardUndoesForward(h, f, n - 1, bits);
    }
  }

  lemma {:induction false} ForwardUndoesBackward(h: Halves, f: Round, n: nat, bits: nat)
    ensures Forward(Backward(h, f, n, bits), f, n, bits) == h
    decreases n
  {
    if n != 0 {
      XorUndoes(h.right, Masked(f, n - 1, h.left, bits));
      ForwardUndoesBackward(Back(h, f, n - 1, bits), f, n - 1, bits);
    }
  }

  lemma {:induction false} ForwardFits(h: Halves, f: Round, n: nat, bits: nat)
    requires Fits(h, bits)
    ensures Fits(Forward(h, f, n, bits), bits)
  {
    if n != 0 {
      ForwardFits(h, f, n - 1, bits);
      var before := Forward(h, f, n - 1, bits);
      XorFits(before.left, Masked(f, n - 1, before.right, bits), bits);
    }
  }

  lemma {:induction false} BackwardFits(h: Halves, f: Round, n: nat, bits: nat)
    requires Fits(h, bits)
    ensures Fits(Backward(h, f, n, bits), bits)
    decreases n
  {
    if n != 0 {
      XorFits(h.right, Masked(f, n - 1, h.left, bits), bits);
      BackwardFits(Back(h, f, n - 1, bits), f, n - 1, bits);
    }
  }

  function High(value: nat, m: nat): nat
    requires m > 0
  {
    value / m
  }

  function Low(value: nat, m: nat): (low: nat)
    requires m > 0
    ensures low < m
  {
    value % m
  }

  function Compose(high: nat, low: nat, m: nat): nat {
    high * m + low
  }

  function Split(value: nat, bits: nat): Halves {
    Halves(High(value, Pow2(bits)), Low(value, Pow2(bits)))
  }

  function Join(h: Halves, bits: nat): nat {
    Compose(h.left, h.right, Pow2(bits))
  }

  lemma Spread(q: int, other: int, m: int)
    requires q < other && 0 < m
    ensures q * m + m <= other * m
  {
    assert (other - q - 1) * m >= 0;
    assert other * m == (other - q - 1) * m + q * m + m;
  }

  lemma QuotientUnique(q: int, r: int, other: int, rest: int, m: int)
    requires 0 <= r < m && 0 <= rest < m && q * m + r == other * m + rest
    ensures q == other && r == rest
  {
    if q < other {
      Spread(q, other, m);
    } else if other < q {
      Spread(other, q, m);
    }
  }

  lemma Composed(high: nat, low: nat, n: nat, m: nat)
    requires high < n && low < m
    ensures High(Compose(high, low, m), m) == high && Low(Compose(high, low, m), m) == low
    ensures Compose(high, low, m) < n * m
  {
    var value := high * m + low;
    QuotientUnique(high, low, value / m, value % m, m);
    if high + 1 < n {
      Spread(high + 1, n, m);
    }
    assert (high + 1) * m == high * m + m;
  }

  lemma Decomposed(value: nat, n: nat, m: nat)
    requires 0 < m && value < n * m
    ensures High(value, m) < n && Compose(High(value, m), Low(value, m), m) == value
  {
    if n < value / m {
      Spread(n, value / m, m);
    }
  }

  lemma SplitJoin(h: Halves, bits: nat)
    requires Fits(h, bits)
    ensures Split(Join(h, bits), bits) == h && Join(h, bits) < Pow2(bits + bits)
  {
    hide Pow2, High, Low, Compose;
    Composed(h.left, h.right, Pow2(bits), Pow2(bits));
    Pow2Sum(bits, bits);
  }

  lemma JoinSplit(value: nat, bits: nat)
    requires value < Pow2(bits + bits)
    ensures Fits(Split(value, bits), bits) && Join(Split(value, bits), bits) == value
  {
    hide Pow2, High, Low, Compose;
    Pow2Sum(bits, bits);
    Decomposed(value, Pow2(bits), Pow2(bits));
  }

  function Scrambled(value: nat, f: Round, bits: nat): nat {
    Join(Forward(Split(value, bits), f, FEISTEL_ROUNDS, bits), bits)
  }

  function Unscrambled(value: nat, f: Round, bits: nat): nat {
    Join(Backward(Split(value, bits), f, FEISTEL_ROUNDS, bits), bits)
  }

  /** The permutation and its reverse cancel, for every round function. */
  lemma ScrambleBijective(value: nat, f: Round, bits: nat)
    requires value < Pow2(bits + bits)
    ensures Scrambled(value, f, bits) < Pow2(bits + bits)
    ensures Unscrambled(value, f, bits) < Pow2(bits + bits)
    ensures Unscrambled(Scrambled(value, f, bits), f, bits) == value
    ensures Scrambled(Unscrambled(value, f, bits), f, bits) == value
  {
    hide Forward, Backward, Split, Join, Fits;
    var h := Split(value, bits);
    JoinSplit(value, bits);
    ForwardFits(h, f, FEISTEL_ROUNDS, bits);
    BackwardFits(h, f, FEISTEL_ROUNDS, bits);
    SplitJoin(Forward(h, f, FEISTEL_ROUNDS, bits), bits);
    SplitJoin(Backward(h, f, FEISTEL_ROUNDS, bits), bits);
    BackwardUndoesForward(h, f, FEISTEL_ROUNDS, bits);
    ForwardUndoesBackward(h, f, FEISTEL_ROUNDS, bits);
  }

  method ScrambleId(value: int, width: int, f: Round, reverse: bool) returns (code: Result<nat, CodecError>)
    ensures width <= 0 ==> code == Err(BadWidth)
    ensures width > 0 && !(0 <= value < Bound(width)) ==> code == Err(OutOfRange)
    ensures InRange(value, width) && width % 2 == 1 ==> code == Err(OddBits)
    ensures InRange(value, width) && width % 2 == 0 ==>
              var bits := 5 * width / 2;
              code == Ok(if reverse then Unscrambled(value, f, bits) else Scrambled(value, f, bits))
  {
    hide Pow2, Split, Join, Forth, Back, Bound;
    if !InRange(value, width) {
      return Err(RangeError(width));
    }
    if width * 5 % 2 != 0 {
      return Err(OddBits);
    }
    var bits: nat := width * 5 / 2;
    ghost var start := Split(value, bits);
    var h := Split(value, bits);
    for i := 0 to FEISTEL_ROUNDS
      invariant reverse ==>
                  Backward(start, f, FEISTEL_ROUNDS, bits) == Backward(h, f, FEISTEL_ROUNDS - i, bits)
      invariant !reverse ==> h == Forward(start, f, i, bits)
    {
      if reverse {
        h := Back(h, f, FEISTEL_ROUNDS - 1 - i, bits);
      } else {
        h := Forth(h, f, i, bits);
      }
    }
    code := Ok(Join(h, bits));
  }
}

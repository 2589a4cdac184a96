/**
 Estimating the cost of a model call: token totals are split over priced lines,
 and the lines are settled once, to the nearest micro-USD.
 */
module Billing {
  import opened Common
  import opened Money

  const PER_MILLION: real := 1000000.0

  type Rate = r: real | r >= 0.0

  /** USD per million tokens, for each kind that is priced on its own. */
  datatype Rates = Rates(
    input: Option<Rate>, cacheRead: Option<Rate>, cacheWrite: Option<Rate>, inputAudio: Option<Rate>,
    output: Option<Rate>, reasoning: Option<Rate>, outputAudio: Option<Rate>)

  /** Inclusive totals, and the parts the provider reported; `otherMeters` names unknown kinds. */
  datatype Usage = Usage(
    input: nat, output: nat,
    uncached: Option<nat>, cacheRead: Option<nat>, cacheWrite: Option<nat>, inputAudio: Option<nat>,
    visible: Option<nat>, reasoning: Option<nat>, outputAudio: Option<nat>,
    otherMeters: bool)

  function Or0(n: Option<nat>): nat {
    if n.Some? then n.value else 0
  }

  predicate Within(n: Option<nat>, total: nat) {
    n.Some? ==> n.value <= total
  }

  /** The checks a usage record passes when it is made. */
  predicate Recorded(u: Usage) {
    && Within(u.inputAudio, u.input) && Within(u.outputAudio, u.output)
    && Or0(u.uncached) + Or0(u.cacheRead) + Or0(u.cacheWrite) <= u.input
    && Within(u.visible, u.output) && Within(u.reasoning, u.output)
    && (u.visible.Some? && u.reasoning.Some? ==> u.visible.value + u.reasoning.value <= u.output)
  }

  datatype Meter =
    | InputAudio | InputCacheRead | InputCacheWrite | InputUncached | InputAll
    | OutputAudio | OutputReasoning | OutputVisible | OutputAll

  datatype Line = Line(meter: Meter, quantity: nat, rate: Rate)

  predicate IsInput(m: Meter) {
    m.InputAudio? || m.InputCacheRead? || m.InputCacheWrite? || m.InputUncached? || m.InputAll?
  }

  /** Tokens billed on the input side, or on the output side. */
  function Billed(lines: seq<Line>, input: bool): nat {
    if lines == [] then 0
    else
      var last := lines[|lines| - 1];
      Billed(lines[..|lines| - 1], input) + if IsInput(last.meter) == input then last.quantity else 0
  }

  function RateOf(rates: Rates, m: Meter): Option<Rate> {
    match m
    case InputAudio => rates.inputAudio
    case InputCacheRead => rates.cacheRead
    case InputCacheWrite => rates.cacheWrite
    case InputUncached => rates.input
    case InputAll => rates.input
    case OutputAudio => rates.outputAudio
    case OutputReasoning => rates.reasoning
    case OutputVisible => rates.output
    case OutputAll => rates.output
  }

  predicate OncePerMeter(lines: seq<Line>) {
    forall i, j :: 0 <= i < j < |lines| ==> lines[i].meter != lines[j].meter
  }

  // ---------------------------------------------------------------------
  // When an estimate is complete, and when it partitions the tokens
  // ---------------------------------------------------------------------

  /** The uncached share, if any cache meter lets it be known. */
  function Uncached(u: Usage): Option<nat>
    requires Recorded(u)
  {
    if u.uncached.Some? then u.uncached
    else if u.cacheRead.Some? || u.cacheWrite.Some? then Some(u.input - Or0(u.cacheRead) - Or0(u.cacheWrite))
    else None
  }

  function Visible(u: Usage): Option<nat>
    requires Recorded(u)
  {
    if u.visible.None? && u.reasoning.Some? then Some(u.output - u.reasoning.value) else u.visible
  }

  predicate AudioIn(u: Usage, rates: Rates) {
    u.inputAudio.Some? && rates.inputAudio.Some?
  }

  predicate AudioOut(u: Usage, rates: Rates) {
    u.outputAudio.Some? && rates.outputAudio.Some?
  }

  function Less(a: nat, b: nat): nat {
    if a < b then 0 else a - b
  }

  /** The uncached share after separately priced audio is taken out. */
  function Uncharged(u: Usage, rates: Rates): Option<nat>
    requires Recorded(u)
  {
    if AudioIn(u, rates) && Uncached(u).Some? then Some(Less(Uncached(u).value, u.inputAudio.value)) else Uncached(u)
  }

  /** What is visible after separately priced audio is taken out. */
  function VisibleLeft(u: Usage, rates: Rates): Option<nat>
    requires Recorded(u)
  {
    if AudioOut(u, rates) && Visible(u).Some? then Some(Less(Visible(u).value, u.outputAudio.value)) else Visible(u)
  }

  /** The tokens each meter stands for, if it is used: parts as reported, and what is left of the totals. */
  function Share(u: Usage, rates: Rates, m: Meter): Option<nat>
    requires Recorded(u)
  {
    match m
    case InputAudio => u.inputAudio
    case InputCacheRead => u.cacheRead
    case InputCacheWrite => u.cacheWrite
    case InputUncached => Uncharged(u, rates)
    case InputAll =>
      if Uncharged(u, rates).Some? then None
      else Some(if AudioIn(u, rates) then Less(u.input, u.inputAudio.value) else u.input)
    case OutputAudio => u.outputAudio
    case OutputReasoning => u.reasoning
    case OutputVisible => if rates.reasoning.Some? && u.reasoning.Some? then VisibleLeft(u, rates) else None
    case OutputAll =>
      if rates.reasoning.Some? && u.reasoning.Some? then None
      else Some(if AudioOut(u, rates) then Less(u.output, u.outputAudio.value) else u.output)
  }

  predicate Priced(u: Usage, rates: Rates, m: Meter)
    requires Recorded(u)
  {
    Share(u, rates, m).Some? && RateOf(rates, m).Some?
  }

  /** A line charges its own meter, at that meter's own rate, for that meter's share. */
  predicate Proper(line: Line, u: Usage, rates: Rates)
    requires Recorded(u)
  {
    RateOf(rates, line.meter) == Some(line.rate) && Share(u, rates, line.meter) == Some(line.quantity)
  }

  predicate AllProper(lines: seq<Line>, u: Usage, rates: Rates)
    requires Recorded(u)
  {
    forall i :: 0 <= i < |lines| ==> Proper(lines[i], u, rates)
  }

  /** A cache share is priced: it is empty, or has a rate; if unreported, it would cost the same. */
  predicate CachePriced(reported: Option<nat>, rate: Option<Rate>, u: Usage, rates: Rates)
    requires Recorded(u)
  {
    if reported.Some? then reported.value == 0 || rate.Some?
    else
      u.uncached.Some? || u.input == Or0(u.cacheRead) + Or0(u.cacheWrite)
      || rate.None? || rate == rates.input
  }

  predicate InputPriced(u: Usage, rates: Rates)
    requires Recorded(u)
  {
    && rates.input.Some?
    && CachePriced(u.cacheRead, rates.cacheRead, u, rates)
    && CachePriced(u.cacheWrite, rates.cacheWrite, u, rates)
    && (u.uncached.Some? ==> u.uncached.value + Or0(u.cacheRead) + Or0(u.cacheWrite) == u.input)
  }

  predicate OutputPriced(u: Usage, rates: Rates)
    requires Recorded(u)
  {
    if rates.reasoning.None? then rates.output.Some?
    else if u.reasoning.None? then rates.output == rates.reasoning
    else
      && Visible(u).value + u.reasoning.value == u.output
      && (rates.output.Some? || Visible(u).value <= if AudioOut(u, rates) then u.outputAudio.value else 0)
  }

  /** Separately priced audio lies inside the share it is taken out of. */
  predicate InputConsistent(u: Usage, rates: Rates)
    requires Recorded(u)
  {
    AudioIn(u, rates) && Uncached(u).Some? ==> u.inputAudio.value <= Uncached(u).value
  }

  predicate OutputConsistent(u: Usage, rates: Rates)
    requires Recorded(u)
  {
    AudioOut(u, rates) && rates.reasoning.Some? && u.reasoning.Some? ==> u.outputAudio.value <= Visible(u).value
  }

  // ---------------------------------------------------------------------
  // The estimate
  // ---------------------------------------------------------------------

  function Append(lines: seq<Line>, meter: Meter, quantity: nat, rate: Option<Rate>): seq<Line> {
    if rate.None? then lines else lines + [Line(meter, quantity, rate.value)]
  }

  predicate Fresh(lines: seq<Line>, m: Meter) {
    forall i :: 0 <= i < |lines| ==> lines[i].meter != m
  }

  lemma Appended(lines: seq<Line>, meter: Meter, quantity: nat, u: Usage, rates: Rates)
    requires Recorded(u) && AllProper(lines, u, rates) && OncePerMeter(lines) && Fresh(lines, meter)
    requires Share(u, rates, meter) == Some(quantity)
    ensures var next := Append(lines, meter, quantity, RateOf(rates, meter));
            && AllProper(next, u, rates) && OncePerMeter(next)
            && (next == [] <==> lines == [] && RateOf(rates, meter).None?)
            && (forall side :: Billed(next, side) ==
                  Billed(lines, side) +
                  if IsInput(meter) == side && RateOf(rates, meter).Some? then quantity else 0)
            && (forall m :: m != meter ==> (Fresh(next, m) <==> Fresh(lines, m)))
            && (Fresh(next, meter) <==> RateOf(rates, meter).None?)
  {
    var next := Append(lines, meter, quantity, RateOf(rates, meter));
    if next != lines {
      assert next[..|lines|] == lines && next[|lines|].meter == meter;
      forall m | m != meter ensures Fresh(next, m) <==> Fresh(lines, m) {
        if Fresh(next, m) {
          assert forall i :: 0 <= i < |lines| ==> lines[i].meter == next[i].meter;
        }
      }
    }
  }

  /** The uncached share, and whether the shares account for every input token. */
  method UncachedShare(u: Usage, rates: Rates, ready: bool) returns (uncached: Option<nat>, complete: bool)
    requires Recorded(u)
    ensures uncached == Uncached(u)
    ensures complete <==>
              && ready
              && (u.uncached.Some? ==> u.uncached.value + Or0(u.cacheRead) + Or0(u.cacheWrite) == u.input)
              && (u.cacheRead.None? ==> CachePriced(u.cacheRead, rates.cacheRead, u, rates))
              && (u.cacheWrite.None? ==> CachePriced(u.cacheWrite, rates.cacheWrite, u, rates))
  {
    complete := ready;
    uncached := u.uncached;
    if uncached.None? {
      var remaining := u.input - Or0(u.cacheRead) - Or0(u.cacheWrite);
      if remaining > 0
         && ((u.cacheRead.None? && rates.cacheRead.Some? && rates.cacheRead != rates.input)
             || (u.cacheWrite.None? && rates.cacheWrite.Some? && rates.cacheWrite != rates.input)) {
        complete := false;
      }
      if u.cacheRead.Some? || u.cacheWrite.Some? {
        uncached := Some(remaining);
      }
    }
    if uncached.Some? && uncached.value + Or0(u.cacheRead) + Or0(u.cacheWrite) < u.input {
      complete := false;
    }
  }

  function Charged(reported: Option<nat>, rate: Option<Rate>): nat {
    if reported.Some? && rate.Some? then reported.value else 0
  }

  /** Bills each cache share that has a rate; an unpriced one makes the estimate partial. */
  method CacheLines(before: seq<Line>, u: Usage, rates: Rates, ready: bool)
    returns (lines: seq<Line>, complete: bool)
    requires Recorded(u) && AllProper(before, u, rates) && OncePerMeter(before)
    requires Fresh(before, InputCacheRead) && Fresh(before, InputCacheWrite)
    ensures AllProper(lines, u, rates) && OncePerMeter(lines)
    ensures forall m :: m != InputCacheRead && m != InputCacheWrite ==> (Fresh(lines, m) <==> Fresh(before, m))
    ensures forall m :: m == InputCacheRead || m == InputCacheWrite ==> (Fresh(lines, m) <==> !Priced(u, rates, m))
    ensures Billed(lines, false) == Billed(before, false)
    ensures Billed(lines, true) ==
            Billed(before, true) + Charged(u.cacheRead, rates.cacheRead) + Charged(u.cacheWrite, rates.cacheWrite)
    ensures complete <==>
              && ready && (Or0(u.cacheRead) == 0 || rates.cacheRead.Some?)
              && (Or0(u.cacheWrite) == 0 || rates.cacheWrite.Some?)
  {
    hide Proper, AllProper, OncePerMeter, Fresh, Billed, Append;
    lines, complete := before, ready;
    if u.cacheRead.Some? && rates.cacheRead.Some? {
      Appended(lines, InputCacheRead, u.cacheRead.value, u, rates);
      lines := Append(lines, InputCacheRead, u.cacheRead.value, rates.cacheRead);
    } else if Or0(u.cacheRead) != 0 {
      complete := false;
    }
    if u.cacheWrite.Some? && rates.cacheWrite.Some? {
      Appended(lines, InputCacheWrite, u.cacheWrite.value, u, rates);
      lines := Append(lines, InputCacheWrite, u.cacheWrite.value, rates.cacheWrite);
    } else if Or0(u.cacheWrite) != 0 {
      complete := false;
    }
  }

  /** What the input rate is charged for: the uncached rest, or all that is not audio. */
  function Rest(uncached: Option<nat>, u: Usage, rates: Rates): nat {
    if rates.input.None? then 0
    else if uncached.Some? then uncached.value
    else if AudioIn(u, rates) then Less(u.input, u.inputAudio.value)
    else u.input
  }

  method RestOfInput(before: seq<Line>, uncached: Option<nat>, u: Usage, rates: Rates, ready: bool)
    returns (lines: seq<Line>, complete: bool)
    requires Recorded(u) && AllProper(before, u, rates) && OncePerMeter(before) && uncached == Uncharged(u, rates)
    requires Fresh(before, InputUncached) && Fresh(before, InputAll)
    ensures AllProper(lines, u, rates) && OncePerMeter(lines)
    ensures forall m :: m != InputUncached && m != InputAll ==> (Fresh(lines, m) <==> Fresh(before, m))
    ensures forall m :: m == InputUncached || m == InputAll ==> (Fresh(lines, m) <==> !Priced(u, rates, m))
    ensures Billed(lines, false) == Billed(before, false)
    ensures Billed(lines, true) == Billed(before, true) + Rest(uncached, u, rates)
    ensures complete <==> ready && rates.input.Some?
    ensures lines == [] ==> rates.input.None?
  {
    hide Proper, AllProper, OncePerMeter, Fresh, Billed, Append;
    lines, complete := before, ready;
    if rates.input.None? {
      complete := false;
    } else if uncached.Some? {
      Appended(lines, InputUncached, uncached.value, u, rates);
      lines := Append(lines, InputUncached, uncached.value, rates.input);
    } else {
      var quantity := if AudioIn(u, rates) then Less(u.input, u.inputAudio.value) else u.input;
      Appended(lines, InputAll, quantity, u, rates);
      lines := Append(lines, InputAll, quantity, rates.input);
    }
  }

  method InputLines(u: Usage, rates: Rates, forcePartial: bool) returns (lines: seq<Line>, complete: bool)
    requires Recorded(u)
    ensures AllProper(lines, u, rates) && OncePerMeter(lines)
    ensures Fresh(lines, OutputAudio) && Fresh(lines, OutputReasoning)
    ensures Fresh(lines, OutputVisible) && Fresh(lines, OutputAll)
    ensures forall m :: IsInput(m) ==> (Fresh(lines, m) <==> !Priced(u, rates, m))
    ensures Billed(lines, false) == 0 && (lines == [] ==> rates.input.None?)
    ensures complete <==> !forcePartial && InputPriced(u, rates)
    ensures InputConsistent(u, rates) ==> Billed(lines, true) <= u.input
    ensures complete ==> (Billed(lines, true) == u.input <==> InputConsistent(u, rates))
  {
    hide Proper, AllProper, OncePerMeter, Fresh, Billed, Append, InputPriced, InputConsistent, CachePriced, Uncached, Rest;
    NoLines(u, rates);
    lines := [];
    var uncached;
    uncached, complete := UncachedShare(u, rates, !forcePartial);
    if AudioIn(u, rates) {
      Appended(lines, InputAudio, u.inputAudio.value, u, rates);
      lines := Append(lines, InputAudio, u.inputAudio.value, rates.inputAudio);
      if uncached.Some? {
        uncached := Some(Less(uncached.value, u.inputAudio.value));
      }
    }
    lines, complete := CacheLines(lines, u, rates, complete);
    lines, complete := RestOfInput(lines, uncached, u, rates, complete);
    InputAddsUp(u, rates);
  }

  /** The input lines add up to the total when every share is priced and audio fits its share. */
  lemma InputAddsUp(u: Usage, rates: Rates)
    requires Recorded(u)
    ensures var billed := (if AudioIn(u, rates) then u.inputAudio.value else 0)
                          + Charged(u.cacheRead, rates.cacheRead) + Charged(u.cacheWrite, rates.cacheWrite)
                          + Rest(Uncharged(u, rates), u, rates);
            && (InputConsistent(u, rates) ==> billed <= u.input)
            && (InputPriced(u, rates) ==> (billed == u.input <==> InputConsistent(u, rates)))
    ensures InputPriced(u, rates) <==>
              && rates.input.Some?
              && (u.uncached.Some? ==> u.uncached.value + Or0(u.cacheRead) + Or0(u.cacheWrite) == u.input)
              && (u.cacheRead.None? ==> CachePriced(u.cacheRead, rates.cacheRead, u, rates))
              && (u.cacheWrite.None? ==> CachePriced(u.cacheWrite, rates.cacheWrite, u, rates))
              && (Or0(u.cacheRead) == 0 || rates.cacheRead.Some?)
              && (Or0(u.cacheWrite) == 0 || rates.cacheWrite.Some?)
  {
  }

  lemma NoLines(u: Usage, rates: Rates)
    requires Recorded(u)
    ensures AllProper([], u, rates) && OncePerMeter([])
    ensures forall m :: Fresh([], m)
    ensures Billed([], true) == 0 && Billed([], false) == 0
  {
  }

  lemma OutputShares(u: Usage, rates: Rates)
    requires Recorded(u)
    ensures Share(u, rates, OutputAudio) == u.outputAudio && RateOf(rates, OutputAudio) == rates.outputAudio
    ensures Share(u, rates, OutputReasoning) == u.reasoning && RateOf(rates, OutputReasoning) == rates.reasoning
    ensures RateOf(rates, OutputVisible) == RateOf(rates, OutputAll) == rates.output
    ensures Share(u, rates, OutputVisible) ==
            if rates.reasoning.Some? && u.reasoning.Some? then VisibleLeft(u, rates) else None
    ensures Share(u, rates, OutputAll) ==
            if rates.reasoning.Some? && u.reasoning.Some? then None
            else Some(if AudioOut(u, rates) then Less(u.output, u.outputAudio.value) else u.output)
    ensures forall m :: IsInput(m) || m in {OutputAudio, OutputReasoning, OutputVisible, OutputAll}
    ensures !IsInput(OutputAudio) && !IsInput(OutputReasoning) && !IsInput(OutputVisible) && !IsInput(OutputAll)
  {
  }

  method OutputLines(before: seq<Line>, u: Usage, rates: Rates, ready: bool)
    returns (lines: seq<Line>, complete: bool)
    requires Recorded(u) && AllProper(before, u, rates) && OncePerMeter(before)
    requires Fresh(before, OutputAudio) && Fresh(before, OutputReasoning)
    requires Fresh(before, OutputVisible) && Fresh(before, OutputAll)
    requires Billed(before, false) == 0
    ensures AllProper(lines, u, rates) && OncePerMeter(lines)
    ensures Billed(lines, true) == Billed(before, true)
    ensures forall m :: Fresh(lines, m) <==> if IsInput(m) then Fresh(before, m) else !Priced(u, rates, m)
    ensures lines == [] ==> before == [] && rates.output.None?
    ensures complete <==> ready && OutputPriced(u, rates)
    ensures OutputConsistent(u, rates) ==> Billed(lines, false) <= u.output
    ensures complete ==> (Billed(lines, false) == u.output <==> OutputConsistent(u, rates))
  {
    hide Proper, AllProper, OncePerMeter, Fresh, Billed, Append, Share, RateOf, IsInput;
    OutputShares(u, rates);
    lines, complete := before, ready;
    var visible := u.visible;
    if visible.None? && u.reasoning.Some? {
      visible := Some(Less(u.output, u.reasoning.value));
    }
    if rates.reasoning.Some? && u.reasoning.Some? && visible.Some?
       && visible.value + u.reasoning.value < u.output {
      complete := false;
    }
    if AudioOut(u, rates) {
      Appended(lines, OutputAudio, u.outputAudio.value, u, rates);
      lines := Append(lines, OutputAudio, u.outputAudio.value, rates.outputAudio);
      if visible.Some? {
        visible := Some(Less(visible.value, u.outputAudio.value));
      }
    }
    var whole := if AudioOut(u, rates) then Less(u.output, u.outputAudio.value) else u.output;
    if rates.reasoning.Some? {
      if u.reasoning.None? {
        if rates.output.Some? {
          Appended(lines, OutputAll, whole, u, rates);
          lines := Append(lines, OutputAll, whole, rates.output);
          complete := complete && rates.reasoning == rates.output;
        } else {
          complete := false;
        }
      } else {
        Appended(lines, OutputReasoning, u.reasoning.value, u, rates);
        lines := Append(lines, OutputReasoning, u.reasoning.value, rates.reasoning);
        if rates.output.Some? && visible.Some? {
          Appended(lines, OutputVisible, visible.value, u, rates);
          lines := Append(lines, OutputVisible, visible.value, rates.output);
        } else if Or0(visible) != 0 {
          complete := false;
        }
      }
    } else if rates.output.Some? {
      Appended(lines, OutputAll, whole, u, rates);
      lines := Append(lines, OutputAll, whole, rates.output);
    } else {
      complete := false;
    }
  }

  lemma NoneOrSome(lines: seq<Line>)
    ensures lines == [] <==> forall m :: Fresh(lines, m)
  {
    assert lines != [] ==> !Fresh(lines, lines[0].meter);
  }

  datatype Cost = Cost(amount: Usd, complete: bool, lines: seq<Line>)

  datatype Estimate = Unpriced | Estimated(cost: Cost) | OutOfRange

  // ---------------------------------------------------------------------
  // Settlement
  // ---------------------------------------------------------------------

  /** The exact total in USD: quantities times rates, no line rounded. */
  function Exact(lines: seq<Line>): (total: real)
    ensures total >= 0.0
  {
    if lines == [] then 0.0
    else
      var last := lines[|lines| - 1];
      Exact(lines[..|lines| - 1]) + last.quantity as real * last.rate / PER_MILLION
  }

  /** One rounding for the whole call, halves upward. */
  function CostFromRates(lines: seq<Line>): (amount: Option<Usd>)
    ensures amount.Some? <==> Exact(lines) * MICROS_PER_USD <= MAX_MICROS as real
    ensures amount.Some? ==>
              -0.5 <= Exact(lines) * MICROS_PER_USD - CostUnits(amount.value) as real < 0.5
  {
    var micros := Exact(lines) * MICROS_PER_USD;
    if micros > MAX_MICROS as real then None else Some(Settled((micros + 0.5).Floor))
  }

  /**
   A complete estimate bills every token exactly once, unless separately priced
   audio exceeds the share it is taken from; its amount is the exact total to
   within half a micro-USD, for any number of lines.
   */
  method EstimateCost(u: Usage, rates: Rates, forcePartial: bool) returns (r: Estimate)
    requires Recorded(u)
    ensures r.Estimated? ==>
              && r.cost.lines != [] && AllProper(r.cost.lines, u, rates) && OncePerMeter(r.cost.lines)
              && (forall m :: Priced(u, rates, m) <==> !Fresh(r.cost.lines, m))
              && CostFromRates(r.cost.lines) == Some(r.cost.amount)
              && (r.cost.complete <==>
                    !forcePartial && !u.otherMeters && InputPriced(u, rates) && OutputPriced(u, rates))
              && (InputConsistent(u, rates) ==> Billed(r.cost.lines, true) <= u.input)
              && (OutputConsistent(u, rates) ==> Billed(r.cost.lines, false) <= u.output)
              && (r.cost.complete ==>
                    && (Billed(r.cost.lines, true) == u.input <==> InputConsistent(u, rates))
                    && (Billed(r.cost.lines, false) == u.output <==> OutputConsistent(u, rates)))
    ensures r.Unpriced? <==> forall m :: !Priced(u, rates, m)
    ensures r.Unpriced? ==> rates.input.None? && rates.output.None?
  {
    hide InputPriced, OutputPriced, InputConsistent, OutputConsistent, Proper, AllProper, OncePerMeter, Fresh, Billed;
    var inputLines, ready := InputLines(u, rates, forcePartial);
    var lines, complete := OutputLines(inputLines, u, rates, ready);
    if u.otherMeters {
      complete := false;
    }
    NoneOrSome(lines);
    if lines == [] {
      return Unpriced;
    }
    var amount := CostFromRates(lines);
    if amount.None? {
      return OutOfRange;
    }
    r := Estimated(Cost(amount.value, complete, lines));
  }

  // ---------------------------------------------------------------------
  // The amount, share by share
  // ---------------------------------------------------------------------

  /** What one meter contributes to the exact total. */
  function Part(lines: seq<Line>, m: Meter): real {
    if lines == [] then 0.0
    else
      var last := lines[|lines| - 1];
      Part(lines[..|lines| - 1], m) + if last.meter == m then last.quantity as real * last.rate / PER_MILLION else 0.0
  }

  lemma {:induction false} SumOfParts(lines: seq<Line>)
    ensures Exact(lines) ==
            Part(lines, InputAudio) + Part(lines, InputCacheRead) + Part(lines, InputCacheWrite)
            + Part(lines, InputUncached) + Part(lines, InputAll)
            + Part(lines, OutputAudio) + Part(lines, OutputReasoning)
            + Part(lines, OutputVisible) + Part(lines, OutputAll)
  {
    if lines != [] {
      SumOfParts(lines[..|lines| - 1]);
    }
  }

  /** Tokens at a rate per million, if both are known. */
  function Charge(tokens: Option<nat>, rate: Option<Rate>): real {
    if tokens.Some? && rate.Some? then tokens.value as real * rate.value / 1000000.0 else 0.0
  }

  lemma {:induction false} NoPart(lines: seq<Line>, m: Meter)
    requires Fresh(lines, m)
    ensures Part(lines, m) == 0.0
  {
    if lines != [] {
      NoPart(lines[..|lines| - 1], m);
    }
  }

  lemma ProperPrefix(lines: seq<Line>, last: Line, u: Usage, rates: Rates)
    requires Recorded(u) && AllProper(lines + [last], u, rates) && OncePerMeter(lines + [last])
    ensures AllProper(lines, u, rates) && OncePerMeter(lines)
    ensures Proper(last, u, rates) && Fresh(lines, last.meter)
  {
    hide Proper;
    var all := lines + [last];
    assert all[|lines|] == last;
    forall i | 0 <= i < |lines| ensures all[i] == lines[i] && lines[i].meter != last.meter {
    }
  }

  lemma PartSnoc(lines: seq<Line>, last: Line, m: Meter)
    ensures Part(lines + [last], m) ==
            Part(lines, m) + if last.meter == m then Charge(Some(last.quantity), Some(last.rate)) else 0.0
  {
    assert (lines + [last])[..|lines|] == lines;
  }

  lemma {:induction false} PartIs(lines: seq<Line>, u: Usage, rates: Rates, m: Meter)
    requires Recorded(u) && AllProper(lines, u, rates) && OncePerMeter(lines)
    ensures Part(lines, m) == if Fresh(lines, m) then 0.0 else Charge(Share(u, rates, m), RateOf(rates, m))
  {
    if lines == [] {
      NoPart(lines, m);
    } else {
      hide *;
      var init, last := lines[..|lines| - 1], lines[|lines| - 1];
      assert lines == init + [last];
      ProperPrefix(init, last, u, rates);
      PartIs(init, u, rates, m);
      FreshSnoc(init, last, m);
      PartSnoc(init, last, m);
      ProperIs(last, u, rates);
    }
  }

  lemma ProperIs(line: Line, u: Usage, rates: Rates)
    requires Recorded(u) && Proper(line, u, rates)
    ensures RateOf(rates, line.meter) == Some(line.rate) && Share(u, rates, line.meter) == Some(line.quantity)
  {
  }

  lemma FreshSnoc(lines: seq<Line>, last: Line, m: Meter)
    ensures Fresh(lines + [last], m) <==> Fresh(lines, m) && last.meter != m
  {
    var all := lines + [last];
    assert all[|lines|] == last;
    assert forall i :: 0 <= i < |lines| ==> all[i] == lines[i];
  }

  /**
   The exact total of an estimate: each reported part at its own rate, and what is
   left of the input and of the output at the plain rates, all per million tokens.
   */
  lemma TotalByShares(lines: seq<Line>, u: Usage, rates: Rates)
    requires Recorded(u) && AllProper(lines, u, rates) && OncePerMeter(lines)
    requires forall m :: Priced(u, rates, m) <==> !Fresh(lines, m)
    ensures Exact(lines) ==
            Charge(u.inputAudio, rates.inputAudio)
            + Charge(u.cacheRead, rates.cacheRead) + Charge(u.cacheWrite, rates.cacheWrite)
            + Charge(Some(Rest(Uncharged(u, rates), u, rates)), rates.input)
            + Charge(u.outputAudio, rates.outputAudio) + Charge(u.reasoning, rates.reasoning)
            + Charge(RestOfOutput(u, rates), rates.output)
  {
    hide AllProper, OncePerMeter, Fresh, Exact, Part, Uncharged, VisibleLeft;
    SumOfParts(lines);
    forall m ensures Part(lines, m) == Charge(Share(u, rates, m), RateOf(rates, m)) {
      PartIs(lines, u, rates, m);
    }
  }

  /** What the output rate is charged for: the visible rest, or all that is not audio. */
  function RestOfOutput(u: Usage, rates: Rates): Option<nat>
    requires Recorded(u)
  {
    if rates.reasoning.Some? && u.reasoning.Some? then VisibleLeft(u, rates)
    else Some(if AudioOut(u, rates) then Less(u.output, u.outputAudio.value) else u.output)
  }
}

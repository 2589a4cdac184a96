/**
 USD amounts settled to integer micro-units. Amounts are read as the exact
 decimals their text shows; halves round upward.
 */
module Money {
  const MICROS_PER_USD: real := 1000000.0
  const MAX_MICROS: nat := 999999999999999

  /** An amount the money boundary accepts: not negative, at most 999999999.999999. */
  type Usd = x: real | 0.0 <= x <= MAX_MICROS as real / MICROS_PER_USD

  function CostUnits(value: Usd): (units: nat)
    ensures units <= MAX_MICROS
    ensures -0.5 <= value * MICROS_PER_USD - units as real < 0.5
  {
    (value * MICROS_PER_USD + 0.5).Floor
  }

  function Settled(units: nat): (value: Usd)
    requires units <= MAX_MICROS
    ensures CostUnits(value) == units
  {
    SettledUnits(units);
    units as real / MICROS_PER_USD
  }

  lemma SettledUnits(units: nat)
    requires units <= MAX_MICROS
    ensures 0.0 <= units as real / MICROS_PER_USD <= MAX_MICROS as real / MICROS_PER_USD
    ensures (units as real / MICROS_PER_USD * MICROS_PER_USD + 0.5).Floor == units
  {
    var value := units as real / MICROS_PER_USD;
    assert value * MICROS_PER_USD == units as real;
  }

  predicate Addable(left: Usd, right: Usd) {
    CostUnits(left) + CostUnits(right) <= MAX_MICROS
  }

  /** Sums settled amounts exactly; a sum past the maximum is refused by callers. */
  function AddCost(left: Usd, right: Usd): (total: Usd)
    requires Addable(left, right)
    ensures CostUnits(total) == CostUnits(left) + CostUnits(right)
  {
    Settled(CostUnits(left) + CostUnits(right))
  }
}

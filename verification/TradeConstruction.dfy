/** Whether an approved trade can be built within the capital limit (trade_constructor.py). */
module TradeConstruction {
  import opened SharedTypes
  import opened Numerics
  import opened Conviction

  const STRIKE_INTERVAL := 50.0

  /** Python's `int(x)`, towards zero. */
  function Truncated(x: real): real {
    if x >= 0.0 then x.Floor as real else -((-x).Floor as real)
  }

  function EstimatePremium(strike: real, lot: int, atm: real): real {
    Round2(MaxR(10.0, 100.0 - AbsR(strike - atm) / STRIKE_INTERVAL * 5.0) * lot as real)
  }

  function ItmStrike(d: Direction, atm: real): real {
    if d.Buy? then atm - STRIKE_INTERVAL else atm + STRIKE_INTERVAL
  }

  function OtmStrike(d: Direction, atm: real): real {
    if d.Buy? then atm + STRIKE_INTERVAL else atm - STRIKE_INTERVAL
  }

  /** While a strike is chosen, its premium is that of its truncated text. */
  function QuotedPremium(strike: real, lot: int, atm: real): real {
    EstimatePremium(Truncated(strike), lot, atm)
  }

  function SelectStrike(d: Direction, atm: real, capital: real, lot: int, band: ConvictionBand): Option<real> {
    if QuotedPremium(atm, lot, atm) <= capital then Some(atm)
    else if TradableBand(band) && QuotedPremium(ItmStrike(d, atm), lot, atm) <= capital then Some(ItmStrike(d, atm))
    else if (band.Strong? || band.Elite?) && QuotedPremium(OtmStrike(d, atm), lot, atm) <= capital then
      Some(OtmStrike(d, atm))
    else if 0.0 < QuotedPremium(OtmStrike(d, atm), lot, atm) <= capital then Some(OtmStrike(d, atm))
    else if QuotedPremium(atm, lot, atm) > 0.0 then Some(atm)
    else None
  }

  /** A strike of 0 counts as none; the fit is judged again on the untruncated strike. */
  predicate Constructable(d: Direction, atm: real, capital: real, lot: int, band: ConvictionBand) {
    var strike := SelectStrike(d, atm, capital, lot, band);
    && capital > 0.0
    && strike.Some? && strike.value != 0.0
    && EstimatePremium(strike.value, lot, atm) <= capital
  }

  /**
   When the strike outside the money is chosen: nothing else fits, and a tradable band asks inside the money first.
  */
  lemma OutsideStrikeIff(d: Direction, atm: real, capital: real, lot: int, band: ConvictionBand)
    requires capital > 0.0
    ensures SelectStrike(d, atm, capital, lot, band) == Some(OtmStrike(d, atm)) <==>
            && QuotedPremium(OtmStrike(d, atm), lot, atm) <= capital < QuotedPremium(atm, lot, atm)
            && (TradableBand(band) ==> capital < QuotedPremium(ItmStrike(d, atm), lot, atm))
  {
    if lot > 0 {
      PremiumIsPositive(Truncated(OtmStrike(d, atm)), lot, atm);
    } else {
      PremiumIsNotPositive(Truncated(atm), lot, atm);
    }
    hide EstimatePremium, Truncated;
  }

  lemma PremiumIsPositive(strike: real, lot: int, atm: real)
    requires lot > 0
    ensures EstimatePremium(strike, lot, atm) > 0.0
  {
    var unit := MaxR(10.0, 100.0 - AbsR(strike - atm) / STRIKE_INTERVAL * 5.0);
    ProductMonotone(10.0, unit, 1.0, lot as real);
  }

  lemma PremiumIsNotPositive(strike: real, lot: int, atm: real)
    requires lot <= 0
    ensures EstimatePremium(strike, lot, atm) <= 0.0
  {
    var unit := MaxR(10.0, 100.0 - AbsR(strike - atm) / STRIKE_INTERVAL * 5.0);
    var less := -(lot as real);
    ProductMonotone(0.0, unit, 0.0, less);
    Negated(unit, lot as real);
    NearestEvenMonotone(unit * lot as real * 100.0, 0.0);
  }

  lemma Negated(a: real, b: real)
    ensures a * -b == -(a * b)
  {
  }

  lemma PremiumOnGrid(strike: int, atm: int, lot: nat, steps: int)
    requires strike == atm + 50 * steps && -1 <= steps <= 1
    ensures Truncated(strike as real) == strike as real
    ensures EstimatePremium(strike as real, lot, atm as real) == (if steps == 0 then 100.0 else 95.0) * lot as real
  {
    var price := if steps == 0 then 100 else 95;
    assert MaxR(10.0, 100.0 - AbsR(strike as real - atm as real) / STRIKE_INTERVAL * 5.0) == price as real;
    assert (100 * lot) as real == 100.0 * lot as real && (95 * lot) as real == 95.0 * lot as real;
    RoundWhole(100 * lot);
    RoundWhole(95 * lot);
    assert (strike as real).Floor == strike && (-(strike as real)).Floor == -strike;
  }

  lemma RoundWhole(n: int)
    ensures Round2(n as real) == n as real
  {
    assert n as real * 100.0 == (n * 100) as real;
    assert ((n * 100) as real).Floor == n * 100;
  }

  /**
   At a whole ATM strike above one interval and a positive lot, a trade can be built if and only if the capital covers
   the neighbouring strike, 95 a unit, whatever the conviction band and the direction: the cheaper strike outside the
   money is tried as a last resort even without the conviction that it is meant to need.
  */
  lemma ConstructableIff(d: Direction, atm: int, capital: real, lot: nat, band: ConvictionBand)
    requires atm > 50 && lot > 0
    ensures Constructable(d, atm as real, capital, lot, band) <==> capital >= 95.0 * lot as real
  {
    PremiumOnGrid(atm, atm, lot, 0);
    PremiumOnGrid(atm - 50, atm, lot, -1);
    PremiumOnGrid(atm + 50, atm, lot, 1);
    hide EstimatePremium, Truncated;
  }

  /**
   At a whole ATM strike the two neighbours cost the same, so the strike outside the money is chosen exactly without a
   tradable band; the branch that asks for a STRONG one never decides.
  */
  lemma WholeOutsideStrikeIff(d: Direction, atm: int, capital: real, lot: int, band: ConvictionBand)
    requires capital > 0.0
    ensures SelectStrike(d, atm as real, capital, lot, band) == Some(OtmStrike(d, atm as real)) <==>
            !TradableBand(band) && 95.0 * lot as real <= capital < 100.0 * lot as real
  {
    OutsideStrikeIff(d, atm as real, capital, lot, band);
    if lot >= 0 {
      PremiumOnGrid(atm, atm, lot, 0);
      PremiumOnGrid(atm - 50, atm, lot, -1);
      PremiumOnGrid(atm + 50, atm, lot, 1);
    } else {
      PremiumIsNotPositive(Truncated(atm as real), lot, atm as real);
    }
    hide EstimatePremium, Truncated, SelectStrike;
  }

  /**
   At a fractional ATM strike truncation makes the neighbours differ, and a merely TRADABLE sale ends up outside the
   money: 94.95 a unit fits where 95.05 does not.
  */
  lemma FractionalStrikeGoesOutside()
    ensures SelectStrike(Sell, 100.5, 4750.0, 50, Tradable) == Some(OtmStrike(Sell, 100.5))
  {
    OutsideStrikeIff(Sell, 100.5, 4750.0, 50, Tradable);
    hide SelectStrike;
    assert (100.5).Floor == 100 && (50.5).Floor == 50 && (150.5).Floor == 150;
    assert (499750.0).Floor == 499750 && (475250.0).Floor == 475250 && (474750.0).Floor == 474750;
    assert QuotedPremium(100.5, 50, 100.5) == 4997.5;
    assert QuotedPremium(150.5, 50, 100.5) == 4752.5;
    assert QuotedPremium(50.5, 50, 100.5) == 4747.5;
  }

  /** A unit costs a hundred at the money, a tenth less for each point away from it, and never under ten. */
  lemma PremiumByDistance(strike: real, lot: int, atm: real)
    ensures var away := if strike >= atm then strike - atm else atm - strike;
            var unit := if away >= 900.0 then 10.0 else 100.0 - away / 10.0;
            EstimatePremium(strike, lot, atm) == Round2(unit * lot as real)
  {
    var away := if strike >= atm then strike - atm else atm - strike;
    var unit := if away >= 900.0 then 10.0 else 100.0 - away / 10.0;
    assert MaxR(10.0, 100.0 - AbsR(strike - atm) / STRIKE_INTERVAL * 5.0) == unit;
    hide Round2;
  }

  /** Without a positive lot any capital will do. */
  lemma FreeLots(d: Direction, atm: int, capital: real, lot: int, band: ConvictionBand)
    requires lot <= 0 && atm != 0
    ensures Constructable(d, atm as real, capital, lot, band) <==> capital > 0.0
  {
    PremiumIsNotPositive(Truncated(atm as real), lot, atm as real);
    PremiumIsNotPositive(atm as real, lot, atm as real);
    hide EstimatePremium, Truncated;
  }

  /** A strike of zero counts as none, however much capital there is. */
  lemma ZeroStrike(d: Direction, capital: real, lot: nat, band: ConvictionBand)
    requires 100.0 * lot as real <= capital
    ensures !Constructable(d, 0.0, capital, lot, band)
  {
    PremiumOnGrid(0, 0, lot, 0);
    hide EstimatePremium, Truncated;
  }
}

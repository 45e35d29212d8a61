/**
 Payoff of a single leg at expiry, over a grid of hypothetical prices.

 Prices, strikes, premiums and payoffs are exact reals; the contract count is
 an integer. An option's long payoff is its intrinsic value less the premium
 paid, a short position negates the long payoff, and the result is scaled by
 the number of contracts. The grid functions apply the one-price payoff to
 every grid point independently.
 */
module Payoff {
  import opened Validators

  function Max(a: real, b: real): real {
    if a >= b then a else b
  }

  /** +1 for a long position, -1 for a short one. */
  function Sign(trade: Trade): real {
    if trade == Short then -1.0 else 1.0
  }

  /**
   Intrinsic value of a call (`max(x - strike, 0)`) or of a put
   (`max(strike - x, 0)`): the larger of zero and the amount the option is
   in the money.
   */
  function Intrinsic(kind: OptType, x: real, strike: real): (v: real)
    ensures v >= 0.0
    ensures v >= Moneyness(kind, x, strike)
    ensures v == 0.0 || v == Moneyness(kind, x, strike)
  {
    if kind == Call then Max(x - strike, 0.0) else Max(strike - x, 0.0)
  }

  /** How far the price is beyond the strike in the option's favour (may be negative). */
  function Moneyness(kind: OptType, x: real, strike: real): real {
    if kind == Call then x - strike else strike - x
  }

  /**
   Payoff of `n` contracts of one option at price `x`. Stated piecewise, without
   `max`: out of the money only the premium moves (paid when long, received when
   short); in the money the position also gains (long) or owes (short) the
   distance from the strike.
   */
  function OptionPayoffAt(x: real, kind: OptType, strike: real, premium: real, trade: Trade, n: int): (y: real)
    ensures Moneyness(kind, x, strike) <= 0.0 ==> y == -Sign(trade) * premium * n as real
    ensures Moneyness(kind, x, strike) >= 0.0 ==>
              y == Sign(trade) * (Moneyness(kind, x, strike) - premium) * n as real
  {
    var long := Intrinsic(kind, x, strike) - premium;
    var y := if trade == Short then -long else long;
    y * n as real
  }

  /** Payoff of `n` units of the underlying bought (long) or sold (short) at `entry`. */
  function UnderlyingPayoffAt(x: real, entry: real, trade: Trade, n: int): (y: real)
    ensures y == Sign(trade) * (x - entry) * n as real
    ensures n != 0 ==> (y == 0.0 <==> x == entry)
    ensures n > 0 ==> (y > 0.0 <==> (if trade == Long then x > entry else x < entry))
  {
    var y := x - entry;
    var signed := if trade == Short then -y else y;
    signed * n as real
  }

  /** payoff_option: the one-price option payoff at every grid point. */
  function PayoffOption(xs: seq<real>, kind: OptType, strike: real, premium: real, trade: Trade, n: int): (ys: seq<real>)
    ensures |ys| == |xs|
    ensures forall i :: 0 <= i < |xs| ==> ys[i] == OptionPayoffAt(xs[i], kind, strike, premium, trade, n)
  {
    seq(|xs|, i requires 0 <= i < |xs| => OptionPayoffAt(xs[i], kind, strike, premium, trade, n))
  }

  /** payoff_underlying: the one-price underlying payoff at every grid point. */
  function PayoffUnderlying(xs: seq<real>, entry: real, trade: Trade, n: int): (ys: seq<real>)
    ensures |ys| == |xs|
    ensures forall i :: 0 <= i < |xs| ==> ys[i] == UnderlyingPayoffAt(xs[i], entry, trade, n)
  {
    seq(|xs|, i requires 0 <= i < |xs| => UnderlyingPayoffAt(xs[i], entry, trade, n))
  }

  function Negated(ys: seq<real>): (r: seq<real>)
    ensures |r| == |ys|
    ensures forall i :: 0 <= i < |ys| ==> r[i] == -ys[i]
  {
    seq(|ys|, i requires 0 <= i < |ys| => -ys[i])
  }

  // ----------------------------------------------------------------------
  // Properties
  // ----------------------------------------------------------------------

  /** For the same price, strike, premium and size, short is the exact negation of long. */
  lemma ShortOptionNegatesLong(xs: seq<real>, kind: OptType, strike: real, premium: real, n: int)
    ensures PayoffOption(xs, kind, strike, premium, Short, n) == Negated(PayoffOption(xs, kind, strike, premium, Long, n))
  {
    var short, long := PayoffOption(xs, kind, strike, premium, Short, n), PayoffOption(xs, kind, strike, premium, Long, n);
    assert forall i :: 0 <= i < |xs| ==> short[i] == Negated(long)[i];
  }

  /** The same sign symmetry for a position in the underlying. */
  lemma ShortUnderlyingNegatesLong(xs: seq<real>, entry: real, n: int)
    ensures PayoffUnderlying(xs, entry, Short, n) == Negated(PayoffUnderlying(xs, entry, Long, n))
  {
    var short, long := PayoffUnderlying(xs, entry, Short, n), PayoffUnderlying(xs, entry, Long, n);
    assert forall i :: 0 <= i < |xs| ==> short[i] == Negated(long)[i];
  }

  /**
   Because intrinsic value is floored at zero, a long option with a
   non-negative size never loses more than the premium paid, and a short one
   never gains more than the premium received.
   */
  lemma OptionPremiumBounds(x: real, kind: OptType, strike: real, premium: real, n: int)
    requires n >= 0
    ensures OptionPayoffAt(x, kind, strike, premium, Long, n) >= -premium * n as real
    ensures OptionPayoffAt(x, kind, strike, premium, Short, n) <= premium * n as real
  {
    var v := Intrinsic(kind, x, strike);
    assert v * n as real >= 0.0;
    assert OptionPayoffAt(x, kind, strike, premium, Long, n) == v * n as real - premium * n as real;
    assert OptionPayoffAt(x, kind, strike, premium, Short, n) == premium * n as real - v * n as real;
  }

  /**
   The bounds are attained: out of the money (and at the strike) the long
   payoff is exactly the premium lost, the short payoff exactly the premium kept.
   */
  lemma OptionPremiumBoundsTight(x: real, kind: OptType, strike: real, premium: real, n: int)
    requires Moneyness(kind, x, strike) <= 0.0
    ensures OptionPayoffAt(x, kind, strike, premium, Long, n) == -premium * n as real
    ensures OptionPayoffAt(x, kind, strike, premium, Short, n) == premium * n as real
  {
  }

  /**
   Put-call parity at expiry: a long call and a short put with the same strike,
   premium and size together pay exactly what a long position in the
   underlying entered at the strike pays, at every price.
   */
  lemma SyntheticLongUnderlying(x: real, strike: real, premium: real, n: int)
    ensures OptionPayoffAt(x, Call, strike, premium, Long, n) + OptionPayoffAt(x, Put, strike, premium, Short, n)
         == UnderlyingPayoffAt(x, strike, Long, n)
  {
    var c := Intrinsic(Call, x, strike);
    var p := Intrinsic(Put, x, strike);
    assert c - p == x - strike;
    calc {
      OptionPayoffAt(x, Call, strike, premium, Long, n) + OptionPayoffAt(x, Put, strike, premium, Short, n);
      (c - premium) * n as real + (premium - p) * n as real;
      (c - p) * n as real;
    }
  }

  /** Payoffs are linear in the size: `n` contracts pay `n` times one contract. */
  lemma PayoffScalesWithContracts(x: real, kind: OptType, strike: real, premium: real, entry: real, trade: Trade, n: int)
    ensures OptionPayoffAt(x, kind, strike, premium, trade, n) == OptionPayoffAt(x, kind, strike, premium, trade, 1) * n as real
    ensures UnderlyingPayoffAt(x, entry, trade, n) == UnderlyingPayoffAt(x, entry, trade, 1) * n as real
  {
  }

  /** Worked values: a long 110 call bought for 2, a short 95 put sold for 6, two units of the underlying bought at 100. */
  lemma PayoffExamples()
    ensures OptionPayoffAt(100.0, Call, 110.0, 2.0, Long, 1) == -2.0
    ensures OptionPayoffAt(120.0, Call, 110.0, 2.0, Long, 1) == 8.0
    ensures OptionPayoffAt(100.0, Put, 95.0, 6.0, Short, 1) == 6.0
    ensures OptionPayoffAt(80.0, Put, 95.0, 6.0, Short, 1) == -9.0
    ensures UnderlyingPayoffAt(110.0, 100.0, Long, 2) == 20.0
  {
  }
}

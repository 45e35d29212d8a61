# Options strategy payoff engine, in Dafny

This project models the payoff engine of the options strategy builder
(`StrategiesBuilder.py`). A strategy is an ordered list of legs. Each leg is
an option (call or put) or a position in the underlying asset, held long or
short, for some number of contracts. The builder does four things:

- it resolves each leg: categorical fields are lower-cased and checked in a
  fixed order, and defaults fill absent fields;
- it computes one payoff curve and one legend label per leg, over a grid of
  hypothetical expiry prices;
- it adds the curves element-wise into the strategy total;
- it hands all of this to a chart.

The model has three modules:

- `Validators` (`validators.dfy`): the closed enumerations `OptType`, `Trade`
  and `Instrument`, and the validated `Leg` datatype. It also holds
  `Result`/`Error`, ASCII lower-casing, and the three validators
  `check_optype`, `check_trtype` and `check_instrument`.
- `Payoff` (`payoff.dfy`): `payoff_option` and `payoff_underlying`, both as
  one-price functions and as element-wise functions over a grid. Beside them
  are the sign, bound, parity and scaling properties.
- `Strategies` (`builder.dfy`): a raw leg is a dictionary from field name to
  `Text` or `Number`. This module holds the resolution of one raw leg, the
  in-order resolution of a whole strategy (`ResolveEach`, for any per-leg
  resolver, and `ResolveLegs`, for this one), labels, and the specification
  of the total (`SumAt`). It also holds the imperative
  `StrategyBuilder` method and the default strategy the source uses when the
  caller gives none.

Numbers are exact: prices, strikes, premiums and payoffs are `real`, and the
contract count is `int`. The price grid is a parameter, any `seq<real>`.

What the code does, and the model with it:

- The code does not check that the contract count is positive, or that
  strikes and premiums are non-negative. The model accepts any `int` count
  and any `real` strike, premium and entry.
- The code accepts an empty list of legs. The loop then runs zero times and
  the total that gets plotted is all zeros. `StrategyBuilder` gives the same
  all-zero total.
- The option payoff is the unclamped `intrinsic - premium` formula, scaled by
  the contract count and negated for a short position.
- `Strategy_builder` returns nothing. It hands the curves, labels and total
  to a chart. `StrategyBuilder` returns those three values instead, or the
  error that stopped the loop.

## Model

| member | source | states |
|---|---|---|
| `Validators.Lower` | StrategiesBuilder.py:90-99 | ASCII lower-casing keeps the length of the text; `LowerCharacters` states the mapping character by character |
| `Validators.LowerCharacters` | StrategiesBuilder.py:90-99 | character by character, `.lower()` turns each capital into the same letter in lower case, keeps every other character, and leaves no capital |
| `Validators.LowerIdempotent` | StrategiesBuilder.py:90-99 | lower-casing an already lower-cased field changes nothing |
| `Validators.CheckOptType` | StrategiesBuilder.py:7-9 | succeeds exactly for "put" and "call" and yields the type named by that word; otherwise fails with `InvalidEnumeration("Type")` |
| `Validators.CheckTrade` | StrategiesBuilder.py:11-13 | succeeds exactly for "long" and "short" and yields that direction; otherwise fails with `InvalidEnumeration("Trade")` |
| `Validators.CheckInstrument` | StrategiesBuilder.py:15-17 | succeeds exactly for "option" and "underlying" and yields that instrument; otherwise fails with `InvalidEnumeration("Instrument")` |
| `Validators.ValidatorsRoundTrip` | StrategiesBuilder.py:7-17 | each enumeration value's own word passes its validator and gives the value back |
| `Validators.ValidatorsAcceptOnlyLowerCase` | StrategiesBuilder.py:7-17 | every word a validator accepts is already lower-case, so the lower-casing done first is what makes the check case-insensitive |
| `Payoff.Intrinsic` | StrategiesBuilder.py:31-34 | intrinsic value is non-negative, at least the in-the-money amount (`x-K` for a call, `K-x` for a put), and equal to zero or to that amount |
| `Payoff.OptionPayoffAt` | StrategiesBuilder.py:31-43 | out of the money, the payoff is the premium alone: `-P*n` long, `+P*n` short. In the money, it is `±(x-K-P)*n` for a call and `±(K-x-P)*n` for a put, with `+` for long and `-` for short |
| `Payoff.UnderlyingPayoffAt` | StrategiesBuilder.py:51-57 | the payoff is `(x-entry)*n` long and `-(x-entry)*n` short. With `n ≠ 0` it is zero exactly at `x = entry`. With `n > 0` it is positive exactly when the price moved the position's way |
| `Payoff.PayoffOption` | StrategiesBuilder.py:22-43 | the output has the grid's length, and element `i` is the one-price option payoff at `x[i]` alone |
| `Payoff.PayoffUnderlying` | StrategiesBuilder.py:45-57 | the output has the grid's length, and element `i` is the one-price underlying payoff at `x[i]` alone |
| `Payoff.ShortOptionNegatesLong` | StrategiesBuilder.py:39-43 | over any grid, the short option curve is the element-wise negation of the long curve with the same type, strike, premium and size |
| `Payoff.ShortUnderlyingNegatesLong` | StrategiesBuilder.py:54-57 | over any grid, the short underlying curve is the element-wise negation of the long one |
| `Payoff.OptionPremiumBounds` | StrategiesBuilder.py:32-43 | with `n ≥ 0`, a long option never pays less than `-P*n` and a short option never more than `P*n` |
| `Payoff.OptionPremiumBoundsTight` | StrategiesBuilder.py:32-43 | out of the money or at the strike, those bounds are reached exactly |
| `Payoff.SyntheticLongUnderlying` | StrategiesBuilder.py:31-57 | put-call parity at expiry: a long call plus a short put with the same strike, premium and size pays the same as a long underlying position entered at the strike |
| `Payoff.PayoffScalesWithContracts` | StrategiesBuilder.py:43-57 | both payoffs are `n` times the one-contract payoff |
| `Payoff.PayoffExamples` | StrategiesBuilder.py:31-57 | worked values. A long 110 call for 2 pays -2 at 100 and 8 at 120. A short 95 put for 6 pays 6 at 100 and -9 at 80. Two long units entered at 100 pay 20 at 110 |
| `Strategies.Get` | StrategiesBuilder.py:90 | `leg.get(key, default)`: the field when present, the default otherwise. The lemmas `DefaultInstrument`, `DefaultContract`, `DefaultPremium` and `DefaultEntry` state what the defaults do |
| `Strategies.CategoricalText` | StrategiesBuilder.py:90-99 | `str(...).lower()` of a categorical field. `CaseInsensitive` states its meaning for the resolution, and `Validators.LowerCharacters` for the text |
| `Strategies.NumberOf` | StrategiesBuilder.py:102-103 | `float(value)`: a number gives itself back; text fails with `NotANumber` for that field |
| `Strategies.TruncateToInt` | StrategiesBuilder.py:96 | `int()` of a float truncates toward zero: the result is within one of the value, on the zero side |
| `Strategies.ContractOf` | StrategiesBuilder.py:96 | the contract count defaults to 1. When present, it is the truncated number, or it fails with `NotANumber("Contract")` if the field holds text |
| `Strategies.ResolveLeg` | StrategiesBuilder.py:89-109 | one iteration of the loop up to the payoff call. `ResolveLegCharacterized` states exactly which raw legs it accepts and what it gives back. `InstrumentCheckedFirst`, `TradeCheckedSecond`, `OptionFieldsCheckedInOrder` and `UnderlyingFieldsCheckedInOrder` state which error it reports first |
| `Strategies.ResolveLegCharacterized` | StrategiesBuilder.py:89-111 | a raw leg resolves exactly when it is well formed (`Resolvable`, stated field by field). The resolved leg then carries the lower-cased words, the given numbers, and the defaults: option, 1 contract, premium 0, entry at spot |
| `Strategies.InstrumentCheckedFirst` | StrategiesBuilder.py:90-91 | an invalid instrument is the error reported, whatever else is wrong with the leg |
| `Strategies.TradeCheckedSecond` | StrategiesBuilder.py:90-94 | once the instrument is valid, a missing trade fails with `MissingField("Trade")` and an invalid one with `InvalidEnumeration("Trade")` |
| `Strategies.OptionFieldsCheckedInOrder` | StrategiesBuilder.py:93-103 | after a valid instrument and trade, a textual contract count fails with `NotANumber("Contract")`. After that, an option leg fails with the first of these that applies: no `Type` gives `MissingField("Type")`; an invalid type gives `InvalidEnumeration("Type")`; no `Strike` gives `MissingField("Strike")`; a textual strike gives `NotANumber("Strike")`; a textual premium gives `NotANumber("Premium")` |
| `Strategies.UnderlyingFieldsCheckedInOrder` | StrategiesBuilder.py:93-109 | after a valid instrument and trade, an underlying leg with a textual contract count fails with `NotANumber("Contract")`. Next, a textual entry price fails with `NotANumber("Entry")`. With both of those numbers or absent, the leg resolves |
| `Strategies.UnderlyingIgnoresOptionFields` | StrategiesBuilder.py:98-111 | for an underlying leg, removing `Type`, `Strike` and `Premium` does not change the outcome, so the option type is checked only for options |
| `Strategies.DefaultInstrument` | StrategiesBuilder.py:90 | a leg without `Instrument` resolves as if it held "option" |
| `Strategies.DefaultContract` | StrategiesBuilder.py:96 | a leg without `Contract` resolves as if it held 1 |
| `Strategies.DefaultPremium` | StrategiesBuilder.py:103 | a leg without `Premium` resolves as if it held 0 |
| `Strategies.DefaultEntry` | StrategiesBuilder.py:109 | a leg without `Entry` resolves as if it held the spot price |
| `Strategies.CaseInsensitive` | StrategiesBuilder.py:90-100 | replacing the text of `Instrument`, `Trade` or `Type` by its lower-cased form does not change the outcome |
| `Strategies.LegPayoff` | StrategiesBuilder.py:105-110 | each leg's curve has the grid's length |
| `Strategies.LabelOf` | StrategiesBuilder.py:106-111 | a label shows the leg's contract count and direction, and it is an option label exactly for an option leg |
| `Strategies.SumAt` | StrategiesBuilder.py:117-124 | the sum over the curves of their values at one grid index. `SumAtAppend` and `SumAtPermutation` state how it behaves, and `SumCurves` computes it |
| `Strategies.SumAtAppend` | StrategiesBuilder.py:117-124 | the total of two runs of curves is the sum of their totals |
| `Strategies.MatchLast` | StrategiesBuilder.py:117-124 | the last curve of a list occurs in any reordering of it, and removing it from both leaves two reorderings of each other |
| `Strategies.SumAtPermutation` | StrategiesBuilder.py:117-124 | the total at every grid index does not depend on the order of the curves: any permutation gives the same sum |
| `Strategies.ResolveEach` | StrategiesBuilder.py:89-114 | resolves the legs one after the other, for any per-leg resolver, and stops at the first failure. `ResolveEachAllOk` and `ResolveEachFirstError` state its meaning |
| `Strategies.ResolveLegs` | StrategiesBuilder.py:89-114 | `ResolveEach` with `ResolveLeg` as the resolver: the whole `for leg in Strategy` loop without the payoffs. `StrategyBuilder` is specified against it |
| `Strategies.ResolveEachStep` | StrategiesBuilder.py:88-114 | resolving one more leg appends that leg to the legs resolved so far, or ends with that leg's error |
| `Strategies.ResolveEachPrefixError` | StrategiesBuilder.py:88-114 | once some prefix of the legs fails, the whole strategy fails with the same error, so the loop may stop there |
| `Strategies.ResolveEachAllOk` | StrategiesBuilder.py:88-114 | a strategy resolves exactly when each of its legs does, and then into one resolved leg per raw leg, in order |
| `Strategies.ResolveEachFirstError` | StrategiesBuilder.py:88-114 | a failing strategy fails with the error of a leg that fails while every leg before it resolves: the first failing leg |
| `Strategies.StrategyBuilder` | StrategiesBuilder.py:86-124 | fails exactly when resolving the legs in order (`ResolveLegs`) fails, and with the same error. By `ResolveEachAllOk` and `ResolveEachFirstError`, that happens exactly when some leg fails, and the error is that of the first failing leg. Otherwise it returns one curve and one label per leg, in leg order, each computed from that leg's resolution, and a total of the grid's length whose element `i` is the sum of the curves at `i` |
| `Strategies.SumCurves` | StrategiesBuilder.py:117-124 | the zeroed array with every curve added into it holds, at each index, the sum of all curves at that index |
| `Strategies.AddInto` | StrategiesBuilder.py:124 | `y_total += y_leg` adds the curve into the array element by element |
| `Strategies.DefaultStrategy` | StrategiesBuilder.py:72-80 | the three legs assigned when no strategy is given. `DefaultStrategyResolves` states what they resolve to |
| `Strategies.DefaultStrategyResolves` | StrategiesBuilder.py:72-80 | the three default legs pass validation and resolve to: long underlying at spot, short 110 call for premium 2, short 95 put for premium 6 |
| `Strategies.DefaultStrategyTotal` | StrategiesBuilder.py:72-80 | the three default curves add up to a piecewise profile: `2x-spot-87` up to 95, `x-spot+8` up to 110, `118-spot` above |
| `Strategies.DefaultStrategyPayoff` | StrategiesBuilder.py:72-124 | the builder succeeds on the default strategy, and its total is that profile at every grid price, never above `118-spot` |

## Left out

- The chart: traces, the spot marker, layout, `write_html` and `show` (StrategiesBuilder.py:118-190) are rendering and file output through Plotly, which is not part of this model. The `save` and `file` parameters go with them.
- The price grid `spot * np.arange(100 - spot_range, 101 + spot_range, 0.01) / 100` (StrategiesBuilder.py:83) is not generated. The model takes the grid as an arbitrary `seq<real>`, so `spot_range` does not appear. The number of points `np.arange` produces depends on floating-point step counting, and its exclusive end lets the grid run to about `spot * (100 + spot_range + 0.99) / 100`.
- Floating point: prices, payoffs and the `y_total +=` sums are exact reals, so rounding and summation-order effects are not modelled.
- Label text: a label is the datatype of the fields its f-string shows (StrategiesBuilder.py:106 and 111). Turning numbers into text is not modelled.
- Strategies.NumberOf: `float()` also parses numeric text such as "2.5" or " 3 ". The model treats every text in a numeric field as `NotANumber`. Values of other Python types (booleans, `None`, lists) are not represented.
- Strategies.ContractOf: `int()` parses whole-number text such as "3" (but not "2.5"). The model rejects every text contract count with `NotANumber("Contract")`.
- Strategies.CategoricalText: a number in a categorical field is rejected without being turned into text. This is exact, because `str()` of a number never spells one of the legal words.
- Validators.Lower: only ASCII letters are lower-cased. Python's Unicode `lower()` maps two other characters to ASCII letters. `'İ'` (U+0130) becomes `"i"` followed by the combining mark U+0307, and the mark stays in the text, so it still spells no legal word. The Kelvin sign (U+212A) becomes `'k'`, which occurs in none of the six legal words. So acceptance is the same either way.
- Error kinds: Python raises `ValueError` for an invalid word or unparseable number and `KeyError` for a missing `Trade`, `Type` or `Strike`. The model uses one `Error` datatype naming the field, and the message text is not modelled.
- `Strategy=None`: `StrategyBuilder` takes the list of legs explicitly. The fallback list used when none is given is `DefaultStrategy`, and `DefaultStrategyPayoff` runs the builder on it.

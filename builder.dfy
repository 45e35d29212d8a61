/**
 Strategy_builder without its chart: resolve every raw leg of a strategy
 (lower-casing, validation in a fixed order, defaults for absent fields), compute one
 payoff curve and one label per leg, and add the curves into the strategy total.

 A raw leg is the dictionary the caller writes, from field name to value. A
 field holds either text or an already parsed number.
 */
module Strategies {
  import opened Validators
  import opened Payoff

  datatype Field = Text(s: string) | Number(v: real)

  type RawLeg = map<string, Field>

  /** `leg.get(key, default)` */
  function Get(raw: RawLeg, key: string, default: Field): Field {
    if key in raw then raw[key] else default
  }

  // ----------------------------------------------------------------------
  // Field coercion
  // ----------------------------------------------------------------------

  /**
   `str(value).lower()` followed by a validator. The decimal text of a number
   never spells one of the legal words, so a number in a categorical field is
   always rejected.
   */
  function CategoricalText(f: Field): string {
    match f
    case Text(s) => Lower(s)
    case Number(_) => ""
  }

  /** `float(value)`; text is not parsed. */
  function NumberOf(f: Field, field: string): (r: Result<real>)
    ensures r.Ok? <==> f.Number?
    ensures r.Ok? ==> r.value == f.v
    ensures r.Err? ==> r.error == NotANumber(field)
  {
    match f
    case Number(v) => Ok(v)
    case Text(_) => Err(NotANumber(field))
  }

  /** Python's `int()` of a float: the integer part, truncated toward zero. */
  function TruncateToInt(v: real): (k: int)
    ensures v >= 0.0 ==> k as real <= v < k as real + 1.0
    ensures v < 0.0 ==> k as real - 1.0 < v <= k as real
  {
    if v >= 0.0 then v.Floor else -((-v).Floor)
  }

  /** `int(leg.get('Contract', 1))` */
  function ContractOf(raw: RawLeg): (r: Result<int>)
    ensures "Contract" !in raw ==> r == Ok(1)
    ensures "Contract" in raw ==> (r.Ok? <==> raw["Contract"].Number?)
    ensures "Contract" in raw && r.Ok? ==> r.value == TruncateToInt(raw["Contract"].v)
    ensures r.Err? ==> r.error == NotANumber("Contract")
  {
    var v :- NumberOf(Get(raw, "Contract", Number(1.0)), "Contract");
    Ok(TruncateToInt(v))
  }

  // ----------------------------------------------------------------------
  // Leg resolution
  // ----------------------------------------------------------------------

  /**
   The body of the `for leg in Strategy` loop up to the payoff call: resolve
   a raw leg into a validated leg, or the first error in the order instrument,
   trade, contract count, then (options only) type, strike, premium, or
   (underlying only) entry price.
   */
  function ResolveLeg(raw: RawLeg, spot: real): Result<Leg> {
    var inst :- CheckInstrument(CategoricalText(Get(raw, "Instrument", Text("option"))));
    if "Trade" !in raw then Err(MissingField("Trade")) else
    var trade :- CheckTrade(CategoricalText(raw["Trade"]));
    var n :- ContractOf(raw);
    if inst == Option then
      if "Type" !in raw then Err(MissingField("Type")) else
      var kind :- CheckOptType(CategoricalText(raw["Type"]));
      if "Strike" !in raw then Err(MissingField("Strike")) else
      var strike :- NumberOf(raw["Strike"], "Strike");
      var premium :- NumberOf(Get(raw, "Premium", Number(0.0)), "Premium");
      Ok(OptionLeg(trade, kind, strike, premium, n))
    else
      var entry :- NumberOf(Get(raw, "Entry", Number(spot)), "Entry");
      Ok(UnderlyingLeg(trade, entry, n))
  }

  /** A field that is text whose lower-cased form is one of `words`. */
  predicate SpellsOneOf(f: Field, words: set<string>) {
    f.Text? && Lower(f.s) in words
  }

  /** A field that may be absent, and is a number when present. */
  predicate NumberOrAbsent(raw: RawLeg, key: string) {
    key in raw ==> raw[key].Number?
  }

  /** Declaratively: everything a raw leg needs to be accepted. */
  predicate Resolvable(raw: RawLeg) {
    && ("Instrument" in raw ==> SpellsOneOf(raw["Instrument"], {"option", "underlying"}))
    && "Trade" in raw && SpellsOneOf(raw["Trade"], {"long", "short"})
    && NumberOrAbsent(raw, "Contract")
    && if IsOption(raw) then
         && "Type" in raw && SpellsOneOf(raw["Type"], {"call", "put"})
         && "Strike" in raw && raw["Strike"].Number?
         && NumberOrAbsent(raw, "Premium")
       else
         NumberOrAbsent(raw, "Entry")
  }

  /** The instrument is an option when the field is absent or says so. */
  predicate IsOption(raw: RawLeg) {
    "Instrument" !in raw || CategoricalText(raw["Instrument"]) == "option"
  }

  /** Declaratively: `leg` is what the fields of `raw` say, with the defaults for absent fields. */
  predicate Resolves(raw: RawLeg, spot: real, leg: Leg) {
    && "Trade" in raw && TradeName(leg.trade) == CategoricalText(raw["Trade"])
    && Get(raw, "Contract", Number(1.0)).Number?
    && leg.n == TruncateToInt(Get(raw, "Contract", Number(1.0)).v)
    && leg.OptionLeg? == IsOption(raw)
    && match leg
       case OptionLeg(_, kind, strike, premium, _) =>
         && "Type" in raw && OptTypeName(kind) == CategoricalText(raw["Type"])
         && "Strike" in raw && raw["Strike"] == Number(strike)
         && Get(raw, "Premium", Number(0.0)) == Number(premium)
       case UnderlyingLeg(_, entry, _) =>
         Get(raw, "Entry", Number(spot)) == Number(entry)
  }

  /**
   A raw leg is accepted exactly when it is well formed, and then the leg it
   resolves to carries its fields, with the defaults for the absent ones.
   */
  lemma ResolveLegCharacterized(raw: RawLeg, spot: real)
    ensures ResolveLeg(raw, spot).Ok? <==> Resolvable(raw)
    ensures ResolveLeg(raw, spot).Ok? ==> Resolves(raw, spot, ResolveLeg(raw, spot).value)
  {
  }

  /** Validation order: an invalid instrument is reported whatever else is wrong. */
  lemma InstrumentCheckedFirst(raw: RawLeg, spot: real)
    requires "Instrument" in raw && !SpellsOneOf(raw["Instrument"], {"option", "underlying"})
    ensures ResolveLeg(raw, spot) == Err(InvalidEnumeration("Instrument"))
  {
  }

  /** Validation order: with a valid instrument, the trade is checked next. */
  lemma TradeCheckedSecond(raw: RawLeg, spot: real)
    requires !("Instrument" in raw && !SpellsOneOf(raw["Instrument"], {"option", "underlying"}))
    ensures "Trade" !in raw ==> ResolveLeg(raw, spot) == Err(MissingField("Trade"))
    ensures "Trade" in raw && !SpellsOneOf(raw["Trade"], {"long", "short"}) ==>
              ResolveLeg(raw, spot) == Err(InvalidEnumeration("Trade"))
  {
  }

  /**
   Validation order, continued: with a valid instrument and trade, the
   contract count is parsed next; then an option leg needs its type, checked
   against its two words, then its strike, which must be a number, and last
   its premium, which must be a number when present.
   */
  lemma OptionFieldsCheckedInOrder(raw: RawLeg, spot: real)
    requires "Instrument" !in raw || SpellsOneOf(raw["Instrument"], {"option", "underlying"})
    requires "Trade" in raw && SpellsOneOf(raw["Trade"], {"long", "short"})
    ensures !NumberOrAbsent(raw, "Contract") ==> ResolveLeg(raw, spot) == Err(NotANumber("Contract"))
    ensures NumberOrAbsent(raw, "Contract") && IsOption(raw) && "Type" !in raw ==>
              ResolveLeg(raw, spot) == Err(MissingField("Type"))
    ensures NumberOrAbsent(raw, "Contract") && IsOption(raw) && "Type" in raw && !SpellsOneOf(raw["Type"], {"call", "put"}) ==>
              ResolveLeg(raw, spot) == Err(InvalidEnumeration("Type"))
    ensures (NumberOrAbsent(raw, "Contract") && IsOption(raw) && "Type" in raw && SpellsOneOf(raw["Type"], {"call", "put"})
             && "Strike" !in raw) ==> ResolveLeg(raw, spot) == Err(MissingField("Strike"))
    ensures (NumberOrAbsent(raw, "Contract") && IsOption(raw) && "Type" in raw && SpellsOneOf(raw["Type"], {"call", "put"})
             && "Strike" in raw && raw["Strike"].Text?) ==> ResolveLeg(raw, spot) == Err(NotANumber("Strike"))
    ensures (NumberOrAbsent(raw, "Contract") && IsOption(raw) && "Type" in raw && SpellsOneOf(raw["Type"], {"call", "put"})
             && "Strike" in raw && raw["Strike"].Number? && !NumberOrAbsent(raw, "Premium"))
            ==> ResolveLeg(raw, spot) == Err(NotANumber("Premium"))
  {
  }

  /**
   Validation order for an underlying leg: with a valid instrument, trade
   and contract count, only the entry price is left, and it must be a
   number when present.
   */
  lemma UnderlyingFieldsCheckedInOrder(raw: RawLeg, spot: real)
    requires "Instrument" in raw && SpellsOneOf(raw["Instrument"], {"option", "underlying"}) && !IsOption(raw)
    requires "Trade" in raw && SpellsOneOf(raw["Trade"], {"long", "short"})
    ensures !NumberOrAbsent(raw, "Contract") ==> ResolveLeg(raw, spot) == Err(NotANumber("Contract"))
    ensures NumberOrAbsent(raw, "Contract") && !NumberOrAbsent(raw, "Entry") ==>
              ResolveLeg(raw, spot) == Err(NotANumber("Entry"))
    ensures NumberOrAbsent(raw, "Contract") && NumberOrAbsent(raw, "Entry") ==> ResolveLeg(raw, spot).Ok?
  {
  }

  /**
   The option type, strike and premium are looked at only for options: an
   underlying leg resolves the same whatever they hold or whether they are there.
   */
  lemma UnderlyingIgnoresOptionFields(raw: RawLeg, spot: real)
    requires !IsOption(raw)
    ensures ResolveLeg(raw, spot) == ResolveLeg(raw - {"Type", "Strike", "Premium"}, spot)
  {
    var cut := raw - {"Type", "Strike", "Premium"};
    assert Get(cut, "Instrument", Text("option")) == Get(raw, "Instrument", Text("option"));
    assert Get(cut, "Contract", Number(1.0)) == Get(raw, "Contract", Number(1.0));
    assert Get(cut, "Entry", Number(spot)) == Get(raw, "Entry", Number(spot));
    assert ("Trade" in cut) == ("Trade" in raw);
    if "Trade" in raw {
      assert cut["Trade"] == raw["Trade"];
    }
  }

  /**
   An absent field resolves exactly as its default would: instrument
   "option" (this lemma), one contract, premium 0, entry at the spot price
   (the three lemmas below).
   */
  lemma DefaultInstrument(raw: RawLeg, spot: real)
    requires "Instrument" !in raw
    ensures ResolveLeg(raw, spot) == ResolveLeg(raw["Instrument" := Text("option")], spot)
  {
    LowerOfLowerWord("option");
  }

  /** `leg.get('Contract', 1)` */
  lemma DefaultContract(raw: RawLeg, spot: real)
    requires "Contract" !in raw
    ensures ResolveLeg(raw, spot) == ResolveLeg(raw["Contract" := Number(1.0)], spot)
  {
  }

  /** `leg.get('Premium', 0.0)` */
  lemma DefaultPremium(raw: RawLeg, spot: real)
    requires "Premium" !in raw
    ensures ResolveLeg(raw, spot) == ResolveLeg(raw["Premium" := Number(0.0)], spot)
  {
  }

  /** `leg.get('Entry', spot)` */
  lemma DefaultEntry(raw: RawLeg, spot: real)
    requires "Entry" !in raw
    ensures ResolveLeg(raw, spot) == ResolveLeg(raw["Entry" := Number(spot)], spot)
  {
  }

  /** Categorical fields are case-insensitive: a field and its lower-cased text resolve alike. */
  lemma CaseInsensitive(raw: RawLeg, spot: real, key: string, s: string)
    requires key in {"Instrument", "Trade", "Type"}
    ensures ResolveLeg(raw[key := Text(s)], spot) == ResolveLeg(raw[key := Text(Lower(s))], spot)
  {
    LowerIdempotent(s);
  }

  // ----------------------------------------------------------------------
  // Curves, labels and the total
  // ----------------------------------------------------------------------

  /** The payoff curve of one resolved leg over the grid (the `payoff_option` or `payoff_underlying` call). */
  function LegPayoff(grid: seq<real>, leg: Leg): (ys: seq<real>)
    ensures |ys| == |grid|
  {
    match leg
    case OptionLeg(trade, kind, strike, premium, n) => PayoffOption(grid, kind, strike, premium, trade, n)
    case UnderlyingLeg(trade, entry, n) => PayoffUnderlying(grid, entry, trade, n)
  }

  /** The fields a leg's legend entry displays; their rendering as text is not modelled. */
  datatype Label =
    | OptionLabel(n: int, trade: Trade, kind: OptType, strike: real, premium: real)
    | UnderlyingLabel(n: int, trade: Trade, entry: real)

  function LabelOf(leg: Leg): (l: Label)
    ensures l.n == leg.n && l.trade == leg.trade
    ensures l.OptionLabel? <==> leg.OptionLeg?
  {
    match leg
    case OptionLeg(trade, kind, strike, premium, n) => OptionLabel(n, trade, kind, strike, premium)
    case UnderlyingLeg(trade, entry, n) => UnderlyingLabel(n, trade, entry)
  }

  /** Every curve has at least `i + 1` points. */
  predicate Covers(curves: seq<seq<real>>, i: nat) {
    forall l :: 0 <= l < |curves| ==> i < |curves[l]|
  }

  /** The sum over all curves of their value at grid index `i`, added in curve order. */
  function SumAt(curves: seq<seq<real>>, i: nat): real
    requires Covers(curves, i)
  {
    if curves == [] then 0.0 else SumAt(curves[..|curves| - 1], i) + curves[|curves| - 1][i]
  }

  /** Summing two runs of curves is summing each and adding. */
  lemma {:induction false} SumAtAppend(a: seq<seq<real>>, b: seq<seq<real>>, i: nat)
    requires Covers(a, i) && Covers(b, i)
    ensures Covers(a + b, i)
    ensures SumAt(a + b, i) == SumAt(a, i) + SumAt(b, i)
  {
    if b == [] {
      assert a + b == a;
    } else {
      var b' := b[..|b| - 1];
      assert (a + b)[..|a + b| - 1] == a + b';
      assert (a + b)[|a + b| - 1] == b[|b| - 1];
      SumAtAppend(a, b', i);
    }
  }

  /** Taking one curve out of the middle takes its value out of the sum. */
  lemma SumAtRemove(b: seq<seq<real>>, k: nat, i: nat)
    requires k < |b| && Covers(b, i)
    ensures Covers(b[..k] + b[k + 1..], i)
    ensures SumAt(b, i) == SumAt(b[..k] + b[k + 1..], i) + b[k][i]
  {
    var front, back := b[..k], b[k + 1..];
    assert b == front + [b[k]] + back;
    assert Covers(front, i) && Covers(back, i);
    assert SumAt([b[k]], i) == b[k][i] by {
      assert [b[k]][..0] == [];
    }
    SumAtAppend(front, [b[k]], i);
    SumAtAppend(front + [b[k]], back, i);
    SumAtAppend(front, back, i);
  }

  lemma MultisetCancel<T>(x: multiset<T>, y: multiset<T>, z: multiset<T>)
    requires x + z == y + z
    ensures x == y
  {
    forall e ensures x[e] == y[e] {
      assert (x + z)[e] == (y + z)[e];
    }
  }

  /** The last curve of `a` occurs in a permutation `b` of `a`, and removing it from both leaves permutations. */
  lemma MatchLast(a: seq<seq<real>>, b: seq<seq<real>>) returns (k: nat)
    requires a != [] && multiset(a) == multiset(b)
    ensures k < |b| && b[k] == a[|a| - 1]
    ensures multiset(a[..|a| - 1]) == multiset(b[..k] + b[k + 1..])
  {
    var last := a[|a| - 1];
    assert a == a[..|a| - 1] + [last];
    assert last in multiset(b);
    k :| 0 <= k < |b| && b[k] == last;
    assert multiset(b) == multiset(b[..k] + b[k + 1..]) + multiset{last} by {
      assert b == b[..k] + [last] + b[k + 1..];
    }
    MultisetCancel(multiset(a[..|a| - 1]), multiset(b[..k] + b[k + 1..]), multiset{last});
  }

  /** The strategy total does not depend on the order in which its legs are listed. */
  lemma {:induction false} SumAtPermutation(a: seq<seq<real>>, b: seq<seq<real>>, i: nat)
    requires multiset(a) == multiset(b)
    requires Covers(a, i) && Covers(b, i)
    ensures SumAt(a, i) == SumAt(b, i)
  {
    if a == [] {
      assert |b| == |multiset(b)| == 0;
    } else {
      var k := MatchLast(a, b);
      SumAtRemove(b, k, i);
      SumAtPermutation(a[..|a| - 1], b[..k] + b[k + 1..], i);
    }
  }

  /** `total` has `width` points, and at each the sum of all the curves there. */
  predicate IsTotal(curves: seq<seq<real>>, width: nat, total: seq<real>) {
    && |total| == width
    && forall i :: 0 <= i < width ==> Covers(curves, i) && total[i] == SumAt(curves, i)
  }

  /** What the strategy computation hands to the renderer. */
  datatype Payoffs = Payoffs(curves: seq<seq<real>>, labels: seq<Label>, total: seq<real>)

  /**
   Applies `resolve` to the raw legs one after the other and collects the
   results in order, stopping at the first leg that fails.
   */
  function ResolveEach(resolve: RawLeg -> Result<Leg>, strategy: seq<RawLeg>): Result<seq<Leg>> {
    if strategy == [] then Ok([])
    else
      var legs :- ResolveEach(resolve, strategy[..|strategy| - 1]);
      var leg :- resolve(strategy[|strategy| - 1]);
      Ok(legs + [leg])
  }

  /** Resolving one more leg extends the resolved prefix, or fails with that leg's error. */
  lemma ResolveEachStep(resolve: RawLeg -> Result<Leg>, strategy: seq<RawLeg>, k: nat, legs: seq<Leg>)
    requires k < |strategy| && ResolveEach(resolve, strategy[..k]) == Ok(legs)
    ensures resolve(strategy[k]).Ok? ==> ResolveEach(resolve, strategy[..k + 1]) == Ok(legs + [resolve(strategy[k]).value])
    ensures resolve(strategy[k]).Err? ==> ResolveEach(resolve, strategy[..k + 1]) == Err(resolve(strategy[k]).error)
  {
    assert strategy[..k + 1][..k] == strategy[..k];
  }

  /** Once a prefix of the strategy fails, the whole strategy fails with the same error. */
  lemma {:induction false} ResolveEachPrefixError(resolve: RawLeg -> Result<Leg>, strategy: seq<RawLeg>, j: nat)
    requires j <= |strategy| && ResolveEach(resolve, strategy[..j]).Err?
    ensures ResolveEach(resolve, strategy) == ResolveEach(resolve, strategy[..j])
    decreases |strategy| - j
  {
    if j < |strategy| {
      assert strategy[..j + 1][..j] == strategy[..j];
      ResolveEachPrefixError(resolve, strategy, j + 1);
    } else {
      assert strategy[..j] == strategy;
    }
  }

  /** A strategy resolves exactly when every leg does, and then leg by leg. */
  lemma {:induction false} ResolveEachAllOk(resolve: RawLeg -> Result<Leg>, strategy: seq<RawLeg>)
    ensures ResolveEach(resolve, strategy).Ok? <==> forall k :: 0 <= k < |strategy| ==> resolve(strategy[k]).Ok?
    ensures ResolveEach(resolve, strategy).Ok? ==>
              && |ResolveEach(resolve, strategy).value| == |strategy|
              && forall k :: 0 <= k < |strategy| ==> resolve(strategy[k]) == Ok(ResolveEach(resolve, strategy).value[k])
  {
    if strategy != [] {
      var front := strategy[..|strategy| - 1];
      ResolveEachAllOk(resolve, front);
      assert forall k :: 0 <= k < |front| ==> front[k] == strategy[k];
    }
  }

  /**
   When a strategy fails, its error is that of its first failing leg: that
   leg fails with it, and every leg before it resolves.
   */
  lemma {:induction false} ResolveEachFirstError(resolve: RawLeg -> Result<Leg>, strategy: seq<RawLeg>)
    requires ResolveEach(resolve, strategy).Err?
    ensures exists k :: 0 <= k < |strategy| && resolve(strategy[k]) == Err(ResolveEach(resolve, strategy).error)
                        && forall m :: 0 <= m < k ==> resolve(strategy[m]).Ok?
  {
    var front := strategy[..|strategy| - 1];
    assert forall k :: 0 <= k < |front| ==> front[k] == strategy[k];
    if ResolveEach(resolve, front).Err? {
      ResolveEachFirstError(resolve, front);
    } else {
      ResolveEachAllOk(resolve, front);
    }
  }

  /** The legs of a strategy resolved in order, or the error of the first leg that fails. */
  function ResolveLegs(strategy: seq<RawLeg>, spot: real): Result<seq<Leg>> {
    ResolveEach(raw => ResolveLeg(raw, spot), strategy)
  }

  /**
   Strategy_builder's computation, from `y_list = []` to the last
   `y_total += y_leg`: resolve each leg in order, collecting its curve and its
   label, aborting at the first leg that fails; then add the curves, one after
   the other, into a zeroed total.
   */
  method StrategyBuilder(grid: seq<real>, spot: real, strategy: seq<RawLeg>) returns (r: Result<Payoffs>)
    ensures r.Err? <==> ResolveLegs(strategy, spot).Err?
    ensures r.Err? ==> r.error == ResolveLegs(strategy, spot).error
    ensures r.Ok? ==> var legs := ResolveLegs(strategy, spot).value;
              && |r.value.curves| == |r.value.labels| == |legs|
              && (forall k :: 0 <= k < |legs| ==> r.value.curves[k] == LegPayoff(grid, legs[k]))
              && (forall k :: 0 <= k < |legs| ==> r.value.labels[k] == LabelOf(legs[k]))
    ensures r.Ok? ==> IsTotal(r.value.curves, |grid|, r.value.total)
  {
    var curves: seq<seq<real>> := [];
    var labels: seq<Label> := [];
    ghost var legs: seq<Leg> := [];
    var k := 0;
    while k < |strategy|
      invariant 0 <= k <= |strategy|
      invariant ResolveEach(raw => ResolveLeg(raw, spot), strategy[..k]) == Ok(legs)
      invariant |legs| == |curves| == |labels| == k
      invariant forall m :: 0 <= m < k ==> curves[m] == LegPayoff(grid, legs[m]) && labels[m] == LabelOf(legs[m])
    {
      var leg := ResolveLeg(strategy[k], spot);
      ResolveEachStep(raw => ResolveLeg(raw, spot), strategy, k, legs);
      if leg.Err? {
        ResolveEachPrefixError(raw => ResolveLeg(raw, spot), strategy, k + 1);
        return Err(leg.error);
      }
      curves := curves + [LegPayoff(grid, leg.value)];
      labels := labels + [LabelOf(leg.value)];
      legs := legs + [leg.value];
      k := k + 1;
    }
    assert strategy[..k] == strategy;
    var total := SumCurves(curves, |grid|);
    return Ok(Payoffs(curves, labels, total));
  }

  /**
   `y_total = zeros_like(x)` followed by `y_total += y_leg` for each curve in
   turn: the total at every grid index is the sum of the curves there.
   */
  method SumCurves(curves: seq<seq<real>>, width: nat) returns (total: seq<real>)
    requires forall l :: 0 <= l < |curves| ==> |curves[l]| == width
    ensures IsTotal(curves, width, total)
  {
    var acc := new real[width](_ => 0.0);
    var k := 0;
    while k < |curves|
      invariant 0 <= k <= |curves|
      invariant forall i :: 0 <= i < width ==> Covers(curves[..k], i) && acc[i] == SumAt(curves[..k], i)
    {
      assert forall i :: 0 <= i < width ==> SumAt(curves[..k + 1], i) == SumAt(curves[..k], i) + curves[k][i] by {
        assert curves[..k + 1][..k] == curves[..k];
      }
      AddInto(acc, curves[k]);
      k := k + 1;
    }
    assert curves[..k] == curves;
    total := acc[..];
  }

  /** `y_total += y_leg`: element-wise addition in place. */
  method AddInto(acc: array<real>, y: seq<real>)
    requires |y| == acc.Length
    modifies acc
    ensures forall i :: 0 <= i < acc.Length ==> acc[i] == old(acc[i]) + y[i]
  {
    var i := 0;
    while i < acc.Length
      invariant 0 <= i <= acc.Length
      invariant forall j :: 0 <= j < i ==> acc[j] == old(acc[j]) + y[j]
      invariant forall j :: i <= j < acc.Length ==> acc[j] == old(acc[j])
    {
      acc[i] := acc[i] + y[i];
      i := i + 1;
    }
  }

  // ----------------------------------------------------------------------
  // The default strategy
  // ----------------------------------------------------------------------

  /**
   The list assigned when `Strategy is None`: one unit of the underlying
   bought at the spot price, a short 110 call for a premium of 2 and a short
   95 put for a premium of 6.
   */
  function DefaultStrategy(spot: real): seq<RawLeg> {
    [ map["Instrument" := Text("underlying"), "Trade" := Text("long"), "Entry" := Number(spot), "Contract" := Number(1.0)],
      map["Instrument" := Text("option"), "Type" := Text("call"), "Strike" := Number(110.0), "Trade" := Text("short"),
          "Premium" := Number(2.0), "Contract" := Number(1.0)],
      map["Instrument" := Text("option"), "Type" := Text("put"), "Strike" := Number(95.0), "Trade" := Text("short"),
          "Premium" := Number(6.0), "Contract" := Number(1.0)] ]
  }

  /**
   The default strategy's payoff written out by price range: below the put
   strike it falls twice as fast as the price, between the strikes it follows
   the price, and above the call strike it is capped.
   */
  function DefaultStrategyProfile(x: real, spot: real): real {
    if x <= 95.0 then 2.0 * x - spot - 87.0
    else if x <= 110.0 then x - spot + 8.0
    else 118.0 - spot
  }

  /** The positions the default legs describe. */
  function DefaultLegs(spot: real): seq<Leg> {
    [UnderlyingLeg(Long, spot, 1), OptionLeg(Short, Call, 110.0, 2.0, 1), OptionLeg(Short, Put, 95.0, 6.0, 1)]
  }

  /** Each default leg passes validation and resolves to the position it describes. */
  lemma DefaultStrategyResolves(spot: real)
    ensures |DefaultStrategy(spot)| == |DefaultLegs(spot)| == 3
    ensures forall k :: 0 <= k < 3 ==> ResolveLeg(DefaultStrategy(spot)[k], spot) == Ok(DefaultLegs(spot)[k])
  {
    LegalWordsAreLowerCase();
    var raw, legs := DefaultStrategy(spot), DefaultLegs(spot);
    assert ResolveLeg(raw[0], spot) == Ok(legs[0]);
    assert ResolveLeg(raw[1], spot) == Ok(legs[1]);
    assert ResolveLeg(raw[2], spot) == Ok(legs[2]);
  }

  /** The three default curves add up, at every grid index, to the profile above. */
  lemma DefaultStrategyTotal(grid: seq<real>, spot: real, curves: seq<seq<real>>, i: nat)
    requires i < |grid|
    requires |curves| == 3 && forall k :: 0 <= k < 3 ==> curves[k] == LegPayoff(grid, DefaultLegs(spot)[k])
    ensures Covers(curves, i) && SumAt(curves, i) == DefaultStrategyProfile(grid[i], spot)
  {
    var c0, c1, c2 := curves[0], curves[1], curves[2];
    assert curves == [c0, c1, c2];
    assert SumAt([c0], i) == c0[i] by {
      assert [c0][..0] == curves[..0];
    }
    assert SumAt([c0, c1], i) == c0[i] + c1[i] by {
      assert [c0, c1][..1] == [c0];
    }
    assert SumAt(curves, i) == c0[i] + c1[i] + c2[i] by {
      assert curves[..2] == [c0, c1];
    }
  }

  /**
   Running the builder on the default strategy succeeds, and its total payoff
   at every grid price is the profile above: the most it can gain is
   `118 - spot`, whatever the price.
   */
  method DefaultStrategyPayoff(grid: seq<real>, spot: real) returns (total: seq<real>)
    ensures |total| == |grid|
    ensures forall i :: 0 <= i < |grid| ==> total[i] == DefaultStrategyProfile(grid[i], spot)
    ensures forall i :: 0 <= i < |grid| ==> total[i] <= 118.0 - spot
  {
    DefaultStrategyResolves(spot);
    ResolveEachAllOk(raw => ResolveLeg(raw, spot), DefaultStrategy(spot));
    var r := StrategyBuilder(grid, spot, DefaultStrategy(spot));
    total := r.value.total;
    forall i | 0 <= i < |grid|
      ensures total[i] == DefaultStrategyProfile(grid[i], spot)
    {
      DefaultStrategyTotal(grid, spot, r.value.curves, i);
    }
  }
}

/**
 The vocabulary of a strategy leg and the three validators that guard it.

 A leg arrives with loosely typed categorical fields (plain strings). Each
 validator accepts exactly the two lower-case words of its field and fails
 with an `InvalidEnumeration` error naming the field otherwise; on success it
 yields the closed enumeration value the word stands for.
 */
module Validators {

  /** The failures a strategy computation can end with. */
  datatype Error =
    | InvalidEnumeration(field: string)  // a categorical field outside its two legal words
    | MissingField(field: string)        // a required field is absent
    | NotANumber(field: string)          // a numeric field holds text

  /** Either a value or the error that aborted the computation; usable with `:-`. */
  datatype Result<+T> = Ok(value: T) | Err(error: Error) {
    predicate IsFailure() { Err? }
    function PropagateFailure<U>(): Result<U> requires Err? { Err(error) }
    function Extract(): T requires Ok? { value }
  }

  datatype OptType = Call | Put
  datatype Trade = Long | Short
  datatype Instrument = Option | Underlying

  /** The word that names each enumeration value in a strategy definition. */
  function OptTypeName(t: OptType): string {
    match t
    case Call => "call"
    case Put => "put"
  }

  function TradeName(t: Trade): string {
    match t
    case Long => "long"
    case Short => "short"
  }

  function InstrumentName(i: Instrument): string {
    match i
    case Option => "option"
    case Underlying => "underlying"
  }

  /** A validated leg: categorical fields are enumerations, numbers are parsed. */
  datatype Leg =
    | OptionLeg(trade: Trade, kind: OptType, strike: real, premium: real, n: int)
    | UnderlyingLeg(trade: Trade, entry: real, n: int)

  // ----------------------------------------------------------------------
  // Lower-casing
  // ----------------------------------------------------------------------

  predicate IsUpper(c: char) { 'A' <= c <= 'Z' }

  function LowerChar(c: char): char {
    if IsUpper(c) then (c as int - 'A' as int + 'a' as int) as char else c
  }

  /** Lower-cases the ASCII letters of `s` and keeps every other character. */
  function Lower(s: string): (r: string)
    ensures |r| == |s|
  {
    seq(|s|, i requires 0 <= i < |s| => LowerChar(s[i]))
  }

  /**
   Character by character: each capital becomes the same letter in lower
   case, every other character is kept, and no capital is left.
   */
  lemma LowerCharacters(s: string)
    ensures forall i :: 0 <= i < |s| ==> !IsUpper(Lower(s)[i])
    ensures forall i :: 0 <= i < |s| && !IsUpper(s[i]) ==> Lower(s)[i] == s[i]
    ensures forall i :: 0 <= i < |s| && IsUpper(s[i]) ==> Lower(s)[i] as int - 'a' as int == s[i] as int - 'A' as int
  {
  }

  /** Lower-casing twice is lower-casing once. */
  lemma LowerIdempotent(s: string)
    ensures Lower(Lower(s)) == Lower(s)
  {
    var once := Lower(s);
    LowerCharacters(s);
    LowerCharacters(once);
    assert forall i :: 0 <= i < |once| ==> Lower(once)[i] == once[i];
  }

  /** A word without capitals is its own lower-case form. */
  lemma LowerOfLowerWord(s: string)
    requires forall i :: 0 <= i < |s| ==> !IsUpper(s[i])
    ensures Lower(s) == s
  {
    LowerCharacters(s);
    assert forall i :: 0 <= i < |s| ==> Lower(s)[i] == s[i];
  }

  /** The six legal words are already lower-case. */
  lemma LegalWordsAreLowerCase()
    ensures Lower("call") == "call" && Lower("put") == "put"
    ensures Lower("long") == "long" && Lower("short") == "short"
    ensures Lower("option") == "option" && Lower("underlying") == "underlying"
  {
    LowerOfLowerWord("call");
    LowerOfLowerWord("put");
    LowerOfLowerWord("long");
    LowerOfLowerWord("short");
    LowerOfLowerWord("option");
    LowerOfLowerWord("underlying");
  }

  // ----------------------------------------------------------------------
  // Validators
  // ----------------------------------------------------------------------

  /** check_optype: accepts exactly "put" and "call". */
  function CheckOptType(s: string): (r: Result<OptType>)
    ensures r.Ok? <==> s == "put" || s == "call"
    ensures r.Ok? ==> OptTypeName(r.value) == s
    ensures r.Err? ==> r.error == InvalidEnumeration("Type")
  {
    if s == "put" then Ok(Put)
    else if s == "call" then Ok(Call)
    else Err(InvalidEnumeration("Type"))
  }

  /** check_trtype: accepts exactly "long" and "short". */
  function CheckTrade(s: string): (r: Result<Trade>)
    ensures r.Ok? <==> s == "long" || s == "short"
    ensures r.Ok? ==> TradeName(r.value) == s
    ensures r.Err? ==> r.error == InvalidEnumeration("Trade")
  {
    if s == "long" then Ok(Long)
    else if s == "short" then Ok(Short)
    else Err(InvalidEnumeration("Trade"))
  }

  /** check_instrument: accepts exactly "option" and "underlying". */
  function CheckInstrument(s: string): (r: Result<Instrument>)
    ensures r.Ok? <==> s == "option" || s == "underlying"
    ensures r.Ok? ==> InstrumentName(r.value) == s
    ensures r.Err? ==> r.error == InvalidEnumeration("Instrument")
  {
    if s == "option" then Ok(Option)
    else if s == "underlying" then Ok(Underlying)
    else Err(InvalidEnumeration("Instrument"))
  }

  /** Every enumeration value's own word passes its validator and yields it back. */
  lemma ValidatorsRoundTrip(t: OptType, d: Trade, i: Instrument)
    ensures CheckOptType(OptTypeName(t)) == Ok(t)
    ensures CheckTrade(TradeName(d)) == Ok(d)
    ensures CheckInstrument(InstrumentName(i)) == Ok(i)
  {
  }

  /** Every word a validator accepts is already lower-case: `Lower` leaves it unchanged. */
  lemma ValidatorsAcceptOnlyLowerCase(s: string)
    ensures CheckOptType(s).Ok? ==> Lower(s) == s
    ensures CheckTrade(s).Ok? ==> Lower(s) == s
    ensures CheckInstrument(s).Ok? ==> Lower(s) == s
  {
    if CheckOptType(s).Ok? || CheckTrade(s).Ok? || CheckInstrument(s).Ok? {
      LowerOfLowerWord(s);
    }
  }
}

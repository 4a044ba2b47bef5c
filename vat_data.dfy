/**
  The EU VAT dataset and the read-only lookups `EuVatRates` serves from it:
  `getRate`, `getStandardRate`, `getAllRates`, `isEuMember` and `dataVersion`,
  each taken here as a function of the dataset that `load()` has cached.
 */
module VatData {
  import opened Wrappers
  import opened Ascii

  /** A VAT percentage in hundredths of a percentage point (25.5% is 2550). */
  type Rate = int

  /** One jurisdiction's entry in `rates`. */
  datatype RateRecord = RateRecord(
    country: string,
    currency: string,
    standard: Rate,
    reduced: seq<Rate>,
    superReduced: Option<Rate>,
    parking: Option<Rate>)

  /** The decoded data file: a snapshot date and the rates keyed by country code. */
  datatype Dataset = Dataset(version: string, rates: map<string, RateRecord>)

  /** `getRate(code)`: the record stored under `strtoupper(code)`, or null. */
  function GetRate(d: Dataset, code: string): (r: Option<RateRecord>)
    ensures r.Some? <==> ToUpper(code) in d.rates
    ensures r.Some? ==> r.value in d.rates.Values
  {
    var key := ToUpper(code);
    if key in d.rates then Some(d.rates[key]) else None
  }

  /** `isEuMember(code)`: whether `strtoupper(code)` is a key of `rates`. */
  function IsEuMember(d: Dataset, code: string): (b: bool)
    ensures b <==> GetRate(d, code).Some?
  {
    ToUpper(code) in d.rates
  }

  /** `getStandardRate(code)`: the `standard` field of `getRate(code)`, or null. */
  function GetStandardRate(d: Dataset, code: string): (r: Option<Rate>)
    ensures r.Some? <==> IsEuMember(d, code)
    ensures r.Some? ==> r.value == GetRate(d, code).value.standard
  {
    match GetRate(d, code)
    case Some(rate) => Some(rate.standard)
    case None => None
  }

  /** `getAllRates()`: the whole `rates` map. */
  function GetAllRates(d: Dataset): (r: map<string, RateRecord>)
    ensures r == d.rates
    ensures forall code :: ToUpper(code) in r <==> IsEuMember(d, code)
    ensures forall code :: IsEuMember(d, code) ==> r[ToUpper(code)] == GetRate(d, code).value
  {
    d.rates
  }

  /** `dataVersion()`: the `version` field. */
  function DataVersion(d: Dataset): (r: string)
    ensures r == d.version
  {
    d.version
  }

  /** Lookups ignore the case of ASCII letters: "fi", "Fi" and "FI" agree. */
  lemma GetRateIgnoresCase(d: Dataset, a: string, b: string)
    requires SameIgnoringCase(a, b)
    ensures GetRate(d, a) == GetRate(d, b)
    ensures IsEuMember(d, a) == IsEuMember(d, b)
    ensures GetStandardRate(d, a) == GetStandardRate(d, b)
  {
    ToUpperEqualIffSameIgnoringCase(a, b);
  }

  /** Looking up a code or its upper-case form gives the same answer. */
  lemma GetRateOfUpper(d: Dataset, code: string)
    ensures GetRate(d, code) == GetRate(d, ToUpper(code))
  {
    ToUpperIdempotent(code);
  }

  /** Looking up a code or its lower-case form gives the same answer. */
  lemma GetRateOfLower(d: Dataset, code: string)
    ensures GetRate(d, code) == GetRate(d, ToLower(code))
  {
    ToUpperOfToLower(code);
  }

  /**
    Which entries can be found at all: a key of `rates` is reachable by some
    code exactly when it holds no lower-case letter, and then by itself.
   */
  lemma ReachableKeys(d: Dataset, key: string)
    requires key in d.rates
    ensures (exists code :: ToUpper(code) == key) <==> NoLower(key)
    ensures NoLower(key) ==> GetRate(d, key) == Some(d.rates[key])
  {
    ToUpperFixesExactlyNoLower(key);
  }

  /** `getAllRates()` and `getRate` agree on every code. */
  lemma AllRatesAgreeWithGetRate(d: Dataset, code: string)
    ensures ToUpper(code) in GetAllRates(d) <==> GetRate(d, code).Some?
    ensures GetRate(d, code).Some? ==> GetAllRates(d)[ToUpper(code)] == GetRate(d, code).value
  {
  }
}

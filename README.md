# EU VAT rates lookup, modelled in Dafny

`VATNode\EuVatRates\EuVatRates` is a static PHP class that serves EU VAT rates
(the EU-27 plus the United Kingdom) from a bundled JSON data file. A private
static field `$dataset` caches the decoded file: it is null until the first
accessor call, `load()` reads and decodes the file while it is null, and the
field is assigned only once decoding succeeds. The public accessors `getRate`,
`getStandardRate`, `getAllRates`, `isEuMember` and `dataVersion` go through
`load()` and then read the cached map. `getRate` and `isEuMember` uppercase the
country code with `strtoupper` before the lookup.

The model has four modules:

- `Wrappers` (`wrappers.dfy`): `Option` stands for PHP's `null`, and `Result` stands for an exception that escapes a call.
- `Ascii` (`ascii.dfy`): PHP 8.2's locale-independent `strtoupper` (earlier versions behave the same under the C locale), which maps ASCII `a`-`z` to `A`-`Z` and leaves everything else as it is. It also holds the facts about case that the lookups rely on.
- `VatData` (`vat_data.dfy`): the `RateRecord` and `Dataset` values, and each accessor as a pure function of the cached dataset. Lemmas show that the accessors agree with one another and that lookups ignore case.
- `VatCache` (`vat_cache.dfy`): the cache.
  - `LoadStep` is one call of `load()` as a function from the old cache to the new cache and the outcome.
  - `Run` is the cache after a sequence of calls. Lemmas about it show that a filled cache never changes and that a failed load leaves the cache empty for the next call to retry.
  - The class `EuVatRates` has the field `dataset`, a `Load` method proved against `LoadStep`, and one method per accessor. Each accessor method loads first and then answers from `VatData`.

The inputs of `load()` that come from outside are parameters. `file` is what
`file_get_contents` returns on that call, with `None` standing for `false`.
`decode` is `json_decode`, a deterministic function of the file's text. It gives
`None` when decoding throws or when the result is not an array, which makes the
typed property or the `array` return type throw.

A failed read or decode leaves `$dataset` null, so the next accessor call reads
the file again (`RunFromEmpty`).

## Model

| member | source | states |
|---|---|---|
| Ascii.UpperChar | src/EuVatRates.php:47 | the upper-case form of a character is never an ASCII lower-case letter; any character other than `a`-`z` is unchanged; `a`-`z` go to `A`-`Z`, 32 code points lower |
| Ascii.ToUpper | src/EuVatRates.php:47 | `strtoupper` keeps the length, uppercases each character where it stands, and leaves no lower-case letter |
| Ascii.ToUpperFixesExactlyNoLower | src/EuVatRates.php:47 | uppercasing leaves a string unchanged if and only if it has no lower-case letter |
| Ascii.ToUpperIdempotent | src/EuVatRates.php:47 | uppercasing twice is the same as uppercasing once |
| Ascii.ToUpperEqualIffSameIgnoringCase | src/EuVatRates.php:47 | two strings have the same upper-case form if and only if they differ at most in the case of ASCII letters |
| Ascii.ToUpperOfToLower | src/EuVatRates.php:47 | lower-casing a code first does not change its upper-case form |
| VatData.GetRate | src/EuVatRates.php:44-48 | `getRate(code)` is non-null exactly when `strtoupper(code)` is a key of `rates`, and when it is non-null it is one of the stored records |
| VatData.IsEuMember | src/EuVatRates.php:78-81 | `isEuMember(code)` is true exactly when `getRate(code)` is non-null |
| VatData.GetStandardRate | src/EuVatRates.php:56-60 | `getStandardRate(code)` is non-null exactly when `isEuMember(code)`, and then it is the `standard` field of `getRate(code)` |
| VatData.GetAllRates | src/EuVatRates.php:67-70 | `getAllRates()` returns the `rates` map unchanged, so it holds the key `strtoupper(code)` exactly when `isEuMember(code)`, with the record `getRate(code)` returns |
| VatData.DataVersion | src/EuVatRates.php:88-91 | `dataVersion()` returns the `version` field verbatim |
| VatData.GetRateIgnoresCase | src/EuVatRates.php:44-48 | codes that differ only in letter case get the same answer from `getRate`, `isEuMember` and `getStandardRate` |
| VatData.GetRateOfUpper | src/EuVatRates.php:47 | `getRate(code) == getRate(strtoupper(code))` |
| VatData.GetRateOfLower | src/EuVatRates.php:47 | `getRate(code) == getRate(strtolower(code))` |
| VatData.ReachableKeys | src/EuVatRates.php:47 | a key of `rates` can be found by some code if and only if it has no lower-case letter, and such a key finds its own record |
| VatData.AllRatesAgreeWithGetRate | src/EuVatRates.php:67-70 | `getAllRates()` has the key `strtoupper(code)` exactly when `getRate(code)` is non-null, and holds the same record there |
| VatCache.LoadStep | src/EuVatRates.php:25-36 | `load()` throws exactly when the cache is still null afterwards, and otherwise returns the cached dataset. A filled cache is returned unchanged. An empty cache is filled only with what this call read and decoded. A failed read throws before decoding is tried, and a failed decode throws after it |
| VatCache.LoadIgnoresFileOnceFilled | src/EuVatRates.php:27-35 | once the cache is filled, `load()` gives the same result whatever the file would hold, so the file is not consulted |
| VatCache.RunKeepsFilledCache | src/EuVatRates.php:27-35 | once filled, the cache keeps the same dataset through any number of later calls |
| VatCache.RunFromEmpty | src/EuVatRates.php:27-33 | starting from null, the cache stays null exactly when every call's read or decode failed; otherwise it holds the dataset of the first call that succeeded |
| VatCache.EuVatRates.constructor | src/EuVatRates.php:23 | the cache starts null |
| VatCache.EuVatRates.Load | src/EuVatRates.php:25-36 | the new cache and the returned outcome are those of `LoadStep` on the old cache |
| VatCache.EuVatRates.GetRate | src/EuVatRates.php:44-48 | the call loads as `LoadStep` does, throws the load's error if the cache is still null, and otherwise returns `VatData.GetRate` of the cached dataset |
| VatCache.EuVatRates.GetStandardRate | src/EuVatRates.php:56-60 | goes through `getRate`, throwing the load's error or returning `VatData.GetStandardRate` of the cached dataset |
| VatCache.EuVatRates.GetAllRates | src/EuVatRates.php:67-70 | throws the load's error, or returns the cached `rates` map unchanged |
| VatCache.EuVatRates.IsEuMember | src/EuVatRates.php:78-81 | throws the load's error, or returns `VatData.IsEuMember` of the cached dataset |
| VatCache.EuVatRates.DataVersion | src/EuVatRates.php:88-91 | throws the load's error, or returns the cached `version` verbatim |
| VatCache.RepeatedCallsAgree | src/EuVatRates.php:67-91 | once `getAllRates()` has succeeded, later `getAllRates()` and `dataVersion()` calls succeed and repeat their answers whatever the file would then hold; a filled cache is left as it was |

## Left out

- Reading and decoding the data file (`file_get_contents`, `json_decode` with depth 512) are I/O and a foreign parser. They are the parameters `file` and `decode`. The exception messages are not modelled, only which of the two failures occurred.
- The model assumes a decoded file always has the `Dataset` shape. The PHP code would cache a JSON array of another shape, and the accessors would then misbehave. That case is not modelled. The outcomes would be:
  - Without `rates`, `getAllRates` throws a TypeError because it returns null from a function declared `: array`. `getRate` returns null after an undefined-key warning, and `isEuMember` returns false.
  - Without `version`, `dataVersion` throws a TypeError against its `: string` return type.
  - For a record without `standard`, `getStandardRate` returns `(float)null`, which is 0.0 rather than null.
- Rates are floats in the source. Here they are integers in hundredths of a percentage point, so the `(float)` cast in `getStandardRate` is the identity.
- VatData.GetStandardRate: PHP treats an empty record array as false at line 59 and would return null for it. Records always carry their six fields, so this case is not modelled.
- `strtoupper` works on bytes and the model works on characters. Only the bytes `a`-`z` change and UTF-8 never uses them inside a multi-byte character, so the two agree.
- The contents of the bundled data file (28 jurisdictions, the dated snapshot) are data, not code.
- The `version` string is never checked to be an ISO 8601 date, so that format is not a property here.
- PHP runs this single-threaded, so concurrent first loads are not modelled. The static field is one object's field, and callers pass that object.

/**
  The process-wide cache behind `EuVatRates`: the static field `$dataset`,
  null until the first successful `load()`, and the accessors that go
  through `load()` before looking anything up.

  What `load()` gets from outside is passed in: `file` is what
  `file_get_contents` returns on that call (`None` for `false`), and
  `decode` is `json_decode`, a fixed function of the file's text that gives
  `None` where decoding throws or yields no dataset.
 */
module VatCache {
  import opened Wrappers
  import opened VatData

  /** Why `load()` threw. */
  datatype LoadError = CannotReadFile | CannotDecode

  /** What one read-and-decode of the data file yields, if anything. */
  function Decoded(file: Option<string>, decode: string -> Option<Dataset>): Option<Dataset> {
    if file.Some? then decode(file.value) else None
  }

  /** The cache and the outcome after one call of `load()` on the cache `cache`. */
  datatype Step = Step(cache: Option<Dataset>, outcome: Result<Dataset, LoadError>)

  /** One call of `load()`. */
  function LoadStep(cache: Option<Dataset>, file: Option<string>, decode: string -> Option<Dataset>): (s: Step)
    // load() returns the cached dataset, and throws exactly when the cache is still null
    ensures s.cache.Some? <==> s.outcome.Success?
    ensures s.outcome.Success? ==> s.cache == Some(s.outcome.value)
    // a filled cache is returned as it is
    ensures cache.Some? ==> s.cache == cache
    // an empty cache is filled only by what this call read and decoded
    ensures cache.None? ==> s.cache == Decoded(file, decode)
    // the two failures, in the order the code meets them
    ensures cache.None? && file.None? ==> s.outcome == Failure(CannotReadFile)
    ensures cache.None? && file.Some? && decode(file.value).None? ==> s.outcome == Failure(CannotDecode)
  {
    match cache
    case Some(d) => Step(cache, Success(d))
    case None =>
      match file
      case None => Step(None, Failure(CannotReadFile))
      case Some(json) =>
        match decode(json)
        case None => Step(None, Failure(CannotDecode))
        case Some(d) => Step(Some(d), Success(d))
  }

  /** Once the cache is filled, `load()` does not depend on the file at all. */
  lemma LoadIgnoresFileOnceFilled(d: Dataset, file1: Option<string>, file2: Option<string>,
                                   decode1: string -> Option<Dataset>, decode2: string -> Option<Dataset>)
    ensures LoadStep(Some(d), file1, decode1) == LoadStep(Some(d), file2, decode2) == Step(Some(d), Success(d))
  {
  }

  /** The cache after a sequence of calls of `load()`, where `files[k]` is what call k would read. */
  function Run(cache: Option<Dataset>, files: seq<Option<string>>, decode: string -> Option<Dataset>): Option<Dataset>
    decreases |files|
  {
    if files == [] then cache else Run(LoadStep(cache, files[0], decode).cache, files[1..], decode)
  }

  /** Once filled, the cache never changes, whatever later calls would read. */
  lemma {:induction false} RunKeepsFilledCache(d: Dataset, files: seq<Option<string>>, decode: string -> Option<Dataset>)
    ensures Run(Some(d), files, decode) == Some(d)
    decreases |files|
  {
    if files != [] {
      RunKeepsFilledCache(d, files[1..], decode);
    }
  }

  /** Call `i` is the first one whose read and decode both succeed. */
  ghost predicate FirstSuccess(files: seq<Option<string>>, decode: string -> Option<Dataset>, i: int) {
    && 0 <= i < |files|
    && Decoded(files[i], decode).Some?
    && forall j :: 0 <= j < i ==> Decoded(files[j], decode).None?
  }

  /**
    Starting from null, the cache holds the dataset of the first call whose
    read and decode succeed, and stays null when no call succeeds: failed
    calls leave nothing behind, so a later call retries.
   */
  lemma {:induction false} RunFromEmpty(files: seq<Option<string>>, decode: string -> Option<Dataset>)
    ensures Run(None, files, decode).None? <==> forall j :: 0 <= j < |files| ==> Decoded(files[j], decode).None?
    ensures forall i :: FirstSuccess(files, decode, i) ==> Run(None, files, decode) == Decoded(files[i], decode)
    decreases |files|
  {
    if files != [] {
      var rest := files[1..];
      RunFromEmpty(rest, decode);
      match Decoded(files[0], decode)
      case Some(d) =>
        RunKeepsFilledCache(d, rest, decode);
        forall i | FirstSuccess(files, decode, i) ensures i == 0 {
        }
      case None =>
        forall i | FirstSuccess(files, decode, i) ensures FirstSuccess(rest, decode, i - 1) {
          forall j | 0 <= j < i - 1 ensures Decoded(rest[j], decode).None? {
            assert rest[j] == files[j + 1];
          }
        }
        if forall j :: 0 <= j < |rest| ==> Decoded(rest[j], decode).None? {
          forall j | 0 <= j < |files| ensures Decoded(files[j], decode).None? {
            if j > 0 { assert files[j] == rest[j - 1]; }
          }
        }
    }
  }

  /**
    `EuVatRates`: the static field `$dataset` becomes a field of the one
    object that stands for the class, and every public accessor first calls
    `load()`, so it may fill the cache or throw.
   */
  class EuVatRates {
    var dataset: Option<Dataset>

    /** Before the first call `$dataset` is null. */
    constructor ()
      ensures dataset == None
    {
      dataset := None;
    }

    /** `load()`: reads and decodes the data file only while the cache is null. */
    method Load(file: Option<string>, decode: string -> Option<Dataset>) returns (r: Result<Dataset, LoadError>)
      modifies this
      ensures Step(dataset, r) == LoadStep(old(dataset), file, decode)
    {
      if dataset.None? {
        if file.None? {
          return Failure(CannotReadFile);
        }
        var decoded := decode(file.value);
        if decoded.None? {
          return Failure(CannotDecode);
        }
        dataset := decoded;
      }
      r := Success(dataset.value);
    }

    /** `getRate(code)`. */
    method GetRate(code: string, file: Option<string>, decode: string -> Option<Dataset>)
      returns (r: Result<Option<RateRecord>, LoadError>)
      modifies this
      ensures dataset == LoadStep(old(dataset), file, decode).cache
      ensures r.Success? <==> dataset.Some?
      ensures r.Success? ==> r.value == VatData.GetRate(dataset.value, code)
      ensures r.Failure? ==> r.error == LoadStep(old(dataset), file, decode).outcome.error
    {
      var loaded := Load(file, decode);
      match loaded
      case Failure(e) => r := Failure(e);
      case Success(d) => r := Success(VatData.GetRate(d, code));
    }

    /** `getStandardRate(code)`: goes through `getRate`. */
    method GetStandardRate(code: string, file: Option<string>, decode: string -> Option<Dataset>)
      returns (r: Result<Option<Rate>, LoadError>)
      modifies this
      ensures dataset == LoadStep(old(dataset), file, decode).cache
      ensures r.Success? <==> dataset.Some?
      ensures r.Success? ==> r.value == VatData.GetStandardRate(dataset.value, code)
      ensures r.Failure? ==> r.error == LoadStep(old(dataset), file, decode).outcome.error
    {
      var rate := GetRate(code, file, decode);
      match rate
      case Failure(e) => r := Failure(e);
      case Success(None) => r := Success(None);
      case Success(Some(record)) => r := Success(Some(record.standard));
    }

    /** `getAllRates()`. */
    method GetAllRates(file: Option<string>, decode: string -> Option<Dataset>)
      returns (r: Result<map<string, RateRecord>, LoadError>)
      modifies this
      ensures dataset == LoadStep(old(dataset), file, decode).cache
      ensures r.Success? <==> dataset.Some?
      ensures r.Success? ==> r.value == VatData.GetAllRates(dataset.value)
      ensures r.Failure? ==> r.error == LoadStep(old(dataset), file, decode).outcome.error
    {
      var loaded := Load(file, decode);
      match loaded
      case Failure(e) => r := Failure(e);
      case Success(d) => r := Success(VatData.GetAllRates(d));
    }

    /** `isEuMember(code)`. */
    method IsEuMember(code: string, file: Option<string>, decode: string -> Option<Dataset>)
      returns (r: Result<bool, LoadError>)
      modifies this
      ensures dataset == LoadStep(old(dataset), file, decode).cache
      ensures r.Success? <==> dataset.Some?
      ensures r.Success? ==> r.value == VatData.IsEuMember(dataset.value, code)
      ensures r.Failure? ==> r.error == LoadStep(old(dataset), file, decode).outcome.error
    {
      var loaded := Load(file, decode);
      match loaded
      case Failure(e) => r := Failure(e);
      case Success(d) => r := Success(VatData.IsEuMember(d, code));
    }

    /** `dataVersion()`. */
    method DataVersion(file: Option<string>, decode: string -> Option<Dataset>)
      returns (r: Result<string, LoadError>)
      modifies this
      ensures dataset == LoadStep(old(dataset), file, decode).cache
      ensures r.Success? <==> dataset.Some?
      ensures r.Success? ==> r.value == VatData.DataVersion(dataset.value)
      ensures r.Failure? ==> r.error == LoadStep(old(dataset), file, decode).outcome.error
    {
      var loaded := Load(file, decode);
      match loaded
      case Failure(e) => r := Failure(e);
      case Success(d) => r := Success(VatData.DataVersion(d));
    }
  }

  /**
    Repeated calls: once `getAllRates()` or `dataVersion()` has succeeded, a
    later call returns the same value, whatever the file would then hold.
   */
  method RepeatedCallsAgree(store: EuVatRates, decode: string -> Option<Dataset>,
                            file1: Option<string>, file2: Option<string>, file3: Option<string>, file4: Option<string>)
    returns (all1: Result<map<string, RateRecord>, LoadError>, all2: Result<map<string, RateRecord>, LoadError>,
             version1: Result<string, LoadError>, version2: Result<string, LoadError>)
    modifies store
    ensures all1.Success? ==> all2 == all1 && version1.Success? && version2 == version1
    ensures old(store.dataset).Some? ==> store.dataset == old(store.dataset) && all1 == Success(old(store.dataset).value.rates)
  {
    all1 := store.GetAllRates(file1, decode);
    version1 := store.DataVersion(file2, decode);
    all2 := store.GetAllRates(file3, decode);
    version2 := store.DataVersion(file4, decode);
  }
}

/** `components/Settings.tsx`: the configuration form. It holds the assembled
    configuration (risk parameters and the watchlist) and the text of the
    "new ticker" input, and edits them through `handleChange`, `addTicker` and
    `removeTicker`. The download and cache buttons call the cache service,
    which `DataCache` models. */
module Settings {
  import opened Seqs
  import opened Text

  /** `AssembledConfig`, with the `initialCapital` and `watchlist` the form
      reads and writes. */
  datatype Config = Config(
    initialCapital: real,
    volTarget: real,
    maxDrawdownLimit: real,
    kellyScale: real,
    atrStopMultiplier: real,
    useHRP: bool,
    apiKey: Option<string>,
    watchlist: seq<string>)

  datatype Key = InitialCapitalKey | VolTargetKey | MaxDrawdownLimitKey | KellyScaleKey | AtrStopMultiplierKey | UseHrpKey | ApiKeyKey | WatchlistKey

  /** A `(key, value)` pair handed to `handleChange`, the value typed by its key. */
  datatype Change =
    | InitialCapital(r: real)
    | VolTarget(r: real)
    | MaxDrawdownLimit(r: real)
    | KellyScale(r: real)
    | AtrStopMultiplier(r: real)
    | UseHrp(b: bool)
    | ApiKey(s: Option<string>)
    | Watchlist(ts: seq<string>)

  function KeyOf(ch: Change): Key
  {
    match ch
    case InitialCapital(_) => InitialCapitalKey
    case VolTarget(_) => VolTargetKey
    case MaxDrawdownLimit(_) => MaxDrawdownLimitKey
    case KellyScale(_) => KellyScaleKey
    case AtrStopMultiplier(_) => AtrStopMultiplierKey
    case UseHrp(_) => UseHrpKey
    case ApiKey(_) => ApiKeyKey
    case Watchlist(_) => WatchlistKey
  }

  /** The field `k` of `c`, as the change that would set it to what it is. */
  function Read(c: Config, k: Key): (ch: Change)
    ensures KeyOf(ch) == k
  {
    match k
    case InitialCapitalKey => InitialCapital(c.initialCapital)
    case VolTargetKey => VolTarget(c.volTarget)
    case MaxDrawdownLimitKey => MaxDrawdownLimit(c.maxDrawdownLimit)
    case KellyScaleKey => KellyScale(c.kellyScale)
    case AtrStopMultiplierKey => AtrStopMultiplier(c.atrStopMultiplier)
    case UseHrpKey => UseHrp(c.useHRP)
    case ApiKeyKey => ApiKey(c.apiKey)
    case WatchlistKey => Watchlist(c.watchlist)
  }

  /** `{ ...config, [key]: value }`. */
  function Changed(c: Config, ch: Change): Config
  {
    match ch
    case InitialCapital(r) => c.(initialCapital := r)
    case VolTarget(r) => c.(volTarget := r)
    case MaxDrawdownLimit(r) => c.(maxDrawdownLimit := r)
    case KellyScale(r) => c.(kellyScale := r)
    case AtrStopMultiplier(r) => c.(atrStopMultiplier := r)
    case UseHrp(b) => c.(useHRP := b)
    case ApiKey(s) => c.(apiKey := s)
    case Watchlist(ts) => c.(watchlist := ts)
  }

  /** The changed field reads back the new value, every other field reads
      back what it was, and writing a field's own value changes nothing. */
  lemma ChangedSpec(c: Config, ch: Change, k: Key)
    ensures Read(Changed(c, ch), KeyOf(ch)) == ch
    ensures k != KeyOf(ch) ==> Read(Changed(c, ch), k) == Read(c, k)
    ensures Changed(c, Read(c, k)) == c
  {
  }

  /** Whether `addTicker` adds anything: the input is non-empty and its upper
      case is not yet on the watchlist. */
  predicate Adds(watchlist: seq<string>, input: string)
  {
    input != "" && Upper(input) !in watchlist
  }

  /** The watchlist after `addTicker`. */
  function WithTicker(watchlist: seq<string>, input: string): seq<string>
  {
    if Adds(watchlist, input) then watchlist + [Upper(input)] else watchlist
  }

  /** The watchlist after `removeTicker(t)`. */
  function WithoutTicker(watchlist: seq<string>, t: string): seq<string>
  {
    Filter(watchlist, (x: string) => x != t)
  }

  /** Adding keeps the watchlist free of duplicates and puts the new ticker,
      upper-cased, at the end; otherwise the list is unchanged; a second add
      of the same input is a no-op. */
  lemma WithTickerSpec(watchlist: seq<string>, input: string)
    ensures Distinct(watchlist) ==> Distinct(WithTicker(watchlist, input))
    ensures Adds(watchlist, input) ==>
      |WithTicker(watchlist, input)| == |watchlist| + 1 &&
      WithTicker(watchlist, input)[..|watchlist|] == watchlist &&
      WithTicker(watchlist, input)[|watchlist|] == Upper(input)
    ensures !Adds(watchlist, input) ==> WithTicker(watchlist, input) == watchlist
    ensures input != "" ==> Upper(input) in WithTicker(watchlist, input)
    ensures WithTicker(WithTicker(watchlist, input), input) == WithTicker(watchlist, input)
  {
    var r := WithTicker(watchlist, input);
    if Adds(watchlist, input) {
      assert r[..|watchlist|] == watchlist;
      assert r[|watchlist|] == Upper(input) && Upper(input) in r;
    }
  }

  /** Removing drops every occurrence of the ticker, keeps the others in order,
      and keeps a duplicate-free list duplicate-free. */
  lemma WithoutTickerSpec(watchlist: seq<string>, t: string)
    ensures forall x :: x in WithoutTicker(watchlist, t) <==> x in watchlist && x != t
    ensures IsSubsequence(WithoutTicker(watchlist, t), watchlist)
    ensures Distinct(watchlist) ==> Distinct(WithoutTicker(watchlist, t))
  {
    var p := (x: string) => x != t;
    forall x {
      FilterMembership(watchlist, p, x);
    }
    FilterIsSubsequence(watchlist, p);
    if Distinct(watchlist) {
      DistinctSubsequence(Filter(watchlist, p), watchlist);
    }
  }

  /** The form's state: the configuration it edits and the ticker input. */
  class SettingsForm {
    var config: Config
    var newTicker: string

    constructor(config0: Config)
      ensures config == config0 && newTicker == ""
    {
      config := config0;
      newTicker := "";
    }

    /** `handleChange(key, value)`. */
    method HandleChange(ch: Change)
      modifies this
      ensures config == Changed(old(config), ch) && newTicker == old(newTicker)
    {
      config := Changed(config, ch);
    }

    /** `addTicker`: the input is cleared exactly when a ticker was added. */
    method AddTicker()
      modifies this
      ensures config == old(config).(watchlist := WithTicker(old(config).watchlist, old(newTicker)))
      ensures newTicker == (if Adds(old(config).watchlist, old(newTicker)) then "" else old(newTicker))
    {
      if newTicker != "" && Upper(newTicker) !in config.watchlist {
        var updated := config.watchlist + [Upper(newTicker)];
        HandleChange(Watchlist(updated));
        newTicker := "";
      }
    }

    /** `removeTicker(t)`. */
    method RemoveTicker(t: string)
      modifies this
      ensures config == old(config).(watchlist := WithoutTicker(old(config).watchlist, t))
      ensures newTicker == old(newTicker)
    {
      var updated := Filter(config.watchlist, (x: string) => x != t);
      HandleChange(Watchlist(updated));
    }
  }
}

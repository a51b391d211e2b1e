/**
 * NAMED_PRESETS and applyDefaults: named bundles of option values, laid over
 * an options object so that they fill only keys that are still undefined.
 */
module Presets {
  import opened Wrappers
  import opened Values

  datatype PresetName = Verbose | Detailed | Minimal | ErrorsOnly | ErrorsWarnings | Summary | NoPreset

  /** The name a preset is registered under; `NoPreset` is "none". */
  function PresetKey(name: PresetName): string {
    match name
    case Verbose => "verbose"
    case Detailed => "detailed"
    case Minimal => "minimal"
    case ErrorsOnly => "errors-only"
    case ErrorsWarnings => "errors-warnings"
    case Summary => "summary"
    case NoPreset => "none"
  }

  /** Looks a preset up by its registered name; "normal" and unknown names have none. */
  function PresetByKey(key: string): (r: Option<PresetName>)
    ensures r.Some? ==> PresetKey(r.value) == key
  {
    if key == "verbose" then Some(Verbose)
    else if key == "detailed" then Some(Detailed)
    else if key == "minimal" then Some(Minimal)
    else if key == "errors-only" then Some(ErrorsOnly)
    else if key == "errors-warnings" then Some(ErrorsWarnings)
    else if key == "summary" then Some(Summary)
    else if key == "none" then Some(NoPreset)
    else None
  }

  /** Every preset is found under its own name, so the seven names are distinct. */
  lemma PresetKeyRoundTrip(name: PresetName)
    ensures PresetByKey(PresetKey(name)) == Some(name)
  {
  }

  /** The option values of a named preset. */
  function Preset(name: PresetName): map<Key, Value> {
    match name
    case Verbose => map[
      Hash := Bool(true), BuiltAt := Bool(true), RelatedAssets := Bool(true),
      Entrypoints := Bool(true), ChunkGroups := Bool(true), Ids := Bool(true),
      Modules := Bool(false), Chunks := Bool(true), ChunkRelations := Bool(true),
      ChunkModules := Bool(true), DependentModules := Bool(true), ChunkOrigins := Bool(true),
      Depth := Bool(true), Env := Bool(true), Reasons := Bool(true),
      UsedExports := Bool(true), ProvidedExports := Bool(true), OptimizationBailout := Bool(true),
      ErrorDetails := Bool(true), ErrorStack := Bool(true), ErrorCause := Bool(true),
      ErrorErrors := Bool(true), PublicPath := Bool(true), Logging := Str("verbose"),
      OrphanModules := Bool(true), RuntimeModules := Bool(true), Exclude := Bool(false),
      ErrorsSpace := Unbounded, WarningsSpace := Unbounded, ModulesSpace := Unbounded,
      ChunkModulesSpace := Unbounded, AssetsSpace := Unbounded, ReasonsSpace := Unbounded,
      Children := Bool(true)]
    case Detailed => map[
      Hash := Bool(true), BuiltAt := Bool(true), RelatedAssets := Bool(true),
      Entrypoints := Bool(true), ChunkGroups := Bool(true), Ids := Bool(true),
      Chunks := Bool(true), ChunkRelations := Bool(true), ChunkModules := Bool(false),
      ChunkOrigins := Bool(true), Depth := Bool(true), UsedExports := Bool(true),
      ProvidedExports := Bool(true), OptimizationBailout := Bool(true), ErrorDetails := Bool(true),
      ErrorCause := Bool(true), ErrorErrors := Bool(true), PublicPath := Bool(true),
      Logging := Bool(true), RuntimeModules := Bool(true), Exclude := Bool(false),
      ErrorsSpace := Num(1000), WarningsSpace := Num(1000), ModulesSpace := Num(1000),
      AssetsSpace := Num(1000), ReasonsSpace := Num(1000)]
    case Minimal => map[
      All := Bool(false), Version := Bool(true), Timings := Bool(true),
      Modules := Bool(true), ErrorsSpace := Num(0), WarningsSpace := Num(0),
      ModulesSpace := Num(0), Assets := Bool(true), AssetsSpace := Num(0),
      Errors := Bool(true), ErrorsCount := Bool(true), Warnings := Bool(true),
      WarningsCount := Bool(true), Logging := Str("warn")]
    case ErrorsOnly => map[
      All := Bool(false), Errors := Bool(true), ErrorsCount := Bool(true),
      ErrorsSpace := Unbounded, ModuleTrace := Bool(true), Logging := Str("error")]
    case ErrorsWarnings => map[
      All := Bool(false), Errors := Bool(true), ErrorsCount := Bool(true),
      ErrorsSpace := Unbounded, Warnings := Bool(true), WarningsCount := Bool(true),
      WarningsSpace := Unbounded, Logging := Str("warn")]
    case Summary => map[
      All := Bool(false), Version := Bool(true), ErrorsCount := Bool(true),
      WarningsCount := Bool(true)]
    case NoPreset => map[All := Bool(false)]
  }

  /** applyDefaults: copies each preset value whose key is still undefined in `o`. */
  function ApplyDefaults(o: Options, defaults: map<Key, Value>): (r: Options)
    ensures r.Keys == o.Keys + defaults.Keys
    ensures forall k | k in o :: r[k] == o[k]
    ensures forall k | k in defaults && k !in o :: r[k] == defaults[k]
  {
    map k | k in o.Keys + defaults.Keys :: if k in o then o[k] else defaults[k]
  }

  /** Applying the same preset a second time changes nothing. */
  lemma ApplyDefaultsIdempotent(o: Options, defaults: map<Key, Value>)
    ensures ApplyDefaults(ApplyDefaults(o, defaults), defaults) == ApplyDefaults(o, defaults)
  {
  }

  /** The value the first overlay in `ds` that sets `k` gives it, if any does. */
  function FirstValue(ds: seq<map<Key, Value>>, k: Key): Option<Value> {
    if |ds| == 0 then None
    else if k in ds[0] then Some(ds[0][k])
    else FirstValue(ds[1..], k)
  }

  /** Applies the overlays in order, each through applyDefaults. */
  function ApplyOverlays(o: Options, ds: seq<map<Key, Value>>): (r: Options)
    ensures forall k | k in o :: k in r && r[k] == o[k]
    ensures forall k | k !in o :: Get(r, k) == FirstValue(ds, k)
    decreases |ds|
  {
    if |ds| == 0 then o
    else ApplyOverlays(ApplyDefaults(o, ds[0]), ds[1..])
  }

  /** Applying a list of overlays a second time changes nothing. */
  lemma {:induction false} ApplyOverlaysIdempotent(o: Options, ds: seq<map<Key, Value>>)
    ensures ApplyOverlays(ApplyOverlays(o, ds), ds) == ApplyOverlays(o, ds)
  {
    var once := ApplyOverlays(o, ds);
    var twice := ApplyOverlays(once, ds);
    forall k
      ensures Get(twice, k) == Get(once, k)
    {
      if k !in once {
        assert FirstValue(ds, k) == None;
      }
    }
    assert twice.Keys == once.Keys by {
      forall k ensures k in twice <==> k in once {
        assert Get(twice, k) == Get(once, k);
      }
    }
    forall k | k in twice ensures twice[k] == once[k] {
      assert Get(twice, k) == Get(once, k);
    }
  }

  /** On a key two overlays both set, the earlier one wins; a value already in `o` beats both. */
  lemma EarlierOverlayWins(o: Options, first: map<Key, Value>, second: map<Key, Value>, k: Key)
    requires k in first && k in second
    ensures k !in o ==> ApplyOverlays(o, [first, second])[k] == first[k]
    ensures k in o ==> ApplyOverlays(o, [first, second])[k] == o[k]
  {
    assert FirstValue([first, second], k) == Some(first[k]);
  }

  /** A preset whose every key is already defined changes nothing. */
  lemma CoveredPresetUnchanged(o: Options, defaults: map<Key, Value>)
    requires defaults.Keys <= o.Keys
    ensures ApplyDefaults(o, defaults) == o
  {
  }

  /**
   * The narrow presets switch the umbrella `all` off; verbose and detailed
   * leave it undefined, so the policies keep their mode-dependent values.
   */
  lemma PresetUmbrella(name: PresetName)
    ensures All !in Preset(name) <==> name == Verbose || name == Detailed
    ensures All in Preset(name) ==> Preset(name)[All] == Bool(false)
  {
  }

  /** The keys the normalizers read, other than logging. */
  predicate FilterKey(k: Key) {
    k == WarningsFilter || k == ExcludeModules || k == ExcludeAssets || k == LoggingDebug
  }

  /** The verbose preset sets none of the filter keys. */
  lemma VerboseLeavesFilters(k: Key)
    requires FilterKey(k)
    ensures k !in Preset(Verbose)
  {
  }

  /** The detailed preset sets none of the filter keys. */
  lemma DetailedLeavesFilters(k: Key)
    requires FilterKey(k)
    ensures k !in Preset(Detailed)
  {
  }

  /** The presets that switch `all` off set none of the filter keys. */
  lemma NarrowPresetsLeaveFilters(name: PresetName, k: Key)
    requires name != Verbose && name != Detailed
    requires FilterKey(k)
    ensures k !in Preset(name)
  {
  }

  /** No preset sets warningsFilter, excludeModules, excludeAssets or loggingDebug. */
  lemma PresetsLeaveFilters(name: PresetName, k: Key)
    requires FilterKey(k)
    ensures k !in Preset(name)
  {
    if name == Verbose {
      VerboseLeavesFilters(k);
    } else if name == Detailed {
      DetailedLeavesFilters(k);
    } else {
      NarrowPresetsLeaveFilters(name, k);
    }
  }
}

/**
 * The whole resolution of a stats-options object, as the statsPreset and
 * statsNormalize hooks of the plugin perform it: the named preset fills
 * undefined keys, the DEFAULTS pass fills what is still undefined, and the
 * NORMALIZER table rewrites its keys into canonical form.
 */
module Pipeline {
  import opened Wrappers
  import opened Values
  import opened Policies
  import opened Presets
  import opened Defaults
  import opened Normalizers

  /** The statsPreset hook: only a registered preset name changes anything. */
  function WithPreset(o: Options, preset: string): (r: Options)
    ensures PresetByKey(preset).None? ==> r == o
    ensures PresetByKey(preset).Some? ==> r == ApplyDefaults(o, Preset(PresetByKey(preset).value))
  {
    match PresetByKey(preset)
    case Some(name) => ApplyDefaults(o, Preset(name))
    case None => o
  }

  /** The three stages in order; fails only when the warningsFilter normalizer throws. */
  function Resolve(o: Options, preset: string, ctx: StatsContext, host: Host): (r: Result<Options, StatsError>)
    ensures r.Success? ==> Normalized(r.value)
    ensures r.Success? ==> forall k | Listed(k) :: k in r.value
    ensures r.Success? ==> forall k | k in o && !NormalizedKey(k) :: k in r.value && r.value[k] == o[k]
  {
    RunNormalizers(Defaulted(WithPreset(o, preset), ctx, host))
  }

  /**
   * A key DEFAULTS does not list and NORMALIZER does not rewrite ends up as
   * the preset stage left it; with no registered preset, as the caller gave
   * it. In particular all, errorsSpace, warningsSpace, runtime and cached may
   * still be undefined after resolution.
   */
  lemma ResolveKeepsUnlisted(o: Options, preset: string, ctx: StatsContext, host: Host)
    requires Resolve(o, preset, ctx, host).Success?
    ensures forall k | !Listed(k) && !NormalizedKey(k) ::
      Get(Resolve(o, preset, ctx, host).value, k) == Get(WithPreset(o, preset), k)
    ensures PresetByKey(preset).None? ==> forall k | !Listed(k) && !NormalizedKey(k) ::
      Get(Resolve(o, preset, ctx, host).value, k) == Get(o, k)
  {
    UnlistedKeysUnchanged(WithPreset(o, preset), ctx, host);
  }

  /**
   * A value the registered preset gives a key the caller left undefined wins
   * over the DEFAULTS entry for it, unless NORMALIZER rewrites that key.
   */
  lemma PresetBeatsDefaults(o: Options, preset: string, ctx: StatsContext, host: Host)
    requires PresetByKey(preset).Some?
    requires Resolve(o, preset, ctx, host).Success?
    ensures forall k | k !in o && k in Preset(PresetByKey(preset).value) && !NormalizedKey(k) ::
      Resolve(o, preset, ctx, host).value[k] == Preset(PresetByKey(preset).value)[k]
  {
  }

  /** No preset sets warningsFilter and DEFAULTS has no entry for it. */
  lemma WarningsFilterUntouched(o: Options, preset: string, ctx: StatsContext, host: Host)
    ensures Get(Defaulted(WithPreset(o, preset), ctx, host), WarningsFilter) == Get(o, WarningsFilter)
  {
    var name := PresetByKey(preset);
    if name.Some? {
      PresetsLeaveFilters(name.value, WarningsFilter);
    }
    UnlistedKeysUnchanged(WithPreset(o, preset), ctx, host);
  }

  /**
   * A filter list the caller left undefined: no preset sets it, and DEFAULTS
   * gives it the empty list. One the caller set reaches the normalizer as given.
   */
  lemma FilterListReachesNormalizer(o: Options, preset: string, k: Key, ctx: StatsContext, host: Host)
    requires k == ExcludeModules || k == ExcludeAssets || k == LoggingDebug
    ensures Defaulted(WithPreset(o, preset), ctx, host)[k] == if k in o then o[k] else List([])
  {
    var p := WithPreset(o, preset);
    if PresetByKey(preset).Some? {
      PresetsLeaveFilters(PresetByKey(preset).value, k);
    }
    assert k in p <==> k in o;
    if k !in o {
      assert ResolverOf(k) == Fixed(List([]));
      FixedDefault(p, k, ctx, host);
    }
  }

  /**
   * The caller's warningsFilter and filter lists end up in their normalized
   * form; a filter list the caller left undefined ends up empty.
   */
  lemma ResolvedFilters(o: Options, preset: string, ctx: StatsContext, host: Host)
    requires Resolve(o, preset, ctx, host).Success?
    ensures Resolve(o, preset, ctx, host).value[WarningsFilter]
      == NormalizeWarningsFilter(Get(o, WarningsFilter)).value
    ensures Resolve(o, preset, ctx, host).value[ExcludeModules]
      == if ExcludeModules in o then NormalizeFilterList(Some(o[ExcludeModules])) else List([])
    ensures Resolve(o, preset, ctx, host).value[ExcludeAssets]
      == if ExcludeAssets in o then NormalizeFilterList(Some(o[ExcludeAssets])) else List([])
    ensures Resolve(o, preset, ctx, host).value[LoggingDebug]
      == if LoggingDebug in o then NormalizeFilterList(Some(o[LoggingDebug])) else List([])
  {
    WarningsFilterUntouched(o, preset, ctx, host);
    FilterListReachesNormalizer(o, preset, ExcludeModules, ctx, host);
    FilterListReachesNormalizer(o, preset, ExcludeAssets, ctx, host);
    FilterListReachesNormalizer(o, preset, LoggingDebug, ctx, host);
    assert NormalizeFilterList(Some(List([]))) == List([]);
  }

  /**
   * Resolution succeeds exactly when every listed warnings filter is a
   * string, a RegExp or a function; otherwise it fails on an offending item.
   */
  lemma ResolveFailsOnlyOnWarningsFilter(o: Options, preset: string, ctx: StatsContext, host: Host)
    ensures var r := Resolve(o, preset, ctx, host);
      r.Success? <==> forall i | 0 <= i < |Listify(Get(o, WarningsFilter))| ::
        WarningFilterAccepted(Listify(Get(o, WarningsFilter))[i])
    ensures var r := Resolve(o, preset, ctx, host);
      r.Failure? ==> exists i | 0 <= i < |Listify(Get(o, WarningsFilter))| ::
        && !WarningFilterAccepted(Listify(Get(o, WarningsFilter))[i])
        && (forall j | 0 <= j < i :: WarningFilterAccepted(Listify(Get(o, WarningsFilter))[j]))
        && r.error == UnsupportedWarningsFilter(Listify(Get(o, WarningsFilter))[i])
  {
    WarningsFilterUntouched(o, preset, ctx, host);
  }

  /** Resolving resolved options again, with the same preset and mode, changes nothing. */
  lemma ResolveIdempotent(o: Options, preset: string, ctx: StatsContext, host: Host)
    requires Resolve(o, preset, ctx, host).Success?
    ensures Resolve(Resolve(o, preset, ctx, host).value, preset, ctx, host) == Resolve(o, preset, ctx, host)
  {
    var r := Resolve(o, preset, ctx, host).value;
    var p := WithPreset(o, preset);
    assert forall k | k in p :: k in r;
    if PresetByKey(preset).Some? {
      CoveredPresetUnchanged(r, Preset(PresetByKey(preset).value));
    }
    assert WithPreset(r, preset) == r;
    CompleteUnchanged(r, ctx, host);
    NormalizedUnchanged(r);
  }

  /** The keys NORMALIZER rewrites are not governed by a policy. */
  lemma NormalizedKeysHaveNoPolicy()
    ensures forall k | NormalizedKey(k) && Listed(k) :: !ResolverOf(k).ByPolicy?
  {
    assert ResolverOf(ExcludeModules).Fixed? && ResolverOf(ExcludeAssets).Fixed?;
    assert ResolverOf(LoggingDebug).Fixed? && ResolverOf(Logging) == LoggingRule;
  }

  /**
   * A policy-governed key that neither the caller nor the preset set ends up
   * as its policy decides for the `all` the preset stage left.
   */
  lemma ResolvePolicy(o: Options, preset: string, ctx: StatsContext, host: Host)
    requires Resolve(o, preset, ctx, host).Success?
    ensures forall k | Listed(k) && ResolverOf(k).ByPolicy? && k !in WithPreset(o, preset) ::
      Resolve(o, preset, ctx, host).value[k]
      == PolicyValue(ResolverOf(k).policy, Get(WithPreset(o, preset), All), ctx.forToString)
  {
    NormalizedKeysHaveNoPolicy();
    PolicyDefaults(WithPreset(o, preset), ctx, host);
  }

  /** The "none" preset sets `all: false` over options that leave it unset. */
  lemma NonePresetStage(o: Options, preset: string)
    requires PresetByKey(preset) == Some(NoPreset)
    requires All !in o
    ensures WithPreset(o, preset) == o[All := Bool(false)]
  {
  }

  /**
   * With the "none" preset and `all` left unset, every policy-governed key
   * the caller left unset ends up false, in either mode.
   */
  lemma NonePresetTurnsPoliciesOff(o: Options, preset: string, ctx: StatsContext, host: Host)
    requires PresetByKey(preset) == Some(NoPreset)
    requires All !in o
    requires Resolve(o, preset, ctx, host).Success?
    ensures forall k | Listed(k) && ResolverOf(k).ByPolicy? && k !in o ::
      Resolve(o, preset, ctx, host).value[k] == Bool(false)
  {
    NonePresetStage(o, preset);
    ResolvePolicy(o, preset, ctx, host);
  }

  /** `logging: true` from the detailed preset is normalized to "log". */
  lemma DetailedLogsAtLog(ctx: StatsContext, host: Host)
    ensures Resolve(map[], "detailed", ctx, host).Success?
    ensures Resolve(map[], "detailed", ctx, host).value[Logging] == Str("log")
  {
    var p := WithPreset(map[], "detailed");
    assert p[Logging] == Bool(true);
    WarningsFilterUntouched(map[], "detailed", ctx, host);
  }
}

/**
 * DEFAULTS and the defaults pass of statsNormalize: an ordered table of
 * (key, resolver) pairs, run once in declaration order, each resolver called
 * only for a key that is still undefined and seeing the keys filled before it.
 */
module Defaults {
  import opened Wrappers
  import opened Values
  import opened Policies

  /** The part of the stats-options creation context the resolvers read. */
  datatype StatsContext = StatsContext(forToString: bool)

  /** What the resolvers read of the compilation: its compiler's `context` and `root`. */
  datatype Host = Host(context: string, root: string)

  /** The shapes of the DEFAULTS resolvers. */
  datatype Resolver =
    | HostContext               // compilation.compiler.context
    | HostShortener             // the shared request shortener, or a fresh one
    | ByPolicy(policy: Policy)  // one of the five policies
    | ModeCap(cap: nat)         // forToString ? cap : Infinity
    | ChunkModulesRule          // chunkModules
    | ModulesRule               // modules
    | OverrideOr(source: Key)   // runtimeModules and cachedModules
    | LoggingRule               // logging
    | Fixed(v: Value)           // () => v

  /** The keys DEFAULTS lists: the first 74 numbered keys, its position being the key's number. */
  predicate Listed(k: Key) {
    k.Known? && k.id < 74
  }

  /**
   * DEFAULTS: the resolver of each listed key. The keys run in the order of
   * their numbers, which is the table's declaration order.
   */
  function ResolverOf(k: Key): Resolver
    requires Listed(k)
  {
    var i := k.id;
    if i == 0 then HostContext                  // Context
    else if i == 1 then HostShortener                // RequestShortener
    else if i == 2 then ByPolicy(NormalOn)           // Performance
    else if i == 3 then ByPolicy(OffForToString)     // Hash
    else if i == 4 then ByPolicy(NormalOff)          // Env
    else if i == 5 then ByPolicy(NormalOn)           // Version
    else if i == 6 then ByPolicy(NormalOn)           // Timings
    else if i == 7 then ByPolicy(OffForToString)     // BuiltAt
    else if i == 8 then ByPolicy(NormalOn)           // Assets
    else if i == 9 then ByPolicy(AutoForToString)    // Entrypoints
    else if i == 10 then ByPolicy(OffForToString)     // ChunkGroups
    else if i == 11 then ByPolicy(OffForToString)     // ChunkGroupAuxiliary
    else if i == 12 then ByPolicy(OffForToString)     // ChunkGroupChildren
    else if i == 13 then ModeCap(5)                   // ChunkGroupMaxAssets
    else if i == 14 then ByPolicy(OffForToString)     // Chunks
    else if i == 15 then ByPolicy(OffForToString)     // ChunkRelations
    else if i == 16 then ChunkModulesRule             // ChunkModules
    else if i == 17 then ByPolicy(OffForToString)     // DependentModules
    else if i == 18 then ByPolicy(OffForToString)     // ChunkOrigins
    else if i == 19 then ByPolicy(OffForToString)     // Ids
    else if i == 20 then ModulesRule                  // Modules
    else if i == 21 then ByPolicy(OffForToString)     // NestedModules
    else if i == 22 then ByPolicy(OnForToString)      // GroupModulesByType
    else if i == 23 then ByPolicy(OnForToString)      // GroupModulesByCacheStatus
    else if i == 24 then ByPolicy(OnForToString)      // GroupModulesByLayer
    else if i == 25 then ByPolicy(OnForToString)      // GroupModulesByAttributes
    else if i == 26 then ByPolicy(OnForToString)      // GroupModulesByPath
    else if i == 27 then ByPolicy(OnForToString)      // GroupModulesByExtension
    else if i == 28 then ModeCap(15)                  // ModulesSpace
    else if i == 29 then ModeCap(10)                  // ChunkModulesSpace
    else if i == 30 then ModeCap(10)                  // NestedModulesSpace
    else if i == 31 then ByPolicy(OffForToString)     // RelatedAssets
    else if i == 32 then ByPolicy(OnForToString)      // GroupAssetsByEmitStatus
    else if i == 33 then ByPolicy(OnForToString)      // GroupAssetsByInfo
    else if i == 34 then ByPolicy(OnForToString)      // GroupAssetsByPath
    else if i == 35 then ByPolicy(OnForToString)      // GroupAssetsByExtension
    else if i == 36 then ByPolicy(OnForToString)      // GroupAssetsByChunk
    else if i == 37 then ModeCap(15)                  // AssetsSpace
    else if i == 38 then ByPolicy(OffForToString)     // OrphanModules
    else if i == 39 then OverrideOr(Runtime)          // RuntimeModules
    else if i == 40 then OverrideOr(Cached)           // CachedModules
    else if i == 41 then ByPolicy(OffForToString)     // ModuleAssets
    else if i == 42 then ByPolicy(OffForToString)     // Depth
    else if i == 43 then ByPolicy(OffForToString)     // CachedAssets
    else if i == 44 then ByPolicy(OffForToString)     // Reasons
    else if i == 45 then ModeCap(15)                  // ReasonsSpace
    else if i == 46 then ByPolicy(OnForToString)      // GroupReasonsByOrigin
    else if i == 47 then ByPolicy(OffForToString)     // UsedExports
    else if i == 48 then ByPolicy(OffForToString)     // ProvidedExports
    else if i == 49 then ByPolicy(OffForToString)     // OptimizationBailout
    else if i == 50 then ByPolicy(OffForToString)     // Children
    else if i == 51 then ByPolicy(NormalOff)          // Source
    else if i == 52 then ByPolicy(NormalOn)           // ModuleTrace
    else if i == 53 then ByPolicy(NormalOn)           // Errors
    else if i == 54 then ByPolicy(NormalOn)           // ErrorsCount
    else if i == 55 then ByPolicy(AutoForToString)    // ErrorDetails
    else if i == 56 then ByPolicy(OffForToString)     // ErrorStack
    else if i == 57 then ByPolicy(AutoForToString)    // ErrorCause
    else if i == 58 then ByPolicy(AutoForToString)    // ErrorErrors
    else if i == 59 then ByPolicy(NormalOn)           // Warnings
    else if i == 60 then ByPolicy(NormalOn)           // WarningsCount
    else if i == 61 then ByPolicy(OffForToString)     // PublicPath
    else if i == 62 then LoggingRule                  // Logging
    else if i == 63 then Fixed(List([]))              // LoggingDebug
    else if i == 64 then ByPolicy(OffForToString)     // LoggingTrace
    else if i == 65 then Fixed(List([]))              // ExcludeModules
    else if i == 66 then Fixed(List([]))              // ExcludeAssets
    else if i == 67 then Fixed(Str("depth"))          // ModulesSort
    else if i == 68 then Fixed(Str("name"))           // ChunkModulesSort
    else if i == 69 then Fixed(Bool(false))           // NestedModulesSort
    else if i == 70 then Fixed(Bool(false))           // ChunksSort
    else if i == 71 then Fixed(Str("!size"))          // AssetsSort
    else if i == 72 then ByPolicy(OffForToString)     // OutputPath
    else Fixed(Bool(false))                        // Colors
  }

  /**
   * chunkModules: follows a boolean `all`; otherwise it is off exactly when
   * `modules` is truthy.
   */
  function ChunkModulesDefault(all: Option<Value>, modules: Option<Value>): (r: Value)
    ensures IsBool(all) ==> r == all.value
    ensures !IsBool(all) ==> r.Bool? && (r.b <==> !Truthy(modules))
  {
    if all == Some(Bool(false)) then Bool(false)
    else if all == Some(Bool(true)) then Bool(true)
    else if Truthy(modules) then Bool(false)
    else Bool(true)
  }

  /**
   * modules: follows a boolean `all`; otherwise it is off exactly when the
   * output is for toString and both `chunks` and `chunkModules` are truthy.
   */
  function ModulesDefault(all: Option<Value>, chunks: Option<Value>, chunkModules: Option<Value>,
                          forToString: bool): (r: Value)
    ensures IsBool(all) ==> r == all.value
    ensures !IsBool(all) ==> r.Bool? && (!r.b <==> forToString && Truthy(chunks) && Truthy(chunkModules))
  {
    if all == Some(Bool(false)) then Bool(false)
    else if all == Some(Bool(true)) then Bool(true)
    else if forToString && Truthy(chunks) && Truthy(chunkModules) then Bool(false)
    else Bool(true)
  }

  /** logging: "info" exactly when the output is for toString and `all` is not false. */
  function LoggingDefault(all: Option<Value>, forToString: bool): (r: Value)
    ensures r == Str("info") <==> forToString && all != Some(Bool(false))
    ensures r != Str("info") ==> r == Bool(false)
  {
    if forToString && all != Some(Bool(false)) then Str("info") else Bool(false)
  }

  /**
   * requestShortener: the compilation's own shortener when the options'
   * context is the compiler's context, otherwise a new one for that context
   * and the compiler's root.
   */
  function ShortenerDefault(context: Option<Value>, host: Host): (r: Value)
    ensures r == Shortener(SharedShortener) <==> context == Some(Str(host.context))
    ensures r != Shortener(SharedShortener) ==> r == Shortener(FreshShortener(context, host.root))
  {
    if context == Some(Str(host.context)) then Shortener(SharedShortener)
    else Shortener(FreshShortener(context, host.root))
  }

  /**
   * runtimeModules / cachedModules: the override when it is defined, whatever
   * it is; otherwise the same expression as OFF_FOR_TO_STRING.
   */
  function OverrideDefault(override: Option<Value>, all: Option<Value>, forToString: bool): (r: Value)
    ensures override.Some? ==> r == override.value
    ensures override.None? && IsBool(all) ==> r == all.value
    ensures override.None? && !IsBool(all) ==> r == Bool(!forToString)
  {
    if override.Some? then override.value else PolicyValue(OffForToString, all, forToString)
  }

  /** Calls a resolver on the options as they are at that point of the pass. */
  function Eval(res: Resolver, o: Options, ctx: StatsContext, host: Host): Value {
    var all := Get(o, All);
    match res
    case HostContext => Str(host.context)
    case HostShortener => ShortenerDefault(Get(o, Context), host)
    case ByPolicy(p) => PolicyValue(p, all, ctx.forToString)
    case ModeCap(cap) => if ctx.forToString then Num(cap) else Unbounded
    case ChunkModulesRule => ChunkModulesDefault(all, Get(o, Modules))
    case ModulesRule => ModulesDefault(all, Get(o, Chunks), Get(o, ChunkModules), ctx.forToString)
    case OverrideOr(source) => OverrideDefault(Get(o, source), all, ctx.forToString)
    case LoggingRule => LoggingDefault(all, ctx.forToString)
    case Fixed(v) => v
  }

  /** Entry i of DEFAULTS as a function of the options the pass has produced so far. */
  function Entries(ctx: StatsContext, host: Host): (Options, nat) -> Value {
    (o: Options, i: nat) => if i < 74 then Eval(ResolverOf(Known(i)), o, ctx, host) else Null
  }

  /**
   * The first n iterations of the pass with entry function `entry`: the key
   * at position i is filled with `entry` of the options so far, only if it
   * is still undefined. Defined exactly where the options were defined
   * already or the key's position is below n; a defined key keeps its value.
   */
  function Fill(o: Options, n: nat, entry: (Options, nat) -> Value): Options {
    if n == 0 then o
    else
      var prev := Fill(o, n - 1, entry);
      if Known(n - 1) in prev then prev else prev[Known(n - 1) := entry(prev, n - 1)]
  }

  /** The options the entry at position n sees: DEFAULTS run over the first n entries. */
  function Upto(o: Options, n: nat, ctx: StatsContext, host: Host): Options
    requires n <= 74
  {
    Fill(o, n, Entries(ctx, host))
  }

  /** The options after the whole defaults pass. */
  function Defaulted(o: Options, ctx: StatsContext, host: Host): (r: Options)
    ensures forall k :: k in r <==> k in o || Listed(k)
    ensures forall k | k in o :: r[k] == o[k]
  {
    FillDomain(o, 74, Entries(ctx, host));
    Upto(o, 74, ctx, host)
  }

  /** Where Fill is defined, and that it keeps what the options defined. */
  lemma {:induction false} FillDomain(o: Options, n: nat, entry: (Options, nat) -> Value)
    ensures forall k :: k in Fill(o, n, entry) <==> k in o || (k.Known? && k.id < n)
    ensures forall k | k in o :: Fill(o, n, entry)[k] == o[k]
  {
    if n > 0 {
      FillDomain(o, n - 1, entry);
    }
  }

  /** A key defined after m iterations keeps its value through iteration n. */
  lemma {:induction false} FillKeeps(o: Options, m: nat, n: nat, k: Key, entry: (Options, nat) -> Value)
    requires m <= n
    requires k in Fill(o, m, entry)
    ensures k in Fill(o, n, entry) && Fill(o, n, entry)[k] == Fill(o, m, entry)[k]
    decreases n
  {
    if m < n {
      FillKeeps(o, m, n - 1, k, entry);
      FillStep(o, n, k, entry);
    }
  }

  /** One iteration leaves every key already defined as it was. */
  lemma FillStep(o: Options, n: nat, k: Key, entry: (Options, nat) -> Value)
    requires 0 < n
    requires k in Fill(o, n - 1, entry)
    ensures k in Fill(o, n, entry) && Fill(o, n, entry)[k] == Fill(o, n - 1, entry)[k]
  {
  }

  /** An undefined key gets the entry's value on the options as they stand at its position. */
  lemma FillAt(o: Options, n: nat, k: Key, entry: (Options, nat) -> Value)
    requires k.Known? && k.id < n && k !in o
    ensures k in Fill(o, n, entry) && Fill(o, n, entry)[k] == entry(Fill(o, k.id, entry), k.id)
  {
    FillDomain(o, k.id, entry);
    FillKeeps(o, k.id + 1, n, k, entry);
  }

  /** The i-th resolver sees a key not declared before it as it was before the pass. */
  lemma BeforeUnresolved(o: Options, i: nat, k: Key, ctx: StatsContext, host: Host)
    requires i <= 74
    requires !(k.Known? && k.id < i)
    ensures Get(Upto(o, i, ctx, host), k) == Get(o, k)
  {
    FillDomain(o, i, Entries(ctx, host));
  }

  /** The i-th resolver sees a key declared before it with the value it ends the pass with. */
  lemma BeforeResolved(o: Options, i: nat, k: Key, ctx: StatsContext, host: Host)
    requires i <= 74
    requires k.Known? && k.id < i
    ensures k in Upto(o, i, ctx, host)
    ensures Get(Defaulted(o, ctx, host), k) == Get(Upto(o, i, ctx, host), k)
  {
    FillDomain(o, i, Entries(ctx, host));
    FillKeeps(o, i, 74, k, Entries(ctx, host));
  }

  /** A key DEFAULTS lists, if undefined, gets its resolver's value on the options it sees. */
  lemma DefaultOf(o: Options, k: Key, ctx: StatsContext, host: Host)
    requires Listed(k) && k !in o
    ensures Defaulted(o, ctx, host)[k] == Eval(ResolverOf(k), Upto(o, k.id, ctx, host), ctx, host)
  {
    FillAt(o, 74, k, Entries(ctx, host));
  }

  /**
   * Keys DEFAULTS does not list (all, errorsSpace, warningsSpace, runtime,
   * cached, exclude, warningsFilter and any other key) stay as they were:
   * in particular an undefined one stays undefined.
   */
  lemma UnlistedKeysUnchanged(o: Options, ctx: StatsContext, host: Host)
    ensures forall k | !Listed(k) :: Get(Defaulted(o, ctx, host), k) == Get(o, k)
    ensures All !in o ==> All !in Defaulted(o, ctx, host)
    ensures ErrorsSpace !in o ==> ErrorsSpace !in Defaulted(o, ctx, host)
    ensures WarningsSpace !in o ==> WarningsSpace !in Defaulted(o, ctx, host)
  {
  }

  /** Every key with a policy resolver, if undefined, gets that policy's value for the `all` given before the pass. */
  lemma PolicyDefaults(o: Options, ctx: StatsContext, host: Host)
    ensures forall k | Listed(k) && ResolverOf(k).ByPolicy? && k !in o ::
      Defaulted(o, ctx, host)[k] == PolicyValue(ResolverOf(k).policy, Get(o, All), ctx.forToString)
  {
    forall k | Listed(k) && ResolverOf(k).ByPolicy? && k !in o
      ensures Defaulted(o, ctx, host)[k] == PolicyValue(ResolverOf(k).policy, Get(o, All), ctx.forToString)
    {
      DefaultOf(o, k, ctx, host);
      BeforeUnresolved(o, k.id, All, ctx, host);
    }
  }

  /**
   * With `all` false, every policy key left undefined resolves to false, in
   * either mode; with `all` true, to true.
   */
  lemma UmbrellaDecides(o: Options, ctx: StatsContext, host: Host)
    requires IsBool(Get(o, All))
    ensures forall k | Listed(k) && ResolverOf(k).ByPolicy? && k !in o ::
      Defaulted(o, ctx, host)[k] == o[All]
  {
    assert All in o;
    PolicyDefaults(o, ctx, host);
  }

  /** Every ModeCap entry left unset is its cap in report mode and unbounded in query mode. */
  lemma CapDefault(o: Options, k: Key, ctx: StatsContext, host: Host)
    requires Listed(k) && ResolverOf(k).ModeCap? && k !in o
    ensures Defaulted(o, ctx, host)[k] == if ctx.forToString then Num(ResolverOf(k).cap) else Unbounded
  {
    DefaultOf(o, k, ctx, host);
  }

  /**
   * The display caps: chunkGroupMaxAssets 5, modulesSpace 15,
   * chunkModulesSpace 10, nestedModulesSpace 10, assetsSpace 15 and
   * reasonsSpace 15 for toString, Infinity otherwise.
   */
  lemma ModeCaps(o: Options, ctx: StatsContext, host: Host)
    ensures var d := Defaulted(o, ctx, host);
      && (ChunkGroupMaxAssets !in o ==> d[ChunkGroupMaxAssets] == if ctx.forToString then Num(5) else Unbounded)
      && (ModulesSpace !in o ==> d[ModulesSpace] == if ctx.forToString then Num(15) else Unbounded)
      && (ChunkModulesSpace !in o ==> d[ChunkModulesSpace] == if ctx.forToString then Num(10) else Unbounded)
      && (NestedModulesSpace !in o ==> d[NestedModulesSpace] == if ctx.forToString then Num(10) else Unbounded)
      && (AssetsSpace !in o ==> d[AssetsSpace] == if ctx.forToString then Num(15) else Unbounded)
      && (ReasonsSpace !in o ==> d[ReasonsSpace] == if ctx.forToString then Num(15) else Unbounded)
  {
    assert ResolverOf(ChunkGroupMaxAssets) == ModeCap(5);
    assert ResolverOf(ModulesSpace) == ModeCap(15);
    assert ResolverOf(ChunkModulesSpace) == ModeCap(10);
    assert ResolverOf(NestedModulesSpace) == ModeCap(10);
    assert ResolverOf(AssetsSpace) == ModeCap(15);
    assert ResolverOf(ReasonsSpace) == ModeCap(15);
    if ChunkGroupMaxAssets !in o { CapDefault(o, ChunkGroupMaxAssets, ctx, host); }
    if ModulesSpace !in o { CapDefault(o, ModulesSpace, ctx, host); }
    if ChunkModulesSpace !in o { CapDefault(o, ChunkModulesSpace, ctx, host); }
    if NestedModulesSpace !in o { CapDefault(o, NestedModulesSpace, ctx, host); }
    if AssetsSpace !in o { CapDefault(o, AssetsSpace, ctx, host); }
    if ReasonsSpace !in o { CapDefault(o, ReasonsSpace, ctx, host); }
  }

  /**
   * chunkModules is declared before modules, so it sees `modules` only as the
   * options held it before the pass.
   */
  lemma ChunkModulesSeesPresetModules(o: Options, ctx: StatsContext, host: Host)
    requires ChunkModules !in o
    ensures Defaulted(o, ctx, host)[ChunkModules] == ChunkModulesDefault(Get(o, All), Get(o, Modules))
  {
    assert ResolverOf(ChunkModules) == ChunkModulesRule;
    DefaultOf(o, ChunkModules, ctx, host);
    BeforeUnresolved(o, 16, All, ctx, host);
    BeforeUnresolved(o, 16, Modules, ctx, host);
  }

  /** modules, declared after chunks and chunkModules, sees both as they end up. */
  lemma ModulesSeesResolvedChunks(o: Options, ctx: StatsContext, host: Host)
    requires Modules !in o
    ensures var d := Defaulted(o, ctx, host);
      d[Modules] == ModulesDefault(Get(o, All), Get(d, Chunks), Get(d, ChunkModules), ctx.forToString)
  {
    assert ResolverOf(Modules) == ModulesRule;
    DefaultOf(o, Modules, ctx, host);
    BeforeUnresolved(o, 20, All, ctx, host);
    BeforeResolved(o, 20, Chunks, ctx, host);
    BeforeResolved(o, 20, ChunkModules, ctx, host);
  }

  /**
   * From empty options: chunkModules is true even though modules also ends up
   * true, because it was resolved before modules was.
   */
  lemma EmptyOptionsModules(o: Options, ctx: StatsContext, host: Host)
    requires o == map[]
    ensures var d := Defaulted(o, ctx, host);
      && d[Chunks] == Bool(!ctx.forToString)
      && d[ChunkModules] == Bool(true)
      && d[Modules] == Bool(true)
  {
    ChunkModulesSeesPresetModules(o, ctx, host);
    ModulesSeesResolvedChunks(o, ctx, host);
    PolicyDefaults(o, ctx, host);
    assert ResolverOf(Chunks) == ByPolicy(OffForToString);
  }

  /** runtimeModules takes `runtime` whenever that is defined. */
  lemma RuntimeOverrideWins(o: Options, ctx: StatsContext, host: Host)
    requires RuntimeModules !in o
    ensures Defaulted(o, ctx, host)[RuntimeModules] == OverrideDefault(Get(o, Runtime), Get(o, All), ctx.forToString)
  {
    assert ResolverOf(RuntimeModules) == OverrideOr(Runtime);
    DefaultOf(o, RuntimeModules, ctx, host);
    BeforeUnresolved(o, 39, All, ctx, host);
    BeforeUnresolved(o, 39, Runtime, ctx, host);
  }

  /** cachedModules takes `cached` whenever that is defined. */
  lemma CachedOverrideWins(o: Options, ctx: StatsContext, host: Host)
    requires CachedModules !in o
    ensures Defaulted(o, ctx, host)[CachedModules] == OverrideDefault(Get(o, Cached), Get(o, All), ctx.forToString)
  {
    assert ResolverOf(CachedModules) == OverrideOr(Cached);
    DefaultOf(o, CachedModules, ctx, host);
    BeforeUnresolved(o, 40, All, ctx, host);
    BeforeUnresolved(o, 40, Cached, ctx, host);
  }

  /** logging defaults to "info" exactly for toString with `all` not false, else to false. */
  lemma LoggingDefaulted(o: Options, ctx: StatsContext, host: Host)
    requires Logging !in o
    ensures Defaulted(o, ctx, host)[Logging] ==
      if ctx.forToString && Get(o, All) != Some(Bool(false)) then Str("info") else Bool(false)
  {
    assert ResolverOf(Logging) == LoggingRule;
    DefaultOf(o, Logging, ctx, host);
    BeforeUnresolved(o, 62, All, ctx, host);
  }

  /**
   * context defaults to the compiler's context; requestShortener is then the
   * shared one exactly when the context that ends up set is the compiler's.
   */
  lemma ContextAndShortener(o: Options, ctx: StatsContext, host: Host)
    ensures var d := Defaulted(o, ctx, host);
      Context !in o ==> d[Context] == Str(host.context)
    ensures var d := Defaulted(o, ctx, host);
      RequestShortener !in o ==>
        (d[RequestShortener] == Shortener(SharedShortener) <==> d[Context] == Str(host.context))
    ensures var d := Defaulted(o, ctx, host);
      Context !in o && RequestShortener !in o ==> d[RequestShortener] == Shortener(SharedShortener)
  {
    assert ResolverOf(Context) == HostContext;
    assert ResolverOf(RequestShortener) == HostShortener;
    if Context !in o { DefaultOf(o, Context, ctx, host); }
    if RequestShortener !in o {
      DefaultOf(o, RequestShortener, ctx, host);
      BeforeResolved(o, 1, Context, ctx, host);
    }
  }

  /** An entry with a fixed default takes exactly that value when left unset. */
  lemma FixedDefault(o: Options, k: Key, ctx: StatsContext, host: Host)
    requires Listed(k) && ResolverOf(k).Fixed? && k !in o
    ensures Defaulted(o, ctx, host)[k] == ResolverOf(k).v
  {
    DefaultOf(o, k, ctx, host);
  }

  /** The constant defaults: the sort orders, the empty filter list and colors. */
  lemma FixedDefaults(o: Options, ctx: StatsContext, host: Host)
    ensures ModulesSort !in o ==> Defaulted(o, ctx, host)[ModulesSort] == Str("depth")
    ensures AssetsSort !in o ==> Defaulted(o, ctx, host)[AssetsSort] == Str("!size")
    ensures ExcludeModules !in o ==> Defaulted(o, ctx, host)[ExcludeModules] == List([])
    ensures Colors !in o ==> Defaulted(o, ctx, host)[Colors] == Bool(false)
  {
    assert ResolverOf(ModulesSort) == Fixed(Str("depth"));
    assert ResolverOf(AssetsSort) == Fixed(Str("!size"));
    assert ResolverOf(ExcludeModules) == Fixed(List([]));
    assert ResolverOf(Colors) == Fixed(Bool(false));
    if ModulesSort !in o { FixedDefault(o, ModulesSort, ctx, host); }
    if AssetsSort !in o { FixedDefault(o, AssetsSort, ctx, host); }
    if ExcludeModules !in o { FixedDefault(o, ExcludeModules, ctx, host); }
    if Colors !in o { FixedDefault(o, Colors, ctx, host); }
  }

  /** Options that already define every listed key pass through DEFAULTS unchanged. */
  lemma CompleteUnchanged(o: Options, ctx: StatsContext, host: Host)
    requires forall k | Listed(k) :: k in o
    ensures Defaulted(o, ctx, host) == o
  {
    var d := Defaulted(o, ctx, host);
    assert d.Keys == o.Keys;
  }
}

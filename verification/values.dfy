/**
 * The values a stats-options object holds, and its keys.
 *
 * An options object is a partial map from option key to value; a key that is
 * not in the map is `undefined` in the JavaScript object.
 */
module Values {
  import opened Wrappers

  /**
   * An option key. The keys the core names are numbered: the 74 keys of the
   * DEFAULTS table by their position in it, then the keys that only presets,
   * normalizers or resolvers mention. `Other` is any key besides these.
   */
  datatype Key = Known(id: nat) | Other(name: string)

  // the keys of the DEFAULTS table, numbered in its declaration order
  const Context:                    Key := Known(0)
  const RequestShortener:           Key := Known(1)
  const Performance:                Key := Known(2)
  const Hash:                       Key := Known(3)
  const Env:                        Key := Known(4)
  const Version:                    Key := Known(5)
  const Timings:                    Key := Known(6)
  const BuiltAt:                    Key := Known(7)
  const Assets:                     Key := Known(8)
  const Entrypoints:                Key := Known(9)
  const ChunkGroups:                Key := Known(10)
  const ChunkGroupAuxiliary:        Key := Known(11)
  const ChunkGroupChildren:         Key := Known(12)
  const ChunkGroupMaxAssets:        Key := Known(13)
  const Chunks:                     Key := Known(14)
  const ChunkRelations:             Key := Known(15)
  const ChunkModules:               Key := Known(16)
  const DependentModules:           Key := Known(17)
  const ChunkOrigins:               Key := Known(18)
  const Ids:                        Key := Known(19)
  const Modules:                    Key := Known(20)
  const NestedModules:              Key := Known(21)
  const GroupModulesByType:         Key := Known(22)
  const GroupModulesByCacheStatus:  Key := Known(23)
  const GroupModulesByLayer:        Key := Known(24)
  const GroupModulesByAttributes:   Key := Known(25)
  const GroupModulesByPath:         Key := Known(26)
  const GroupModulesByExtension:    Key := Known(27)
  const ModulesSpace:               Key := Known(28)
  const ChunkModulesSpace:          Key := Known(29)
  const NestedModulesSpace:         Key := Known(30)
  const RelatedAssets:              Key := Known(31)
  const GroupAssetsByEmitStatus:    Key := Known(32)
  const GroupAssetsByInfo:          Key := Known(33)
  const GroupAssetsByPath:          Key := Known(34)
  const GroupAssetsByExtension:     Key := Known(35)
  const GroupAssetsByChunk:         Key := Known(36)
  const AssetsSpace:                Key := Known(37)
  const OrphanModules:              Key := Known(38)
  const RuntimeModules:             Key := Known(39)
  const CachedModules:              Key := Known(40)
  const ModuleAssets:               Key := Known(41)
  const Depth:                      Key := Known(42)
  const CachedAssets:               Key := Known(43)
  const Reasons:                    Key := Known(44)
  const ReasonsSpace:               Key := Known(45)
  const GroupReasonsByOrigin:       Key := Known(46)
  const UsedExports:                Key := Known(47)
  const ProvidedExports:            Key := Known(48)
  const OptimizationBailout:        Key := Known(49)
  const Children:                   Key := Known(50)
  const Source:                     Key := Known(51)
  const ModuleTrace:                Key := Known(52)
  const Errors:                     Key := Known(53)
  const ErrorsCount:                Key := Known(54)
  const ErrorDetails:               Key := Known(55)
  const ErrorStack:                 Key := Known(56)
  const ErrorCause:                 Key := Known(57)
  const ErrorErrors:                Key := Known(58)
  const Warnings:                   Key := Known(59)
  const WarningsCount:              Key := Known(60)
  const PublicPath:                 Key := Known(61)
  const Logging:                    Key := Known(62)
  const LoggingDebug:               Key := Known(63)
  const LoggingTrace:               Key := Known(64)
  const ExcludeModules:             Key := Known(65)
  const ExcludeAssets:              Key := Known(66)
  const ModulesSort:                Key := Known(67)
  const ChunkModulesSort:           Key := Known(68)
  const NestedModulesSort:          Key := Known(69)
  const ChunksSort:                 Key := Known(70)
  const AssetsSort:                 Key := Known(71)
  const OutputPath:                 Key := Known(72)
  const Colors:                     Key := Known(73)

  // keys that presets, normalizers or resolvers mention but DEFAULTS does not resolve
  const All:                        Key := Known(74)
  const Exclude:                    Key := Known(75)
  const ErrorsSpace:                Key := Known(76)
  const WarningsSpace:              Key := Known(77)
  const WarningsFilter:             Key := Known(78)
  const Runtime:                    Key := Known(79)
  const Cached:                     Key := Known(80)

  /**
   * An object that is not an array or a function. Identity is the `id`:
   * two objects are the same object exactly when they are equal here.
   */
  datatype Obj =
    | RegExpObject(id: nat)   // an instance of RegExp (it has a `test` method)
    | TestObject(id: nat)     // some other object with a `test` method
    | PlainObject(id: nat)    // an object without a `test` method
  {
    /** `typeof item.test === "function"` */
    predicate HasTest() {
      !PlainObject?
    }
  }

  /**
   * A JavaScript function. User callbacks are opaque; the others are the
   * closures the normalizers build, recorded by what they capture.
   */
  datatype Func =
    | UserFunction(id: nat)
    | SegmentTest(literal: string)  // (ident) => regExp.test(ident), regExp built from literal
    | DelegateTest(obj: Obj)        // (ident) => item.test(ident)
    | Constant(b: bool)             // () => item
    | TextIncludes(text: string)    // (warning, warningString) => warningString.includes(text)
    | TextRegExpTest(re: Obj)       // (warning, warningString) => re.test(warningString)

  /** The request shortener a resolved options object refers to. */
  datatype ShortenerRef =
    | SharedShortener                                      // the compilation's own instance
    | FreshShortener(context: Option<Value>, root: string) // new RequestShortener(context, root)

  /** A loosely typed option value. JavaScript's `Infinity` is `Unbounded`. */
  datatype Value =
    | Null
    | Bool(b: bool)
    | Num(n: int)
    | Unbounded
    | Str(s: string)
    | List(items: seq<Value>)
    | Object(obj: Obj)
    | Function(fn: Func)
    | Shortener(ref: ShortenerRef)

  type Options = map<Key, Value>

  /** `options[key]`, with `None` for `undefined`. */
  function Get(o: Options, k: Key): (r: Option<Value>)
    ensures r.Some? <==> k in o
    ensures r.Some? ==> r.value == o[k]
  {
    if k in o then Some(o[k]) else None
  }

  /** Writes `options[key] = v`; writing `undefined` leaves the key absent. */
  function Put(o: Options, k: Key, v: Option<Value>): (r: Options)
    ensures Get(r, k) == v
    ensures forall k' | k' != k :: Get(r, k') == Get(o, k')
  {
    if v.Some? then o[k := v.value] else o - {k}
  }

  /** JavaScript truthiness; `undefined` is falsy. */
  predicate Truthy(v: Option<Value>) {
    match v
    case None => false
    case Some(Null) => false
    case Some(Bool(b)) => b
    case Some(Num(n)) => n != 0
    case Some(Str(s)) => s != ""
    case Some(_) => true
  }

  /** `v === true` or `v === false`. */
  predicate IsBool(v: Option<Value>) {
    v.Some? && v.value.Bool?
  }

  /** `Array.isArray(v)` */
  predicate IsArray(v: Option<Value>) {
    v.Some? && v.value.List?
  }
}

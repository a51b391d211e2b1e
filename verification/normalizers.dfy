/**
 * The NORMALIZER table: after the defaults pass, each of its five keys is
 * rewritten, in declaration order, into canonical form. Filter specs become
 * lists of predicates, `logging: true` becomes "log", and a warnings filter of
 * an unsupported shape aborts normalization with an error.
 */
module Normalizers {
  import opened Wrappers
  import opened Values
  import opened Filters

  /** The error thrown by the warningsFilter normalizer; `given` is the value it embeds in the message. */
  datatype StatsError = UnsupportedWarningsFilter(given: Value)

  /** `Array.isArray(value) ? value : value ? [value] : []` */
  function Listify(v: Option<Value>): (r: seq<Value>)
    ensures IsArray(v) ==> r == v.value.items
    ensures !IsArray(v) ==> (r == [] <==> !Truthy(v))
    ensures !IsArray(v) && Truthy(v) ==> r == [v.value]
  {
    if IsArray(v) then v.value.items
    else if Truthy(v) then [v.value]
    else []
  }

  /** `value.map(normalizeFilter)` */
  function MapFilters(xs: seq<Value>): (r: seq<Value>)
    ensures |r| == |xs|
    ensures forall i | 0 <= i < |xs| :: r[i] == NormalizeFilter(xs[i])
    ensures forall i | 0 <= i < |r| :: CanonicalFilter(r[i])
  {
    if xs == [] then []
    else
      NormalizeFilterIdempotent(xs[0]);
      [NormalizeFilter(xs[0])] + MapFilters(xs[1..])
  }

  /** A value normalizeFilter leaves as it is: an already-canonical filter. */
  predicate CanonicalFilter(x: Value) {
    NormalizeFilter(x) == x
  }

  /** The normalizer shared by excludeModules, excludeAssets and loggingDebug. */
  function NormalizeFilterList(v: Option<Value>): (r: Value)
    ensures r.List?
    ensures |r.items| == |Listify(v)|
    ensures forall i | 0 <= i < |r.items| :: CanonicalFilter(r.items[i])
    ensures forall i | 0 <= i < |r.items| :: r.items[i] == NormalizeFilter(Listify(v)[i])
  {
    List(MapFilters(Listify(v)))
  }

  /** On a list of canonical predicates the filter-list normalizer is the identity. */
  lemma {:induction false} CanonicalFilterListUnchanged(xs: seq<Value>)
    requires forall i | 0 <= i < |xs| :: CanonicalFilter(xs[i])
    ensures NormalizeFilterList(Some(List(xs))) == List(xs)
  {
    var r := NormalizeFilterList(Some(List(xs)));
    assert |r.items| == |xs|;
    forall i | 0 <= i < |xs|
      ensures r.items[i] == xs[i]
    {
      assert Listify(Some(List(xs)))[i] == xs[i];
    }
  }

  /** Normalizing a normalized filter list again changes nothing. */
  lemma FilterListIdempotent(v: Option<Value>)
    ensures NormalizeFilterList(Some(NormalizeFilterList(v))) == NormalizeFilterList(v)
  {
    CanonicalFilterListUnchanged(NormalizeFilterList(v).items);
  }

  /** A single truthy filter is the same as a list holding it. */
  lemma BareAndListedFilters(x: Value)
    requires !x.List? && Truthy(Some(x))
    ensures NormalizeFilterList(Some(x)) == NormalizeFilterList(Some(List([x])))
  {
  }

  /**
   * The falsy bare filters "" and false are dropped, while `[""]` keeps a
   * filter for "" and a bare `true` becomes a constant predicate.
   */
  lemma FalsyBareFilters()
    ensures NormalizeFilterList(Some(Str(""))) == List([])
    ensures NormalizeFilterList(Some(List([Str("")]))) == List([Function(SegmentTest(""))])
    ensures NormalizeFilterList(Some(Bool(false))) == List([])
    ensures NormalizeFilterList(Some(Bool(true))) == List([Function(Constant(true))])
  {
    assert Listify(Some(List([Str("")]))) == [Str("")];
  }

  /** `text` sits in `s` starting at offset `p`. */
  predicate OccursAt(s: string, text: string, p: int) {
    0 <= p && p + |text| <= |s| && s[p..p + |text|] == text
  }

  /** `warningString.includes(text)`: `text` occurs in `s` at some offset. */
  predicate Contains(s: string, text: string) {
    exists p | 0 <= p <= |s| :: OccursAt(s, text, p)
  }

  /** The position-by-position search behind `includes`, from offset `from` on. */
  function IncludesFrom(s: string, text: string, from: nat): (r: bool)
    ensures r <==> exists p | from <= p <= |s| :: OccursAt(s, text, p)
    decreases |s| + 1 - from
  {
    if from + |text| > |s| then false
    else if OccursAt(s, text, from) then true
    else IncludesFrom(s, text, from + 1)
  }

  /** `String.prototype.includes`. */
  function Includes(s: string, text: string): (r: bool)
    ensures r <==> Contains(s, text)
  {
    IncludesFrom(s, text, 0)
  }

  /**
   * Calls a function as a warnings filter: with the warning (identified by
   * `warning`) and its rendered text. The predicates normalizeFilter builds are
   * never placed on warningsFilter; they are taken not to match.
   */
  predicate WarningHolds(f: Func, warning: nat, text: string, env: Oracle) {
    match f
    case UserFunction(id) => env.callWarning(id, warning, text)
    case TextIncludes(t) => Includes(text, t)
    case TextRegExpTest(re) => env.objectTest(re, text)
    case Constant(b) => b
    case SegmentTest(_) => false
    case DelegateTest(_) => false
  }

  /** The shapes the warningsFilter normalizer accepts: strings, RegExps and functions. */
  predicate WarningFilterAccepted(x: Value) {
    x.Str? || (x.Object? && x.obj.RegExpObject?) || x.Function?
  }

  /** The per-item conversion of the warningsFilter normalizer. */
  function NormalizeWarningFilter(item: Value): (r: Result<Value, StatsError>)
    ensures r.Success? <==> WarningFilterAccepted(item)
    ensures r.Failure? ==> r.error == UnsupportedWarningsFilter(item)
    ensures r.Success? ==> r.value.Function?
    ensures item.Str? ==> (r.Success? &&
      forall w, text, env :: WarningHolds(r.value.fn, w, text, env) <==> Contains(text, item.s))
    ensures item.Object? && item.obj.RegExpObject? ==> (r.Success? &&
      forall w, text, env :: WarningHolds(r.value.fn, w, text, env) == env.objectTest(item.obj, text))
    ensures item.Function? ==> r == Success(item)
  {
    match item
    case Str(s) => Success(Function(TextIncludes(s)))
    case Object(obj) =>
      if obj.RegExpObject? then Success(Function(TextRegExpTest(obj)))
      else Failure(UnsupportedWarningsFilter(item))
    case Function(_) => Success(item)
    case _ => Failure(UnsupportedWarningsFilter(item))
  }

  /** `value.map(...)` over the warning filters; the first unsupported item throws. */
  function NormalizeWarningItems(xs: seq<Value>): (r: Result<seq<Value>, StatsError>)
    ensures r.Success? <==> forall i | 0 <= i < |xs| :: WarningFilterAccepted(xs[i])
    ensures r.Success? ==> |r.value| == |xs|
    ensures r.Success? ==> forall i | 0 <= i < |xs| :: Success(r.value[i]) == NormalizeWarningFilter(xs[i])
    ensures r.Failure? ==> exists i | 0 <= i < |xs| ::
      && !WarningFilterAccepted(xs[i])
      && (forall j | 0 <= j < i :: WarningFilterAccepted(xs[j]))
      && r.error == UnsupportedWarningsFilter(xs[i])
  {
    if xs == [] then Success([])
    else
      var head :- NormalizeWarningFilter(xs[0]);
      var tail := NormalizeWarningItems(xs[1..]);
      if tail.Failure? then
        assert forall i | 1 <= i < |xs| :: xs[i] == xs[1..][i - 1];
        Failure(tail.error)
      else
        assert forall i | 1 <= i < |xs| :: xs[i] == xs[1..][i - 1];
        Success([head] + tail.value)
  }

  /** The warningsFilter normalizer. */
  function NormalizeWarningsFilter(v: Option<Value>): (r: Result<Value, StatsError>)
    ensures r.Success? <==> forall i | 0 <= i < |Listify(v)| :: WarningFilterAccepted(Listify(v)[i])
    ensures r.Success? ==> r.value.List? && |r.value.items| == |Listify(v)|
    ensures r.Success? ==> forall i | 0 <= i < |r.value.items| ::
      Success(r.value.items[i]) == NormalizeWarningFilter(Listify(v)[i])
    ensures r.Failure? ==> exists i | 0 <= i < |Listify(v)| ::
      && !WarningFilterAccepted(Listify(v)[i])
      && (forall j | 0 <= j < i :: WarningFilterAccepted(Listify(v)[j]))
      && r.error == UnsupportedWarningsFilter(Listify(v)[i])
  {
    var items :- NormalizeWarningItems(Listify(v));
    Success(List(items))
  }

  /** A list of functions is already a normalized warnings filter. */
  lemma {:induction false} FunctionListUnchanged(xs: seq<Value>)
    requires forall i | 0 <= i < |xs| :: xs[i].Function?
    ensures NormalizeWarningsFilter(Some(List(xs))) == Success(List(xs))
  {
    var r := NormalizeWarningsFilter(Some(List(xs)));
    assert Listify(Some(List(xs))) == xs;
    assert r.Success?;
    forall i | 0 <= i < |xs|
      ensures r.value.items[i] == xs[i]
    {
      assert Success(r.value.items[i]) == NormalizeWarningFilter(xs[i]);
    }
    assert r.value.items == xs;
  }

  /** The logging normalizer: `true` becomes "log", everything else is kept. */
  function NormalizeLogging(v: Option<Value>): (r: Option<Value>)
    ensures r != Some(Bool(true))
    ensures v == Some(Bool(true)) ==> r == Some(Str("log"))
    ensures v != Some(Bool(true)) ==> r == v
  {
    if v == Some(Bool(true)) then Some(Str("log")) else v
  }

  lemma LoggingIdempotent(v: Option<Value>)
    ensures NormalizeLogging(NormalizeLogging(v)) == NormalizeLogging(v)
  {
  }

  /** The keys NORMALIZER rewrites. */
  predicate NormalizedKey(k: Key) {
    k == ExcludeModules || k == ExcludeAssets || k == WarningsFilter || k == Logging || k == LoggingDebug
  }

  /** A defined list of canonical filters. */
  predicate CanonicalFilterList(v: Option<Value>) {
    v.Some? && v.value.List? && forall i | 0 <= i < |v.value.items| :: CanonicalFilter(v.value.items[i])
  }

  /**
   * The shape every key of NORMALIZER has afterwards: the three filter keys are
   * lists of canonical filters, warningsFilter is a list of functions, and
   * logging is never `true`.
   */
  predicate Normalized(o: Options) {
    && CanonicalFilterList(Get(o, ExcludeModules))
    && CanonicalFilterList(Get(o, ExcludeAssets))
    && CanonicalFilterList(Get(o, LoggingDebug))
    && WarningsFilter in o && o[WarningsFilter].List?
    && (forall i | 0 <= i < |o[WarningsFilter].items| :: o[WarningsFilter].items[i].Function?)
    && Get(o, Logging) != Some(Bool(true))
  }

  /** Writes the normalized values of NORMALIZER's keys, given the normalized warnings filter. */
  function WriteNormalized(o: Options, warningsFilter: Value): (r: Options)
    ensures forall k | !NormalizedKey(k) :: Get(r, k) == Get(o, k)
    ensures forall k | k in o :: k in r
    ensures Get(r, ExcludeModules) == Some(NormalizeFilterList(Get(o, ExcludeModules)))
    ensures Get(r, ExcludeAssets) == Some(NormalizeFilterList(Get(o, ExcludeAssets)))
    ensures Get(r, WarningsFilter) == Some(warningsFilter)
    ensures Get(r, Logging) == NormalizeLogging(Get(o, Logging))
    ensures Get(r, LoggingDebug) == Some(NormalizeFilterList(Get(o, LoggingDebug)))
  {
    var r1 := o[ExcludeModules := NormalizeFilterList(Get(o, ExcludeModules))];
    var r2 := r1[ExcludeAssets := NormalizeFilterList(Get(o, ExcludeAssets))];
    var r3 := r2[WarningsFilter := warningsFilter];
    var r4 := Put(r3, Logging, NormalizeLogging(Get(o, Logging)));
    r4[LoggingDebug := NormalizeFilterList(Get(o, LoggingDebug))]
  }

  /** The NORMALIZER loop: every key of the table, in declaration order. */
  function RunNormalizers(o: Options): (r: Result<Options, StatsError>)
    ensures r.Success? <==>
      forall i | 0 <= i < |Listify(Get(o, WarningsFilter))| :: WarningFilterAccepted(Listify(Get(o, WarningsFilter))[i])
    ensures r.Failure? ==> exists i | 0 <= i < |Listify(Get(o, WarningsFilter))| ::
      && !WarningFilterAccepted(Listify(Get(o, WarningsFilter))[i])
      && (forall j | 0 <= j < i :: WarningFilterAccepted(Listify(Get(o, WarningsFilter))[j]))
      && r.error == UnsupportedWarningsFilter(Listify(Get(o, WarningsFilter))[i])
    ensures r.Success? ==> Normalized(r.value)
    ensures r.Success? ==> forall k | k in o :: k in r.value
    ensures r.Success? ==> forall k | !NormalizedKey(k) :: Get(r.value, k) == Get(o, k)
    ensures r.Success? ==> Get(r.value, ExcludeModules) == Some(NormalizeFilterList(Get(o, ExcludeModules)))
    ensures r.Success? ==> Get(r.value, ExcludeAssets) == Some(NormalizeFilterList(Get(o, ExcludeAssets)))
    ensures r.Success? ==> Get(r.value, WarningsFilter) == Some(NormalizeWarningsFilter(Get(o, WarningsFilter)).value)
    ensures r.Success? ==> Get(r.value, Logging) == NormalizeLogging(Get(o, Logging))
    ensures r.Success? ==> Get(r.value, LoggingDebug) == Some(NormalizeFilterList(Get(o, LoggingDebug)))
  {
    var warningsFilter :- NormalizeWarningsFilter(Get(o, WarningsFilter));
    Success(WriteNormalized(o, warningsFilter))
  }

  /** Options already in normalized shape are a fixed point of the normalizers. */
  lemma NormalizedUnchanged(o: Options)
    requires Normalized(o)
    ensures RunNormalizers(o) == Success(o)
  {
    CanonicalFilterListUnchanged(o[ExcludeModules].items);
    CanonicalFilterListUnchanged(o[ExcludeAssets].items);
    CanonicalFilterListUnchanged(o[LoggingDebug].items);
    FunctionListUnchanged(o[WarningsFilter].items);
    assert NormalizeFilterList(Get(o, ExcludeModules)) == o[ExcludeModules];
    assert NormalizeFilterList(Get(o, ExcludeAssets)) == o[ExcludeAssets];
    assert NormalizeFilterList(Get(o, LoggingDebug)) == o[LoggingDebug];
    assert NormalizeWarningsFilter(Get(o, WarningsFilter)) == Success(o[WarningsFilter]);
    assert NormalizeLogging(Get(o, Logging)) == Get(o, Logging);
    assert o[ExcludeModules := o[ExcludeModules]][ExcludeAssets := o[ExcludeAssets]]
      [WarningsFilter := o[WarningsFilter]] == o;
    assert Put(o, Logging, Get(o, Logging)) == o;
    assert o[LoggingDebug := o[LoggingDebug]] == o;
  }

  /** Running the normalizers on their own output changes nothing. */
  lemma NormalizersIdempotent(o: Options)
    requires RunNormalizers(o).Success?
    ensures RunNormalizers(RunNormalizers(o).value) == RunNormalizers(o)
  {
    NormalizedUnchanged(RunNormalizers(o).value);
  }
}

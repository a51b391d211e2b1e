# Stats-options resolution of webpack's DefaultStatsPresetPlugin

This project models, in Dafny, how webpack turns a partial stats-options
object into the options its stats factory and printer use. The work happens
in `lib/stats/DefaultStatsPresetPlugin.js`, in three ordered stages:

1. **Presets** (`Presets`). A named preset from `NAMED_PRESETS` is laid over the
   options by `applyDefaults`. It fills only keys that are still `undefined`.
2. **Defaults** (`Defaults`, with the five policies in `Policies`). The
   `DEFAULTS` table runs once, in declaration order. Each resolver runs only
   for a key that is still undefined, and it sees the options as the earlier
   entries left them.
3. **Normalizers** (`Normalizers`, with `normalizeFilter` in `Filters`). The
   `NORMALIZER` table rewrites its five keys into canonical form. The
   warningsFilter normalizer throws on an item of unsupported shape.

`Pipeline.Resolve` composes the three stages, as the `statsPreset` and
`statsNormalize` hooks do in sequence.

Modelling choices:
- **Options and keys.** An options object is a `map<Key, Value>`; a key missing
  from the map is `undefined`. The 74 keys of `DEFAULTS` are `Known(i)`, where
  `i` is the key's position in the table. The other keys the core mentions
  (`all`, `exclude`, `errorsSpace`, `warningsSpace`, `warningsFilter`,
  `runtime`, `cached`) are `Known(74)` to `Known(80)`, and `Other(name)` is
  any other key.
- **Values.** `Infinity` is the constructor `Unbounded`. Numbers are integers.
  `"auto"` is the string it is in the source.
- **Truthiness.** JavaScript truthiness is `Values.Truthy`: `undefined`,
  `null`, `false`, `0` and `""` are falsy.
- **The defaults pass.** It is a left fold, `Defaults.Fill`, over the table
  positions. The lemmas about it are stated for an arbitrary entry function,
  and `Defaults.Entries` instantiates it with the table.
- **Opaque parts.** RegExp objects, objects with a `test` method and user
  callbacks are opaque tokens. Their behaviour comes from a
  `Filters.Oracle` parameter.
- **String filters.** A string filter is compiled as the source does it: the
  escaping `replace` (`EscapeRegExp`), the reading of the escaped body as a
  literal (`ReadLiteral`), and `test` scanning the start positions (`Scan`).
  The result is proved equal to a segment-bounded substring predicate
  (`SegmentMatch`).
- **Compiler state.** The compiler's `context` and `root` are the parameter
  `Host`. The request shortener is a tag: the shared one, or a fresh one
  built from a context and a root.
- **Errors.** A thrown error is a `Failure` that carries the offending value.
- **The tables.** `NAMED_PRESETS` is `Presets.Preset`, one map display per
  preset (lines 36-144). `DEFAULTS` is `Defaults.ResolverOf`, which gives the
  resolver shape of each of the 74 positions (lines 186-285).
- **Strings.** A string is a sequence of Unicode scalar values, not of UTF-16
  code units, so a lone surrogate cannot be represented.

In five places the code does something other than one might expect. The
model follows the code:
- **The result is not total.** `all`, `errorsSpace`, `warningsSpace`,
  `runtime`, `cached` and `exclude` have no `DEFAULTS` entry, so they can
  still be undefined after resolution (`Pipeline.ResolveKeepsUnlisted`).
  There is in particular no error or warning count cap default.
- **chunkModules.** When `all` is not a boolean and `modules` is falsy,
  chunkModules defaults to `true` in both modes. It does not follow a mode
  policy.
- **The shortener.** The shared request shortener is chosen by comparing the
  options' `context` with the compiler's context, not by comparing roots.
- **warningsFilter objects.** The normalizer accepts only real RegExp
  objects. Any other object with a `test` method throws.
- **The minimal preset.** It sets `modulesSpace`, `assetsSpace`,
  `errorsSpace` and `warningsSpace` to 0. It leaves `chunkModulesSpace`,
  `nestedModulesSpace` and `reasonsSpace` to the mode caps.

## Model

| member | source | states |
|---|---|---|
| Filters.ReadLiteralOfEscape | lib/stats/DefaultStatsPresetPlugin.js:295 | the escaped item reads back as exactly the original string, so the built regular expression matches the item literally |
| Filters.Scan | lib/stats/DefaultStatsPresetPlugin.js:297 | `test` from a start position succeeds iff the pattern matches at some position at or after it |
| Filters.CompiledStringTest | lib/stats/DefaultStatsPresetPlugin.js:293-297 | a string filter accepts an identifier iff the item occurs right after a `/` or `\` and is followed by `/`, `\`, `!`, `?` or the end |
| Filters.NormalizeFilter | lib/stats/DefaultStatsPresetPlugin.js:292-307 | strings become segment-bounded matchers, objects with `test` delegate to it, booleans become constant predicates, anything else (functions included) is returned unchanged |
| Filters.NormalizeFilterIdempotent | lib/stats/DefaultStatsPresetPlugin.js:292-307 | normalizeFilter leaves its own results unchanged |
| Filters.SegmentMatchExamples | lib/stats/DefaultStatsPresetPlugin.js:294-297 | "foo" matches "/path/foo/index.js", "\path\foo" and "/path/foo?query" but not "/path/foofoo/index.js" |
| Policies.PolicyValue | lib/stats/DefaultStatsPresetPlugin.js:150-180 | the truth tables of the five policies: a boolean `all` decides every policy; otherwise NORMAL_ON is true, NORMAL_OFF false, ON/OFF_FOR_TO_STRING follow or invert the mode, and AUTO_FOR_TO_STRING is "auto" in toString mode and true outside it; "auto" arises from nothing else |
| Policies.OnOffAreModeSwapped | lib/stats/DefaultStatsPresetPlugin.js:161-169 | ON_FOR_TO_STRING in one mode equals OFF_FOR_TO_STRING in the other |
| Presets.PresetByKey | lib/stats/DefaultStatsPresetPlugin.js:383-386 | a preset is found only under the name it is registered with |
| Presets.PresetKeyRoundTrip | lib/stats/DefaultStatsPresetPlugin.js:36-144 | each of the seven presets is found under its own name, so the names are distinct |
| Presets.ApplyDefaults | lib/stats/DefaultStatsPresetPlugin.js:23-31 | the keys afterwards are those of the options and the preset; defined keys keep their values and undefined ones take the preset's |
| Presets.ApplyDefaultsIdempotent | lib/stats/DefaultStatsPresetPlugin.js:23-31 | applying the same preset twice equals applying it once |
| Presets.ApplyOverlays | lib/stats/DefaultStatsPresetPlugin.js:23-31 | after several presets, a defined key is unchanged and an undefined key takes the value of the first preset that sets it |
| Presets.ApplyOverlaysIdempotent | lib/stats/DefaultStatsPresetPlugin.js:23-31 | applying a sequence of presets a second time changes nothing |
| Presets.EarlierOverlayWins | lib/stats/DefaultStatsPresetPlugin.js:23-31 | on a key two presets share, the earlier preset wins, and a caller's value beats both |
| Presets.CoveredPresetUnchanged | lib/stats/DefaultStatsPresetPlugin.js:23-31 | a preset whose keys are all defined already changes nothing |
| Presets.PresetsLeaveFilters | lib/stats/DefaultStatsPresetPlugin.js:36-144 | no preset sets warningsFilter, excludeModules, excludeAssets or loggingDebug |
| Presets.PresetUmbrella | lib/stats/DefaultStatsPresetPlugin.js:101-143 | every preset except verbose and detailed sets `all` to false; those two leave it undefined |
| Defaults.ChunkModulesDefault | lib/stats/DefaultStatsPresetPlugin.js:210-215 | chunkModules follows a boolean `all`, and otherwise is false iff `modules` is truthy |
| Defaults.ModulesDefault | lib/stats/DefaultStatsPresetPlugin.js:219-224 | modules follows a boolean `all`, and otherwise is false iff in toString mode both `chunks` and `chunkModules` are truthy |
| Defaults.LoggingDefault | lib/stats/DefaultStatsPresetPlugin.js:272-273 | logging is "info" iff in toString mode with `all` not false, and false otherwise |
| Defaults.ShortenerDefault | lib/stats/DefaultStatsPresetPlugin.js:188-195 | the shared shortener iff the options' context is the compiler's context, else a fresh one for that context and the compiler's root |
| Defaults.OverrideDefault | lib/stats/DefaultStatsPresetPlugin.js:243-250 | a defined `runtime` or `cached` wins whatever its value; otherwise the OFF_FOR_TO_STRING rule applies |
| Defaults.Defaulted | lib/stats/DefaultStatsPresetPlugin.js:392-400 | the pass defines exactly the keys defined before plus every key DEFAULTS lists, and never changes a defined key |
| Defaults.FillDomain | lib/stats/DefaultStatsPresetPlugin.js:392-400 | after the first n entries, the defined keys are the original ones plus the first n table keys, and original values are kept |
| Defaults.FillKeeps | lib/stats/DefaultStatsPresetPlugin.js:392-400 | a key defined at some point of the pass keeps its value through every later entry |
| Defaults.FillAt | lib/stats/DefaultStatsPresetPlugin.js:392-400 | an undefined key gets its entry's value, computed on the options as they stand at its position, and keeps it to the end |
| Defaults.BeforeUnresolved | lib/stats/DefaultStatsPresetPlugin.js:392-400 | an entry sees a key declared at or after its own position exactly as it was before the pass |
| Defaults.BeforeResolved | lib/stats/DefaultStatsPresetPlugin.js:392-400 | an entry sees a key declared before it defined, with the value it ends the pass with |
| Defaults.DefaultOf | lib/stats/DefaultStatsPresetPlugin.js:392-400 | an undefined listed key ends up as its resolver's value on the options its position sees |
| Defaults.UnlistedKeysUnchanged | lib/stats/DefaultStatsPresetPlugin.js:186-285 | keys DEFAULTS does not list keep their value, and `all`, errorsSpace and warningsSpace stay undefined when they were |
| Defaults.PolicyDefaults | lib/stats/DefaultStatsPresetPlugin.js:186-285 | every undefined policy-governed key gets its policy's value for the `all` given before the pass |
| Defaults.UmbrellaDecides | lib/stats/DefaultStatsPresetPlugin.js:150-180 | with `all` a boolean, every undefined policy-governed key takes that boolean in both modes |
| Defaults.CapDefault | lib/stats/DefaultStatsPresetPlugin.js:207 | an undefined cap key is its cap in toString mode and Infinity otherwise |
| Defaults.ModeCaps | lib/stats/DefaultStatsPresetPlugin.js:207-255 | the caps are chunkGroupMaxAssets 5, modulesSpace 15, chunkModulesSpace 10, nestedModulesSpace 10, assetsSpace 15, reasonsSpace 15 for toString and Infinity otherwise |
| Defaults.ChunkModulesSeesPresetModules | lib/stats/DefaultStatsPresetPlugin.js:210-215 | chunkModules sees `all` and `modules` only as they were before the pass, since modules is declared later |
| Defaults.ModulesSeesResolvedChunks | lib/stats/DefaultStatsPresetPlugin.js:219-224 | modules sees `chunks` and `chunkModules` with their final values, since both are declared earlier |
| Defaults.EmptyOptionsModules | lib/stats/DefaultStatsPresetPlugin.js:208-224 | from empty options, chunks is on only outside toString, and chunkModules and modules are both true |
| Defaults.RuntimeOverrideWins | lib/stats/DefaultStatsPresetPlugin.js:243-248 | runtimeModules takes `runtime` whenever it is defined, else the OFF_FOR_TO_STRING value |
| Defaults.CachedOverrideWins | lib/stats/DefaultStatsPresetPlugin.js:249-250 | cachedModules takes `cached` whenever it is defined, else the OFF_FOR_TO_STRING value |
| Defaults.LoggingDefaulted | lib/stats/DefaultStatsPresetPlugin.js:272-273 | undefined logging ends up "info" iff in toString mode with `all` not false, and false otherwise |
| Defaults.ContextAndShortener | lib/stats/DefaultStatsPresetPlugin.js:187-195 | context defaults to the compiler's context; the shortener is the shared one iff the final context is the compiler's |
| Defaults.FixedDefault | lib/stats/DefaultStatsPresetPlugin.js:274-284 | an undefined key with a constant resolver takes that constant |
| Defaults.FixedDefaults | lib/stats/DefaultStatsPresetPlugin.js:276-284 | modulesSort "depth", assetsSort "!size", excludeModules [] and colors false when undefined |
| Defaults.CompleteUnchanged | lib/stats/DefaultStatsPresetPlugin.js:392-400 | options that define every listed key pass through the pass unchanged |
| Normalizers.Listify | lib/stats/DefaultStatsPresetPlugin.js:315-319 | an array stays itself, a truthy value becomes a one-element list, and a falsy one becomes empty |
| Normalizers.MapFilters | lib/stats/DefaultStatsPresetPlugin.js:320 | the mapped list has the same length, holds normalizeFilter of each item, and every item is canonical |
| Normalizers.NormalizeFilterList | lib/stats/DefaultStatsPresetPlugin.js:314-321 | the result is a list as long as the listified input, item by item its normalizeFilter, all canonical |
| Normalizers.CanonicalFilterListUnchanged | lib/stats/DefaultStatsPresetPlugin.js:322-327 | on a list of canonical filters the filter-list normalizer is the identity |
| Normalizers.FilterListIdempotent | lib/stats/DefaultStatsPresetPlugin.js:363-370 | normalizing a normalized filter list again changes nothing |
| Normalizers.BareAndListedFilters | lib/stats/DefaultStatsPresetPlugin.js:363-370 | a truthy bare filter that is not a list normalizes to the same as the one-element list holding it |
| Normalizers.FalsyBareFilters | lib/stats/DefaultStatsPresetPlugin.js:364-367 | a bare "" or false gives no filter, while `[""]` keeps one for "" and a bare `true` becomes a constant predicate |
| Normalizers.IncludesFrom | lib/stats/DefaultStatsPresetPlugin.js:345 | the search from an offset succeeds iff the text occurs at some position at or after it |
| Normalizers.Includes | lib/stats/DefaultStatsPresetPlugin.js:345 | `includes` holds iff the text occurs somewhere in the warning string |
| Normalizers.NormalizeWarningFilter | lib/stats/DefaultStatsPresetPlugin.js:343-356 | accepted iff a string, RegExp or function; a string becomes an `includes` test, a RegExp tests the warning text, a function passes through, anything else fails with that item |
| Normalizers.NormalizeWarningItems | lib/stats/DefaultStatsPresetPlugin.js:338-357 | succeeds iff every item is accepted, converting each in place; otherwise fails with the first unsupported item |
| Normalizers.NormalizeWarningsFilter | lib/stats/DefaultStatsPresetPlugin.js:328-358 | the listified filter converted item by item, or the error for the first unsupported item |
| Normalizers.FunctionListUnchanged | lib/stats/DefaultStatsPresetPlugin.js:350-352 | a list of functions is already a normalized warnings filter |
| Normalizers.NormalizeLogging | lib/stats/DefaultStatsPresetPlugin.js:359-362 | true becomes "log" and every other value, undefined included, is kept |
| Normalizers.LoggingIdempotent | lib/stats/DefaultStatsPresetPlugin.js:359-362 | the logging normalizer applied twice equals applied once |
| Normalizers.WriteNormalized | lib/stats/DefaultStatsPresetPlugin.js:401-405 | each of the five keys gets its normalizer's value and every other key is unchanged |
| Normalizers.RunNormalizers | lib/stats/DefaultStatsPresetPlugin.js:313-371 | succeeds iff every warnings filter item is supported, failing with the first unsupported one; on success each of the five keys holds its normalizer's value of the input, the result is in normalized shape, keeps every key, and changes no other key |
| Normalizers.NormalizedUnchanged | lib/stats/DefaultStatsPresetPlugin.js:313-371 | options already in normalized shape are a fixed point of the normalizers |
| Normalizers.NormalizersIdempotent | lib/stats/DefaultStatsPresetPlugin.js:401-405 | running the normalizers on their own output changes nothing |
| Pipeline.WithPreset | lib/stats/DefaultStatsPresetPlugin.js:383-390 | a registered preset name applies that preset; any other name leaves the options unchanged |
| Pipeline.Resolve | lib/stats/DefaultStatsPresetPlugin.js:391-405 | on success the options are normalized, every listed key is defined, and a caller's value on a key NORMALIZER does not rewrite survives |
| Pipeline.ResolveKeepsUnlisted | lib/stats/DefaultStatsPresetPlugin.js:392-400 | keys neither table touches end as the preset stage left them, or as the caller gave them when there is no preset |
| Pipeline.PresetBeatsDefaults | lib/stats/DefaultStatsPresetPlugin.js:387-399 | a preset value on a key the caller left undefined wins over the DEFAULTS entry, unless NORMALIZER rewrites it |
| Pipeline.WarningsFilterUntouched | lib/stats/DefaultStatsPresetPlugin.js:186-285 | neither the preset nor the defaults stage changes warningsFilter |
| Pipeline.FilterListReachesNormalizer | lib/stats/DefaultStatsPresetPlugin.js:276-277 | a filter list reaches NORMALIZER as the caller gave it, or as the empty list DEFAULTS gives when the caller left it undefined |
| Pipeline.ResolvedFilters | lib/stats/DefaultStatsPresetPlugin.js:401-404 | after resolution, warningsFilter is the normalized caller's filter, and each filter list is the normalized caller's list, or empty when the caller left it undefined |
| Pipeline.ResolveFailsOnlyOnWarningsFilter | lib/stats/DefaultStatsPresetPlugin.js:353-355 | resolution fails iff the caller's warnings filter has an unsupported item, and the error names the first such item |
| Pipeline.ResolveIdempotent | lib/stats/DefaultStatsPresetPlugin.js:391-405 | resolving resolved options again, with the same preset and mode, changes nothing |
| Pipeline.NormalizedKeysHaveNoPolicy | lib/stats/DefaultStatsPresetPlugin.js:272-277 | none of the keys NORMALIZER rewrites is resolved by a policy |
| Pipeline.ResolvePolicy | lib/stats/DefaultStatsPresetPlugin.js:393-398 | a policy key neither caller nor preset set ends up as its policy decides for the preset stage's `all` |
| Pipeline.NonePresetStage | lib/stats/DefaultStatsPresetPlugin.js:141-143 | the "none" preset sets only `all: false` |
| Pipeline.NonePresetTurnsPoliciesOff | lib/stats/DefaultStatsPresetPlugin.js:141-143 | with "none" and `all` unset, every policy key the caller left unset ends up false in both modes |
| Pipeline.DetailedLogsAtLog | lib/stats/DefaultStatsPresetPlugin.js:359-362 | from empty options the detailed preset's `logging: true` resolves to "log" |

## Left out

- **Plugin plumbing.** The hook registration in `apply` is not modelled; `Pipeline.Resolve` composes the stages directly instead. The hook taps are at `lib/stats/DefaultStatsPresetPlugin.js:375-408`.
- **Choosing the preset.** Which preset hook fires for a given `preset` value is outside this file. `Pipeline.WithPreset` takes the name as a string, and "normal" or an unknown name applies nothing.
- **RequestShortener internals.** The class is not part of this model. The shortener value is a tag: the shared one, or a fresh one with its context and root.
- **RegExp engine and callbacks.** The behaviour of user RegExp objects, objects with `test` and user functions is the `Oracle` parameter. The RegExp a string filter compiles to is modelled only for the literal bodies `EscapeRegExp` produces.
- **Calls with the wrong arity.** A warning closure called as a one-argument filter is taken not to match. A string or delegating normalizeFilter predicate called as a warning filter is taken not to match; a constant one returns its boolean, as `() => item` does. The normalizers never place them there.
- **Numbers.** Numbers are integers. NaN, -0 and fractions are not modelled; no resolver computes with numbers.
- **The error message.** The error's text is not modelled. The error carries the offending value instead.
- **Partial writes before the throw.** When the warningsFilter normalizer throws, the source has already rewritten excludeModules and excludeAssets in place. The model returns only the failure.
- **The benchmark configuration.** `test/benchmarkCases/cache-filesystem/webpack.config.js` is declarative data with no resolution logic.
- **Further keys.** `Known(i)` for i above 80 is allowed by the type but names no option. Such keys behave like `Other` keys.
- **Other names.** `Other(name)` is not kept apart from the known keys: `Other("modules")` is a key of its own, unrelated to `Modules`, and has no JavaScript counterpart. Callers are expected to use the numbered keys for the options the core names.
- **Undefined list items.** A list item cannot be `undefined`. In the source `warningsFilter: [undefined]` throws; the model cannot express that input.
- Pipeline.Resolve: its own contract states the shape of the result, the listed keys and the caller's values on the other keys. The values of the normalized keys are stated by `Pipeline.ResolvedFilters` and `Normalizers.RunNormalizers`.
- Filters.EscapeRegExp: its contract states only the length bounds. The exact escaping is pinned down through its partner `Filters.ReadLiteralOfEscape`.

# Router composition (`mergeRouters`) in Dafny

This project models the runtime part of `mergeRouters` from the server package of a
typed RPC framework. `mergeRouters` composes a main router and zero or more further
routers into one new router:

1. The router list is the main router followed by the rest, in argument order.
2. The `queries`, `mutations` and `subscriptions` maps are each merged across the list
   by `mergeWithoutOverrides`, starting from an empty object. A name defined twice
   within one category is an error. A name used in two different categories is not.
3. The error formatter and the transformer are each reconciled by a left fold that
   starts at the framework's default. A router whose setting is missing or is the
   default is skipped. A non-default setting is adopted when the accumulator is still
   the default or already equals it. A second, different non-default setting throws
   "several error formatters" or "several transformers".
4. The router factory builds a new router from the three merged maps and the two
   reconciled settings.

The first step that throws aborts the whole composition, so no partial router is ever
returned.

The model is pure, like the source: datatypes, recursive functions over `seq<Router>`,
and `Result` for the thrown errors.

- `Routers.dfy` holds the data model. Procedures, formatters and transformers are values
  compared only by identity. A missing setting is `None`.
- `ProcedureMerge.dfy` holds the strict disjoint-union fold `MergeWithoutOverrides`.
- `SettingReconcile.dfy` holds the reconciliation fold. It is written once, generic
  over the setting type, and used for both formatters and transformers.
- `RouterMerge.dfy` holds the entry point `MergeRouters` and the lemmas that state its
  contract.
- `CompositionLaws.dfy` holds laws relating several compositions: the single-router
  case, category isolation, two routers in either order, and formatter conflicts.

The reconciliation contract uses `Held(acc)`. It is the empty set while the accumulator
is the default, and `{acc}` otherwise. A fold from accumulator `acc` over a list of
settings has this contract:

- it succeeds exactly when `Held(acc)` plus the list's distinct overrides has at most
  one element;
- on success it ends holding exactly that set;
- it can fail only with the conflict error of its setting kind.

## Model

| member | source | states |
|---|---|---|
| `Routers.ProcedureMaps` | packages/server/src/core/internals/mergeRouters.ts:91 | one category's maps of the routers: one map per router, in router order, each the map that router holds for the category (likewise at lines 95 and 99) |
| `Routers.ErrorFormatters` | packages/server/src/core/internals/mergeRouters.ts:104 | the error formatters the fold reads: one per router, in router order, each that router's setting |
| `Routers.Transformers` | packages/server/src/core/internals/mergeRouters.ts:121 | the transformers the fold reads: one per router, in router order, each that router's setting |
| `Routers.CreateRouter` | packages/server/src/core/internals/mergeRouters.ts:130-137 | the router factory: the new router's three maps are exactly the given ones and both of its settings are present, holding the given formatter and transformer |
| `RouterMerge.RouterList` | packages/server/src/core/internals/mergeRouters.ts:87 | the router list has one more element than the rest; it starts with the main router, followed by the rest in argument order |
| `ProcedureMerge.MergeWithoutOverrides` | packages/server/src/core/internals/mergeRouters.ts:89-100 | succeeds exactly when no two of the maps (the target included) share a name; then the result's names are exactly those of all the maps, each bound to the procedure of the map that defines it; otherwise it fails with `DuplicateKey` carrying a non-empty set of names, each defined by two of the maps |
| `SettingReconcile.ReconcileStep` | packages/server/src/core/internals/mergeRouters.ts:102-116 | the reduce callback: it skips a missing or default setting and leaves the accumulator unchanged; it succeeds exactly when the accumulator and the setting hold at most one distinct override, and the new accumulator holds exactly their union; it fails only with the given conflict |
| `SettingReconcile.Reconcile` | packages/server/src/core/internals/mergeRouters.ts:101-118 | the fold succeeds exactly when the start value and the settings hold at most one distinct override; on success it ends holding exactly that override, or the default when there is none; it fails only with the given conflict |
| `SettingReconcile.ReconcileAdoptsFirstOverride` | packages/server/src/core/internals/mergeRouters.ts:103-115 | a successful fold from the default ends at the first override in the list, or at the default when no setting overrides it; applied to each prefix, this is the accumulator after each router |
| `SettingReconcile.ReconcileDependsOnlyOnOverrides` | packages/server/src/core/internals/mergeRouters.ts:101-128 | two setting lists with the same distinct overrides reconcile to the same result, so order and repetition do not matter |
| `SettingReconcile.ReconcileAppend` | packages/server/src/core/internals/mergeRouters.ts:101-118 | the reduce is a left fold: folding over `a + b` is folding over `a`, then, unless that failed, over `b` from where it stopped |
| `SettingReconcile.ReconcilePairCommutes` | packages/server/src/core/internals/mergeRouters.ts:120-128 | folding two settings from the default gives the same result in either order |
| `SettingReconcile.ReconcilePairSecondSkipped` | packages/server/src/core/internals/mergeRouters.ts:121-127 | a second setting that is missing or the default never causes a conflict |
| `SettingReconcile.ReconcileSingle` | packages/server/src/core/internals/mergeRouters.ts:101-128 | folding a single setting from the default yields that setting, or the default when it is missing |
| `RouterMerge.MergeCategory` | packages/server/src/core/internals/mergeRouters.ts:89-100 | a category's merge succeeds exactly when that category's maps are pairwise disjoint; the result holds exactly the names some router defines in that category, each bound to that router's procedure; it fails only with `DuplicateKey`, reporting a non-empty set of names, each of which two different routers both define in that category |
| `RouterMerge.ReconcileFormatters` | packages/server/src/core/internals/mergeRouters.ts:101-118 | the formatter fold succeeds exactly when the routers use at most one distinct non-default formatter; it yields that formatter, or the default when none is set; it fails only with `SeveralErrorFormatters` |
| `RouterMerge.ReconcileTransformers` | packages/server/src/core/internals/mergeRouters.ts:120-128 | the same contract for transformers, failing only with `SeveralTransformers` |
| `RouterMerge.MergeRouters` | packages/server/src/core/internals/mergeRouters.ts:82-139 | a successful composition always carries both settings (the factory sets them) |
| `RouterMerge.MergeRoutersSucceeds` | packages/server/src/core/internals/mergeRouters.ts:86-128 | over the list of the main router then the rest, the composition succeeds exactly when every category is pairwise disjoint and neither setting has two distinct overrides |
| `RouterMerge.MergeRoutersProcedures` | packages/server/src/core/internals/mergeRouters.ts:86-100 | on success, each category of the result holds exactly the names defined in that category by some router in the list, each bound to that router's procedure |
| `RouterMerge.MergeRoutersSettings` | packages/server/src/core/internals/mergeRouters.ts:101-132 | on success, each setting of the result is present; it is the single override among the routers, or the default when no router overrides it |
| `RouterMerge.MergeRoutersFailureOrder` | packages/server/src/core/internals/mergeRouters.ts:89-128 | the steps fail in order. A duplicate name is reported exactly when some category clashes. The formatter conflict is reported exactly when no category clashes and the formatters disagree. The transformer conflict is reported only when nothing before it fails. A duplicate name failure reports a non-empty set of names that, in some one category, two different routers both define |
| `RouterMerge.MergeRoutersFirstClash` | packages/server/src/core/internals/mergeRouters.ts:89-100 | the category merges run in the order queries, mutations, subscriptions, so a duplicate name failure is exactly the error of the first category whose maps are not pairwise disjoint |
| `CompositionLaws.MergeCategorySingle` | packages/server/src/core/internals/mergeRouters.ts:89-100 | merging one category of a single router yields that router's map |
| `CompositionLaws.MergeCategoryPair` | packages/server/src/core/internals/mergeRouters.ts:89-100 | merging one category of two routers yields the union of their maps when they share no name. Otherwise it fails with `DuplicateKey` naming exactly the shared names |
| `CompositionLaws.MergeSingleRouter` | packages/server/src/core/internals/mergeRouters.ts:86-138 | composing only the main router still runs every step. It builds a router with the same three maps and the router's own settings; a missing setting becomes the default |
| `CompositionLaws.CategoryIsolation` | packages/server/src/core/internals/mergeRouters.ts:89-100 | two successful compositions that see the same maps in one category have the same result in that category, whatever the other categories hold |
| `CompositionLaws.SameNameInDifferentCategoriesMaps` | packages/server/src/core/internals/mergeRouters.ts:89-100 | for a router with only queries and one with only mutations, every category merge succeeds and keeps each router's own map |
| `CompositionLaws.SameNameInDifferentCategories` | packages/server/src/core/internals/mergeRouters.ts:89-100 | a router with only queries and one with only mutations that overrides no setting always compose. This holds whatever names they share, and the result keeps both maps |
| `CompositionLaws.SelfCompositionFails` | packages/server/src/core/internals/mergeRouters.ts:89-100 | under the strict merge rule assumed for `mergeWithoutOverrides` (see "Left out"), composing a router with itself fails with `DuplicateKey` as soon as any of its categories is non-empty, whatever its settings |
| `CompositionLaws.MergeCategoryPairCommutes` | packages/server/src/core/internals/mergeRouters.ts:89-100 | merging one category of two routers gives the same result, or the same error, in either order |
| `CompositionLaws.MergeTwoRoutersCommutes` | packages/server/src/core/internals/mergeRouters.ts:86-138 | composing two routers gives the same router, or the same error, in either argument order |
| `CompositionLaws.DistinctFormattersConflict` | packages/server/src/core/internals/mergeRouters.ts:107-111 | two routers with different non-default error formatters never compose. The error is `SeveralErrorFormatters`, unless a duplicate name failed first |
| `CompositionLaws.RepeatedFormatterAgrees` | packages/server/src/core/internals/mergeRouters.ts:107-113 | two routers with the same non-default error formatter do not conflict, and a successful composition carries that formatter |

## Left out

- `mergeWithoutOverrides.ts` is not part of this model; only its use at lines 89-100 is.
  The body of that helper is not in this model, so its rule is an assumption here, not
  something lines 89-100 imply: `MergeWithoutOverrides` is a strict disjoint union that
  fails when a later map defines a name already present. A helper that accepted a name
  bound to the same procedure in both maps would let a router compose with itself.
  `SelfCompositionFails` (self-composition fails as soon as any category is non-empty)
  follows from this assumed rule, not from the code at lines 82-139.
- `MergeWithoutOverrides`: the error carries every name the first clashing map shares
  with the maps before it. The thrown error names one key, depending on the iteration
  order of object keys, which a map does not have.
- The model's `DuplicateKey` does not name the category, because `mergeWithoutOverrides`
  receives only the maps (lines 89-100).
- `MergeTwoRoutersCommutes`: order independence is proved for two routers, not for
  every permutation of a longer list. For settings, `ReconcileDependsOnlyOnOverrides`
  covers lists of any length.
- The type-level helpers `EnsureProcedureStructure` and `CreateNewRouter` (lines 15-40),
  and the `mergeRoutersNew` overloads (lines 42-80): they are compile-time typing only.
- `mergeRoutersFactory` (lines 143-153): it only forwards its arguments to
  `mergeRouters`.
- The internals of `createRouterFactory` and the `RootConfig` it is keyed by (line 130).
  The factory is modelled as building a router from its arguments; the ambient
  configuration typing it carries is left out.
- What formatters, transformers and procedures do. Only their identity matters here, so
  each is a datatype carrying an identity number. The defaults are fixed identities
  (`Formatter(0)`, `Transformer(0)`).
- JavaScript truthiness at lines 104 and 121: only a missing setting (`undefined` or
  `null`) is falsy, because formatters and transformers are functions and objects.
  Missing is `None`.
- Input routers are values here, so "no input router is modified" holds by
  construction. The fresh object identity of the result is not modelled.

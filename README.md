# Promotion store model

This project models the promotion store of a small catalog browser (`src/store/promoStore.ts`). The state record holds:

- the loaded catalog: promotions, categories and stores;
- the filter criteria: category, store, maximum distance and the simulated viewer position;
- the loading status of the initial fetch, and its error message;
- the current special-promotion notification.

It also models the derived selector that filters the catalog by the active criteria, and the zero-coordinate guard of the distance helper.

Layout:

- `types.dfy` (module `Types`): the `Store`, `Category` and `Promotion` records of `src/types.ts`. Optional properties are `Option` values.
- `geo.dfy` (module `Geo`): `GetDistanceKm`. The haversine arithmetic is a function parameter of type `Haversine`. Only the guard is modelled: a zero coordinate gives `Infinite`.
- `promo_state.dfy` (module `PromoState`): the state record, the initial state and the filter defaults (40.4168, -3.7038). Each action is a pure updater: the state that the action's `set` call produces. Lemmas state the properties of each action and the invariant they all keep.
- `selectors.dfy` (module `Selectors`): the filter callback `PassesFilters`, the `Array.filter` as `FilterPromotions`, and `SelectFilteredPromotions`. Lemmas cover order, membership with multiplicity, the no-criteria case, idempotence and the proximity rule.
- `promo_store.dfy` (module `PromoStore`): the class `PromoStore`. Its fields follow the state record and its methods are the seven actions. Every method keeps `Valid()` and ties the new `State()` to the updater applied to the old one. `fetchInitialData` is split at its `await`:
  - `BeginFetch` is the re-entrancy guard and the switch to `Loading`. It returns whether the data-source calls are issued.
  - `CompleteFetch(outcome)` is the continuation. It takes the combined result of the three calls, built by `AllFetched`, which models `Promise.all`.
- `scenarios.dfy` (module `Scenarios`): scenarios from the store's tests, plus worked examples of the proximity rule and of the empty-id normalisation, and a client method that follows the class contracts through the tests' call sequences.

The invariant (`PromoState.Invariant`) has two parts:

- an error is present only when the status is `Failed`, and it is the fixed message (so, in particular, there is no error while `Loading`);
- a present notification is always special.

Two points where the source text disagrees with itself, or could be read two ways; the model follows the code:

- `clearFilters` copies the whole initial filter record (`src/store/promoStore.ts:143`). It therefore resets the viewer position to the default 40.4168 / -3.7038 and does not keep the current position. The test title at `src/store/promoStore.test.ts:111` ("should reset filters except user location") and the comment at `:119` suggest the position is kept. The assertions at `:125-126` expect the default coordinates back, which agrees with the code.
- The comment at `src/store/promoStore.ts:7` says that null or `''` means no category filter. The selector tests the category and store criteria for truthiness (`:170`, `:174`). So an empty-string criterion is inactive in the selector, and the setters also normalise it to null.

The distance helper treats a coordinate of 0 as missing and returns Infinity (`src/store/promoStore.ts:68`). The model keeps this as written. Under an active distance filter it drops such promotions for every radius (`Selectors.ZeroCoordinateDropped`).

## Model

| member | source | states |
|---|---|---|
| `Geo.GetDistanceKm` | src/store/promoStore.ts:62-68 | the distance is Infinity exactly when some coordinate is zero (falsy); otherwise it is the supplied great-circle distance |
| `PromoState.AllFetched` | src/store/promoStore.ts:98-102 | the three calls succeed together exactly when each resolves, and then yield the three results unchanged; one rejection fails the whole load |
| `PromoState.NormalizeId` | src/store/promoStore.ts:120 | normalising a falsy id gives null exactly for null or the empty string, and is the id itself otherwise |
| `PromoState.InitialStateProperties` | src/store/promoStore.ts:43-57 | the constants `InitialState` and `InitialFilters` hold empty catalog lists, status idle, no error, no notification, no category, store or distance criterion, viewer at (40.4168, -3.7038), and the invariant holds |
| `PromoState.BeginFetchGuard` | src/store/promoStore.ts:93-95 | while loading the action changes nothing; otherwise the status becomes loading, the error is cleared, and no other field changes |
| `PromoState.CompleteFetchSuccess` | src/store/promoStore.ts:103-108 | on success the three lists are exactly the fetched ones and the status is succeeded; no other field changes |
| `PromoState.CompleteFetchFailure` | src/store/promoStore.ts:109-115 | on failure the status is failed, the error is the fixed message and all three catalog lists keep their previous values; no other field changes |
| `PromoState.FetchCycle` | src/store/promoStore.ts:93-115 | a full load from a non-loading state succeeds iff all three calls resolve; success stores their results with no error, failure sets the message and keeps the catalog; filters and notification are untouched |
| `PromoState.IdFiltersChangeOnlyTheirField` | src/store/promoStore.ts:118-128 | the category and store setters store the normalised id in their own field and change nothing else |
| `PromoState.ProximityFilterFrame` | src/store/promoStore.ts:130-139 | the proximity setter overwrites exactly the viewer latitude, longitude and radius, keeping the category and store criteria and every other field |
| `PromoState.ClearFiltersProperties` | src/store/promoStore.ts:141-145 | all five filter fields return to their initial values, the default viewer position included; nothing outside the filters changes; clearing twice equals clearing once |
| `PromoState.TriggerDedupe` | src/store/promoStore.ts:147-155 | a non-special promotion, or one with the id already notified, changes nothing; otherwise the notification becomes the promotion and nothing else changes; triggering twice equals triggering once |
| `PromoState.ClearNotificationProperties` | src/store/promoStore.ts:157-159 | the notification is always cleared and nothing else changes |
| `PromoState.BeginFetch` | src/store/promoStore.ts:93-95 | the guard-and-switch update keeps the invariant; its effect is stated by `PromoState.BeginFetchGuard` |
| `PromoState.CompleteFetch` | src/store/promoStore.ts:103-114 | the update after the await keeps the invariant when applied in the loading state; its effect is stated by `PromoState.CompleteFetchSuccess` and `PromoState.CompleteFetchFailure` |
| `PromoState.SetCategoryFilter` | src/store/promoStore.ts:118-122 | keeps the invariant; its effect is stated by `PromoState.IdFiltersChangeOnlyTheirField` |
| `PromoState.SetStoreFilter` | src/store/promoStore.ts:124-128 | keeps the invariant; its effect is stated by `PromoState.IdFiltersChangeOnlyTheirField` |
| `PromoState.SetProximityFilter` | src/store/promoStore.ts:130-139 | keeps the invariant; its effect is stated by `PromoState.ProximityFilterFrame` |
| `PromoState.ClearFilters` | src/store/promoStore.ts:141-145 | keeps the invariant; its effect is stated by `PromoState.ClearFiltersProperties` |
| `PromoState.TriggerSpecialPromotion` | src/store/promoStore.ts:147-155 | either changes nothing or sets the notification to the given promotion, and only when it is special; keeps the invariant; the full rule is stated by `PromoState.TriggerDedupe` |
| `PromoState.ClearSpecialPromotionNotification` | src/store/promoStore.ts:157-159 | keeps the invariant; its effect is stated by `PromoState.ClearNotificationProperties` |
| `PromoState.ActionsPreserveInvariant` | src/store/promoStore.ts:93-159 | every action keeps the invariant (an error only when failed and equal to the fixed message, none while loading, a present notification is special); the fetch completion from the loading state |
| `Geo.Exceeds` | src/store/promoStore.ts:190 | `distance > maxDistanceKm`: Infinity exceeds every radius, a finite distance exceeds it exactly when it is larger |
| `Selectors.PassesFilters` | src/store/promoStore.ts:168-195 | a promotion passes exactly when it matches an active category, an active store, and is not dropped by the distance rule |
| `Selectors.FilterPromotions` | src/store/promoStore.ts:168-195 | the filtered list is no longer than the catalog and every element passes all active criteria |
| `Selectors.FilterIsSubsequence` | src/store/promoStore.ts:168 | the filtered list is a subsequence of the catalog, in the catalog's order |
| `Selectors.FilterCounts` | src/store/promoStore.ts:168-195 | a passing promotion occurs in the result as often as in the catalog, a failing one never |
| `Selectors.SelectFilteredPromotions` | src/store/promoStore.ts:165-196 | the result is an order-preserving subsequence of `allPromotions` that holds every passing promotion (with its multiplicity) and no other; membership iff in the catalog and passing |
| `Selectors.NoCriteriaKeepsAll` | src/store/promoStore.ts:168-195 | with no truthy category or store and no radius, the whole catalog is returned unchanged |
| `Selectors.InitialFiltersKeepAll` | src/store/promoStore.ts:47-53 | under the initial (or cleared) filters the selector returns `allPromotions` unchanged |
| `Selectors.FilterIdempotent` | src/store/promoStore.ts:165-196 | filtering an already filtered list gives the same list |
| `Selectors.ProximityRule` | src/store/promoStore.ts:177-191 | dropped by distance iff radius, both viewer and both store coordinates are present and either some coordinate is zero or the distance exceeds the radius |
| `Selectors.MissingCoordinatesNeverDropped` | src/store/promoStore.ts:177-183 | a promotion whose store lacks a coordinate passes exactly when its category and store criteria match |
| `Selectors.ZeroCoordinateDropped` | src/store/promoStore.ts:68 | under an active distance filter a zero viewer or store coordinate removes the promotion from the result for every radius |
| `PromoStore.PromoStore.constructor` | src/store/promoStore.ts:43-57 | a new store holds the initial state: empty lists, idle, no error, no notification, no criteria, viewer at (40.4168, -3.7038) |
| `PromoStore.PromoStore.BeginFetch` | src/store/promoStore.ts:93-95 | calls are issued iff the store was not loading; if so the status becomes loading with no error, otherwise the state is unchanged |
| `PromoStore.PromoStore.CompleteFetch` | src/store/promoStore.ts:96-115 | success stores the three lists, status succeeded, no error; failure keeps the lists, status failed, fixed message; the invariant is kept |
| `PromoStore.PromoStore.SetCategoryFilter` | src/store/promoStore.ts:118-122 | the new state is the old one with the normalised category id; the invariant is kept |
| `PromoStore.PromoStore.SetStoreFilter` | src/store/promoStore.ts:124-128 | the new state is the old one with the normalised store id; the invariant is kept |
| `PromoStore.PromoStore.SetProximityFilter` | src/store/promoStore.ts:130-139 | the new state is the old one with the viewer position and radius replaced; the invariant is kept |
| `PromoStore.PromoStore.ClearFilters` | src/store/promoStore.ts:141-145 | the new state is the old one with the initial filter record; the invariant is kept |
| `PromoStore.PromoStore.TriggerSpecialPromotion` | src/store/promoStore.ts:147-155 | the new state follows the dedupe rule; the invariant (notification is special) is kept |
| `PromoStore.PromoStore.ClearSpecialPromotionNotification` | src/store/promoStore.ts:157-159 | the notification becomes null and nothing else changes |
| `Scenarios.CategoryAndStoreScenario` | src/store/promoStore.test.ts:139-152 | with category cat-1 and store store-1 the four mock promotions filter to exactly p1 and p3, in order |
| `Scenarios.PartialRejectionScenario` | src/store/promoStore.test.ts:67-75 | from the initial state, a load in which the promotions call rejects (as in the test), or the categories or the stores call, ends failed with the fixed message and an empty catalog |
| `Scenarios.EmptyStringScenario` | src/store/promoStore.ts:118-128 | an empty-string category or store id is stored as null |
| `Scenarios.ProximityScenario` | src/store/promoStore.ts:177-191 | a viewer at store A with a 50 km radius keeps A's promotion and drops store B's, for any distance function that puts A at 0 km from itself and B more than 50 km away |

## Left out

- Haversine trigonometry (`src/store/promoStore.ts:70-86`, with `deg2rad`): floating-point numerics. The great-circle distance is a caller-supplied `Haversine` function; only the zero guard is modelled.
- JavaScript number semantics: numbers are Dafny `real`s. The model has no rounding, no NaN (NaN is also falsy, so the guard at `src/store/promoStore.ts:68` returns Infinity for it) and no infinite radius.
- Geo.GetDistanceKm: says nothing about the computed value beyond its being the supplied distance (no non-negativity or symmetry), because the trigonometry is not modelled.
- The `Promise.all` fan-out, the suspension at `await` and `console.error` (`src/store/promoStore.ts:98-110`): concurrency and logging. The combined outcome is an input to `CompleteFetch`, built by `AllFetched`.
- PromoStore.PromoStore.CompleteFetch: requires the loading status, because it models only the continuation of a `BeginFetch` that returned true. No other action leaves `Loading`, so this always holds in the source.
- The zustand `create`/`set`/`get` machinery and subscriptions (`src/store/promoStore.ts:1`, `89`): a library. It is replaced by the class fields. Direct `setState` calls, as the tests use, are outside the action interface and are not modelled.
- `src/services/api.ts`: the mock data source behind `setTimeout` latency. Its results are inputs.
- The presentation components and `src/App.tsx`: UI rendering. This includes FilterPanel's `parseInt`/`> 0` distance sanitising, the `useMemo` caching of the selector, and PromotionCard's date formatting.
- Test and build configuration files; they are evidence only.

/**
 * The state record of the promotion store and its actions as pure updaters:
 * each function computes the state that the action's `set` call produces.
 * The store class in module PromoStore applies them to its fields.
 */
module PromoState {
  import opened Types

  datatype LoadingStatus = Idle | Loading | Succeeded | Failed

  /** Filter criteria; None on categoryId, storeId or maxDistanceKm means "no constraint". */
  datatype Filters = Filters(
    categoryId: Option<string>,
    storeId: Option<string>,
    maxDistanceKm: Option<real>,
    userLatitude: Option<real>,
    userLongitude: Option<real>)

  datatype State = State(
    allPromotions: seq<Promotion>,
    categories: seq<Category>,
    stores: seq<Store>,
    filters: Filters,
    loadingStatus: LoadingStatus,
    error: Option<string>,
    specialPromotionNotification: Option<Promotion>)

  /** The simulated viewer position the store starts with (Madrid centre). */
  const DefaultUserLatitude: real := 40.4168
  const DefaultUserLongitude: real := -3.7038

  /** The one user-facing error message of a failed initial load. */
  const LoadErrorMessage: string := "No se pudieron cargar los datos iniciales."

  const InitialFilters: Filters :=
    Filters(None, None, None, Some(DefaultUserLatitude), Some(DefaultUserLongitude))

  const InitialState: State :=
    State([], [], [], InitialFilters, Idle, None, None)

  /** How one of the three data-source calls settled. The rejection reason is only logged. */
  datatype Settled<T> = Resolved(value: T) | Rejected

  /** The combined outcome of the three calls awaited together. */
  datatype FetchOutcome =
    | Fetched(promotions: seq<Promotion>, categories: seq<Category>, stores: seq<Store>)
    | FetchFailed

  /** `Promise.all` over the three calls: all results when every call resolves, otherwise failure. */
  function AllFetched(promotions: Settled<seq<Promotion>>, categories: Settled<seq<Category>>,
                      stores: Settled<seq<Store>>): (o: FetchOutcome)
    ensures o.Fetched? <==> promotions.Resolved? && categories.Resolved? && stores.Resolved?
    ensures o.Fetched? ==>
      o.promotions == promotions.value && o.categories == categories.value && o.stores == stores.value
  {
    match (promotions, categories, stores)
    case (Resolved(p), Resolved(c), Resolved(s)) => Fetched(p, c, s)
    case _ => FetchFailed
  }

  /**
   * The state properties every action keeps. An error is present only once a load has failed,
   * so in particular there is none while loading.
   */
  ghost predicate Invariant(s: State) {
    && (s.error.Some? ==> s.loadingStatus == Failed && s.error == Some(LoadErrorMessage))
    && (s.specialPromotionNotification.Some? ==> IsSpecial(s.specialPromotionNotification.value))
  }

  /** `id || null`: the empty string, the only falsy string, is stored as null. */
  function NormalizeId(id: Option<string>): (r: Option<string>)
    ensures r.None? <==> (id.None? || id == Some(""))
    ensures r.Some? ==> r == id && r.value != ""
  {
    if id == Some("") then None else id
  }

  // ---- The actions ----

  /** fetchInitialData up to the await: a no-op while loading, else switch to loading. */
  function BeginFetch(s: State): (r: State)
    ensures Invariant(s) ==> Invariant(r)
  {
    if s.loadingStatus == Loading then s
    else s.(loadingStatus := Loading, error := None)
  }

  /** fetchInitialData after the await, given how the three calls settled together. */
  function CompleteFetch(s: State, outcome: FetchOutcome): (r: State)
    ensures Invariant(s) && s.loadingStatus == Loading ==> Invariant(r)
  {
    match outcome
    case Fetched(promotions, categories, stores) =>
      s.(allPromotions := promotions, categories := categories, stores := stores, loadingStatus := Succeeded)
    case FetchFailed =>
      s.(loadingStatus := Failed, error := Some(LoadErrorMessage))
  }

  function SetCategoryFilter(s: State, categoryId: Option<string>): (r: State)
    ensures Invariant(s) ==> Invariant(r)
  {
    s.(filters := s.filters.(categoryId := NormalizeId(categoryId)))
  }

  function SetStoreFilter(s: State, storeId: Option<string>): (r: State)
    ensures Invariant(s) ==> Invariant(r)
  {
    s.(filters := s.filters.(storeId := NormalizeId(storeId)))
  }

  function SetProximityFilter(s: State, userLat: real, userLon: real, maxDistance: Option<real>): (r: State)
    ensures Invariant(s) ==> Invariant(r)
  {
    s.(filters := s.filters.(userLatitude := Some(userLat), userLongitude := Some(userLon),
                             maxDistanceKm := maxDistance))
  }

  /** Copies the whole initial filter record, the default user location included. */
  function ClearFilters(s: State): (r: State)
    ensures Invariant(s) ==> Invariant(r)
  {
    s.(filters := InitialFilters)
  }

  function TriggerSpecialPromotion(s: State, promotion: Promotion): (r: State)
    ensures Invariant(s) ==> Invariant(r)
    ensures r == s || (IsSpecial(promotion) && r == s.(specialPromotionNotification := Some(promotion)))
  {
    if IsSpecial(promotion)
       && (s.specialPromotionNotification.None? || s.specialPromotionNotification.value.id != promotion.id)
    then s.(specialPromotionNotification := Some(promotion))
    else s
  }

  function ClearSpecialPromotionNotification(s: State): (r: State)
    ensures Invariant(s) ==> Invariant(r)
  {
    s.(specialPromotionNotification := None)
  }

  // ---- Properties of the actions ----

  lemma InitialStateProperties()
    ensures InitialState.allPromotions == [] && InitialState.categories == [] && InitialState.stores == []
    ensures InitialState.loadingStatus == Idle && InitialState.error.None?
    ensures InitialState.specialPromotionNotification.None?
    ensures InitialState.filters.categoryId.None? && InitialState.filters.storeId.None?
    ensures InitialState.filters.maxDistanceKm.None?
    ensures InitialState.filters.userLatitude == Some(40.4168)
    ensures InitialState.filters.userLongitude == Some(-3.7038)
    ensures Invariant(InitialState)
  {
  }

  /** The re-entrancy guard, and otherwise only status and error change. */
  lemma BeginFetchGuard(s: State)
    ensures s.loadingStatus == Loading ==> BeginFetch(s) == s
    ensures s.loadingStatus != Loading ==>
      && BeginFetch(s).loadingStatus == Loading
      && BeginFetch(s).error.None?
      && BeginFetch(s).(loadingStatus := s.loadingStatus, error := s.error) == s
  {
  }

  /** A successful load stores the three lists verbatim; nothing but them and the status changes. */
  lemma CompleteFetchSuccess(s: State, promotions: seq<Promotion>, categories: seq<Category>, stores: seq<Store>)
    ensures var r := CompleteFetch(s, Fetched(promotions, categories, stores));
      && r.allPromotions == promotions && r.categories == categories && r.stores == stores
      && r.loadingStatus == Succeeded
      && r.(allPromotions := s.allPromotions, categories := s.categories, stores := s.stores,
            loadingStatus := s.loadingStatus) == s
  {
  }

  /** A failed load sets the fixed message and keeps every catalog list. */
  lemma CompleteFetchFailure(s: State)
    ensures var r := CompleteFetch(s, FetchFailed);
      && r.loadingStatus == Failed && r.error == Some(LoadErrorMessage)
      && r.allPromotions == s.allPromotions && r.categories == s.categories && r.stores == s.stores
      && r.(loadingStatus := s.loadingStatus, error := s.error) == s
  {
  }

  /**
   * A whole load cycle from a state that is not loading: it succeeds exactly when all three calls
   * resolve, then holds their results and no error; otherwise it fails without touching the catalog.
   */
  lemma FetchCycle(s: State, promotions: Settled<seq<Promotion>>, categories: Settled<seq<Category>>,
                   stores: Settled<seq<Store>>)
    requires s.loadingStatus != Loading
    ensures var r := CompleteFetch(BeginFetch(s), AllFetched(promotions, categories, stores));
      && (r.loadingStatus == Succeeded <==> promotions.Resolved? && categories.Resolved? && stores.Resolved?)
      && (r.loadingStatus == Succeeded ==>
            && r.allPromotions == promotions.value && r.categories == categories.value
            && r.stores == stores.value && r.error.None?)
      && (r.loadingStatus != Succeeded ==>
            && r.loadingStatus == Failed && r.error == Some(LoadErrorMessage)
            && r.allPromotions == s.allPromotions && r.categories == s.categories && r.stores == s.stores)
      && r.filters == s.filters && r.specialPromotionNotification == s.specialPromotionNotification
  {
  }

  /** Each id setter stores the normalised id and changes nothing else. */
  lemma IdFiltersChangeOnlyTheirField(s: State, id: Option<string>)
    ensures SetCategoryFilter(s, id).filters.categoryId == NormalizeId(id)
    ensures SetCategoryFilter(s, id).filters.(categoryId := s.filters.categoryId) == s.filters
    ensures SetCategoryFilter(s, id).(filters := s.filters) == s
    ensures SetStoreFilter(s, id).filters.storeId == NormalizeId(id)
    ensures SetStoreFilter(s, id).filters.(storeId := s.filters.storeId) == s.filters
    ensures SetStoreFilter(s, id).(filters := s.filters) == s
  {
  }

  /** The proximity setter overwrites the location and the radius, and nothing else. */
  lemma ProximityFilterFrame(s: State, userLat: real, userLon: real, maxDistance: Option<real>)
    ensures var r := SetProximityFilter(s, userLat, userLon, maxDistance);
      && r.filters.userLatitude == Some(userLat) && r.filters.userLongitude == Some(userLon)
      && r.filters.maxDistanceKm == maxDistance
      && r.filters.categoryId == s.filters.categoryId && r.filters.storeId == s.filters.storeId
      && r.(filters := s.filters) == s
  {
  }

  /** Clearing resets all five filter fields, the location to the default, touches nothing else, and is idempotent. */
  lemma ClearFiltersProperties(s: State)
    ensures var r := ClearFilters(s);
      && r.filters.categoryId.None? && r.filters.storeId.None? && r.filters.maxDistanceKm.None?
      && r.filters.userLatitude == Some(DefaultUserLatitude)
      && r.filters.userLongitude == Some(DefaultUserLongitude)
      && r.(filters := s.filters) == s
      && ClearFilters(r) == r
  {
  }

  /** The notification dedupe rule. */
  lemma TriggerDedupe(s: State, p: Promotion)
    ensures !IsSpecial(p) ==> TriggerSpecialPromotion(s, p) == s
    ensures s.specialPromotionNotification.Some? && s.specialPromotionNotification.value.id == p.id ==>
      TriggerSpecialPromotion(s, p) == s
    ensures IsSpecial(p) && (s.specialPromotionNotification.None? || s.specialPromotionNotification.value.id != p.id) ==>
      TriggerSpecialPromotion(s, p) == s.(specialPromotionNotification := Some(p))
    ensures TriggerSpecialPromotion(TriggerSpecialPromotion(s, p), p) == TriggerSpecialPromotion(s, p)
  {
  }

  lemma ClearNotificationProperties(s: State)
    ensures ClearSpecialPromotionNotification(s).specialPromotionNotification.None?
    ensures ClearSpecialPromotionNotification(s).(specialPromotionNotification := s.specialPromotionNotification) == s
  {
  }

  /** Every action keeps the invariant; the completion runs only after BeginFetch switched to loading. */
  lemma ActionsPreserveInvariant(s: State, id: Option<string>, lat: real, lon: real, d: Option<real>,
                                 p: Promotion, outcome: FetchOutcome)
    requires Invariant(s)
    ensures Invariant(BeginFetch(s))
    ensures s.loadingStatus == Loading ==> Invariant(CompleteFetch(s, outcome))
    ensures Invariant(SetCategoryFilter(s, id)) && Invariant(SetStoreFilter(s, id))
    ensures Invariant(SetProximityFilter(s, lat, lon, d)) && Invariant(ClearFilters(s))
    ensures Invariant(TriggerSpecialPromotion(s, p)) && Invariant(ClearSpecialPromotionNotification(s))
  {
  }
}

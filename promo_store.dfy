/**
 * The promotion store: one object whose fields are the state record and whose methods are the
 * seven actions. fetchInitialData is split at its await into BeginFetch and CompleteFetch.
 */
module PromoStore {
  import opened Types
  import PromoState

  class PromoStore {
    var allPromotions: seq<Promotion>
    var categories: seq<Category>
    var stores: seq<Store>
    var filters: PromoState.Filters
    var loadingStatus: PromoState.LoadingStatus
    var error: Option<string>
    var specialPromotionNotification: Option<Promotion>

    /** The fields as one state record. */
    function State(): PromoState.State
      reads this
    {
      PromoState.State(allPromotions, categories, stores, filters, loadingStatus, error,
                       specialPromotionNotification)
    }

    ghost predicate Valid()
      reads this
    {
      PromoState.Invariant(State())
    }

    /** The store starts from the initial state. */
    constructor ()
      ensures Valid() && State() == PromoState.InitialState
      ensures allPromotions == [] && categories == [] && stores == []
      ensures loadingStatus == PromoState.Idle && error == None && specialPromotionNotification == None
      ensures filters == PromoState.Filters(None, None, None, Some(40.4168), Some(-3.7038))
    {
      allPromotions, categories, stores := [], [], [];
      filters := PromoState.InitialFilters;
      loadingStatus, error, specialPromotionNotification := PromoState.Idle, None, None;
    }

    /**
     * fetchInitialData up to the await. `started` is false when a load is already in flight:
     * then nothing changes and no data-source call is issued.
     */
    method BeginFetch() returns (started: bool)
      requires Valid()
      modifies this
      ensures Valid()
      ensures started <==> old(loadingStatus) != PromoState.Loading
      ensures State() == PromoState.BeginFetch(old(State()))
      ensures started ==> loadingStatus == PromoState.Loading && error == None
      ensures !started ==> State() == old(State())
    {
      if loadingStatus == PromoState.Loading {
        return false;
      }
      loadingStatus, error := PromoState.Loading, None;
      started := true;
    }

    /** fetchInitialData after the await: the continuation of a BeginFetch that returned true. */
    method CompleteFetch(outcome: PromoState.FetchOutcome)
      requires Valid() && loadingStatus == PromoState.Loading
      modifies this
      ensures Valid()
      ensures State() == PromoState.CompleteFetch(old(State()), outcome)
      ensures outcome.Fetched? ==>
        && allPromotions == outcome.promotions && categories == outcome.categories && stores == outcome.stores
        && loadingStatus == PromoState.Succeeded && error == None
      ensures outcome.FetchFailed? ==>
        && allPromotions == old(allPromotions) && categories == old(categories) && stores == old(stores)
        && loadingStatus == PromoState.Failed && error == Some(PromoState.LoadErrorMessage)
    {
      match outcome
      case Fetched(promotions, cats, storeList) =>
        allPromotions, categories, stores := promotions, cats, storeList;
        loadingStatus := PromoState.Succeeded;
      case FetchFailed =>
        loadingStatus, error := PromoState.Failed, Some(PromoState.LoadErrorMessage);
    }

    method SetCategoryFilter(categoryId: Option<string>)
      requires Valid()
      modifies this
      ensures Valid()
      ensures State() == PromoState.SetCategoryFilter(old(State()), categoryId)
    {
      filters := filters.(categoryId := PromoState.NormalizeId(categoryId));
    }

    method SetStoreFilter(storeId: Option<string>)
      requires Valid()
      modifies this
      ensures Valid()
      ensures State() == PromoState.SetStoreFilter(old(State()), storeId)
    {
      filters := filters.(storeId := PromoState.NormalizeId(storeId));
    }

    method SetProximityFilter(userLat: real, userLon: real, maxDistance: Option<real>)
      requires Valid()
      modifies this
      ensures Valid()
      ensures State() == PromoState.SetProximityFilter(old(State()), userLat, userLon, maxDistance)
    {
      filters := filters.(userLatitude := Some(userLat), userLongitude := Some(userLon),
                          maxDistanceKm := maxDistance);
    }

    method ClearFilters()
      requires Valid()
      modifies this
      ensures Valid()
      ensures State() == PromoState.ClearFilters(old(State()))
    {
      filters := PromoState.InitialFilters;
    }

    method TriggerSpecialPromotion(promotion: Promotion)
      requires Valid()
      modifies this
      ensures Valid()
      ensures State() == PromoState.TriggerSpecialPromotion(old(State()), promotion)
    {
      if IsSpecial(promotion)
         && (specialPromotionNotification.None? || specialPromotionNotification.value.id != promotion.id)
      {
        specialPromotionNotification := Some(promotion);
      }
    }

    method ClearSpecialPromotionNotification()
      requires Valid()
      modifies this
      ensures Valid()
      ensures State() == PromoState.ClearSpecialPromotionNotification(old(State()))
    {
      specialPromotionNotification := None;
    }
  }
}

/**
 * Scenarios from the store's tests, plus worked examples of the proximity rule and of the
 * empty-id normalisation.
 */
module Scenarios {
  import opened Types
  import opened Geo
  import opened PromoState
  import opened Selectors
  import PromoStore

  const Electronics := Category("cat-1", "Electrónica")
  const Fashion := Category("cat-2", "Moda")
  const ShopA := Store("store-1", "Tienda A", Some(10.0), Some(10.0))
  const ShopB := Store("store-2", "Tienda B", Some(10.1), Some(10.1))
  const ShopC := Store("store-3", "Tienda C", Some(20.0), Some(20.0))

  function MockPromotion(id: string, title: string, store: Store, category: Category, special: bool): Promotion {
    Promotion(id, title, "Desc", store, category, "", None, None, None, Some(special))
  }

  const Promo1 := MockPromotion("p1", "Promo Elec", ShopA, Electronics, false)
  const Promo2 := MockPromotion("p2", "Promo Moda", ShopB, Fashion, false)
  const Promo3 := MockPromotion("p3", "Promo Elec Especial", ShopA, Electronics, true)
  const Promo4 := MockPromotion("p4", "Promo Lejos", ShopC, Electronics, false)
  const MockPromotions := [Promo1, Promo2, Promo3, Promo4]

  /** Category cat-1 and store store-1 leave exactly p1 and p3, in catalog order. */
  lemma CategoryAndStoreScenario(h: Haversine)
    ensures var s := InitialState.(allPromotions := MockPromotions,
                                   filters := InitialFilters.(categoryId := Some("cat-1"), storeId := Some("store-1")));
      SelectFilteredPromotions(s, h) == [Promo1, Promo3]
  {
    var f := InitialFilters.(categoryId := Some("cat-1"), storeId := Some("store-1"));
    assert PassesFilters(f, Promo1, h) && !PassesFilters(f, Promo2, h);
    assert PassesFilters(f, Promo3, h) && !PassesFilters(f, Promo4, h);
    var all := MockPromotions;
    assert FilterPromotions(all[3..], f, h) == [];
    assert FilterPromotions(all[2..], f, h) == [Promo3];
    assert FilterPromotions(all[1..], f, h) == [Promo3];
    assert FilterPromotions(all, f, h) == [Promo1, Promo3];
  }

  /**
   * A load from the initial state in which any one of the three calls rejects (the promotions call,
   * as in the store's failure test, or either other one) fails with the fixed message and leaves
   * the catalog empty.
   */
  lemma PartialRejectionScenario(promotions: seq<Promotion>, categories: seq<Category>, stores: seq<Store>)
    ensures var r := CompleteFetch(BeginFetch(InitialState), AllFetched(Rejected, Resolved(categories), Resolved(stores)));
      r.loadingStatus == Failed && r.error == Some(LoadErrorMessage) && r.allPromotions == []
    ensures var r := CompleteFetch(BeginFetch(InitialState), AllFetched(Resolved(promotions), Rejected, Resolved(stores)));
      r.loadingStatus == Failed && r.error == Some(LoadErrorMessage) && r.allPromotions == []
    ensures var r := CompleteFetch(BeginFetch(InitialState), AllFetched(Resolved(promotions), Resolved(categories), Rejected));
      r.loadingStatus == Failed && r.error == Some(LoadErrorMessage) && r.allPromotions == []
  {
  }

  /** Empty-string ids are stored as null. */
  lemma EmptyStringScenario(s: State)
    ensures SetCategoryFilter(s, Some("")).filters.categoryId.None?
    ensures SetStoreFilter(s, Some("")).filters.storeId.None?
  {
  }

  /**
   * A viewer at store A with a 50 km radius keeps A's promotion and drops the one at store B,
   * given any distance function that puts A at 0 km from itself and B more than 50 km away.
   */
  lemma ProximityScenario(h: Haversine, pa: Promotion, pb: Promotion)
    requires h(40.0, -3.0, 40.0, -3.0) == 0.0 && h(40.0, -3.0, 41.0, 2.0) > 50.0
    requires pa.store.latitude == Some(40.0) && pa.store.longitude == Some(-3.0)
    requires pb.store.latitude == Some(41.0) && pb.store.longitude == Some(2.0)
    ensures var s := InitialState.(allPromotions := [pa, pb],
                                   filters := Filters(None, None, Some(50.0), Some(40.0), Some(-3.0)));
      SelectFilteredPromotions(s, h) == [pa]
  {
  }

  /** The class's contracts are enough to follow the clear-filters and notification tests. */
  method StoreClient()
  {
    var store := new PromoStore.PromoStore();
    store.SetCategoryFilter(Some("cat-1"));
    store.SetStoreFilter(Some("store-1"));
    store.SetProximityFilter(100.0, -3.0, Some(20.0));
    store.ClearFilters();
    assert store.filters == InitialFilters;
    assert store.filters.userLatitude == Some(40.4168);

    store.TriggerSpecialPromotion(Promo3);
    assert store.specialPromotionNotification == Some(Promo3);
    store.TriggerSpecialPromotion(Promo1);
    assert store.specialPromotionNotification == Some(Promo3);
    store.ClearSpecialPromotionNotification();
    assert store.specialPromotionNotification == None;

    var started := store.BeginFetch();
    assert started;
    var again := store.BeginFetch();
    assert !again;
    store.CompleteFetch(AllFetched(Rejected, Resolved([Electronics]), Resolved([ShopA])));
    assert store.loadingStatus == Failed && store.allPromotions == [];
  }
}

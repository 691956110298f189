/** selectFilteredPromotions: the order-preserving filter of the catalog by the current criteria. */
module Selectors {
  import opened Types
  import opened Geo
  import opened PromoState

  /** An id criterion is truthy: present and not the empty string. */
  predicate IdFilterActive(id: Option<string>) {
    id.Some? && id.value != ""
  }

  predicate CategoryMatches(f: Filters, p: Promotion) {
    !IdFilterActive(f.categoryId) || p.category.id == f.categoryId.value
  }

  predicate StoreMatches(f: Filters, p: Promotion) {
    !IdFilterActive(f.storeId) || p.store.id == f.storeId.value
  }

  /** The radius, both user coordinates and both store coordinates are all present. */
  predicate DistanceFilterApplies(f: Filters, s: Store) {
    f.maxDistanceKm.Some? && f.userLatitude.Some? && f.userLongitude.Some? && s.latitude.Some? && s.longitude.Some?
  }

  predicate DroppedByDistance(f: Filters, s: Store, h: Haversine) {
    && DistanceFilterApplies(f, s)
    && Exceeds(GetDistanceKm(h, f.userLatitude.value, f.userLongitude.value, s.latitude.value, s.longitude.value),
               f.maxDistanceKm.value)
  }

  /** The callback given to Array.filter, with its early returns in the source's order. */
  predicate PassesFilters(f: Filters, p: Promotion, h: Haversine)
    ensures PassesFilters(f, p, h) <==>
      CategoryMatches(f, p) && StoreMatches(f, p) && !DroppedByDistance(f, p.store, h)
  {
    if IdFilterActive(f.categoryId) && p.category.id != f.categoryId.value then false
    else if IdFilterActive(f.storeId) && p.store.id != f.storeId.value then false
    else if f.maxDistanceKm.Some? && f.userLatitude.Some? && f.userLongitude.Some?
            && p.store.latitude.Some? && p.store.longitude.Some? then
      var distance := GetDistanceKm(h, f.userLatitude.value, f.userLongitude.value,
                                    p.store.latitude.value, p.store.longitude.value);
      !Exceeds(distance, f.maxDistanceKm.value)
    else true
  }

  /** `all.filter(...)` written as recursion over the list. */
  function FilterPromotions(all: seq<Promotion>, f: Filters, h: Haversine): (r: seq<Promotion>)
    ensures |r| <= |all|
    ensures forall k :: 0 <= k < |r| ==> PassesFilters(f, r[k], h)
  {
    if all == [] then []
    else (if PassesFilters(f, all[0], h) then [all[0]] else []) + FilterPromotions(all[1..], f, h)
  }

  /** r can be obtained from s by deleting elements, without reordering. */
  ghost predicate IsSubsequence<T>(r: seq<T>, s: seq<T>)
    decreases |s|
  {
    if r == [] then true
    else if s == [] then false
    else (r[0] == s[0] && IsSubsequence(r[1..], s[1..])) || IsSubsequence(r, s[1..])
  }

  lemma {:induction false} FilterIsSubsequence(all: seq<Promotion>, f: Filters, h: Haversine)
    ensures IsSubsequence(FilterPromotions(all, f, h), all)
  {
    if all != [] {
      FilterIsSubsequence(all[1..], f, h);
      var r := FilterPromotions(all, f, h);
      if PassesFilters(f, all[0], h) {
        assert r[0] == all[0] && r[1..] == FilterPromotions(all[1..], f, h);
      } else {
        assert r == FilterPromotions(all[1..], f, h);
      }
    }
  }

  /** A promotion that passes occurs in the result exactly as often as in the catalog; one that fails never. */
  lemma {:induction false} FilterCounts(all: seq<Promotion>, f: Filters, h: Haversine, p: Promotion)
    ensures multiset(FilterPromotions(all, f, h))[p] == if PassesFilters(f, p, h) then multiset(all)[p] else 0
  {
    if all != [] {
      FilterCounts(all[1..], f, h, p);
      assert all == [all[0]] + all[1..];
    }
  }

  /**
   * selectFilteredPromotions: a subsequence of the catalog, in its order, that holds every promotion
   * passing all active criteria (as often as the catalog does) and no other.
   */
  function SelectFilteredPromotions(s: State, h: Haversine): (r: seq<Promotion>)
    ensures IsSubsequence(r, s.allPromotions)
    ensures forall p :: multiset(r)[p] == if PassesFilters(s.filters, p, h) then multiset(s.allPromotions)[p] else 0
    ensures forall p :: p in r <==> p in s.allPromotions && PassesFilters(s.filters, p, h)
  {
    var r := FilterPromotions(s.allPromotions, s.filters, h);
    FilterIsSubsequence(s.allPromotions, s.filters, h);
    FilterCountsAll(s.allPromotions, s.filters, h);
    r
  }

  lemma FilterCountsAll(all: seq<Promotion>, f: Filters, h: Haversine)
    ensures forall p :: multiset(FilterPromotions(all, f, h))[p] == if PassesFilters(f, p, h) then multiset(all)[p] else 0
  {
    forall p {
      FilterCounts(all, f, h, p);
    }
  }

  /** With no active criterion the whole catalog is returned unchanged. */
  lemma {:induction false} NoCriteriaKeepsAll(all: seq<Promotion>, f: Filters, h: Haversine)
    requires !IdFilterActive(f.categoryId) && !IdFilterActive(f.storeId) && f.maxDistanceKm.None?
    ensures FilterPromotions(all, f, h) == all
  {
    if all != [] {
      NoCriteriaKeepsAll(all[1..], f, h);
    }
  }

  lemma InitialFiltersKeepAll(s: State, h: Haversine)
    requires s.filters == InitialFilters
    ensures SelectFilteredPromotions(s, h) == s.allPromotions
  {
    NoCriteriaKeepsAll(s.allPromotions, s.filters, h);
  }

  /** Filtering an already filtered list changes nothing. */
  lemma {:induction false} FilterIdempotent(all: seq<Promotion>, f: Filters, h: Haversine)
    ensures FilterPromotions(FilterPromotions(all, f, h), f, h) == FilterPromotions(all, f, h)
  {
    if all != [] {
      var rest := FilterPromotions(all[1..], f, h);
      FilterIdempotent(all[1..], f, h);
      if PassesFilters(f, all[0], h) {
        var r := [all[0]] + rest;
        assert r[0] == all[0] && r[1..] == rest;
        assert FilterPromotions(r, f, h) == [all[0]] + FilterPromotions(rest, f, h);
      } else {
        assert FilterPromotions(all, f, h) == [] + rest == rest;
      }
    }
  }

  /**
   * The proximity rule in terms of coordinates: a promotion is dropped by distance exactly when all
   * five values are present and a coordinate is zero or the distance exceeds the radius.
   */
  lemma ProximityRule(f: Filters, s: Store, h: Haversine)
    ensures DroppedByDistance(f, s, h) <==>
      && f.maxDistanceKm.Some? && f.userLatitude.Some? && f.userLongitude.Some?
      && s.latitude.Some? && s.longitude.Some?
      && (|| f.userLatitude.value == 0.0 || f.userLongitude.value == 0.0
          || s.latitude.value == 0.0 || s.longitude.value == 0.0
          || h(f.userLatitude.value, f.userLongitude.value, s.latitude.value, s.longitude.value) > f.maxDistanceKm.value)
  {
  }

  /** A store without coordinates is never dropped by distance. */
  lemma MissingCoordinatesNeverDropped(f: Filters, p: Promotion, h: Haversine)
    requires p.store.latitude.None? || p.store.longitude.None?
    ensures PassesFilters(f, p, h) <==> CategoryMatches(f, p) && StoreMatches(f, p)
  {
  }

  /** Under an active distance filter a zero coordinate drops the promotion, whatever the radius. */
  lemma ZeroCoordinateDropped(s: State, p: Promotion, h: Haversine)
    requires DistanceFilterApplies(s.filters, p.store)
    requires s.filters.userLatitude == Some(0.0) || s.filters.userLongitude == Some(0.0)
          || p.store.latitude == Some(0.0) || p.store.longitude == Some(0.0)
    ensures p !in SelectFilteredPromotions(s, h)
  {
    assert !PassesFilters(s.filters, p, h);
  }
}

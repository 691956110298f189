/** The distance helper of the store. The haversine arithmetic itself is a parameter. */
module Geo {

  /** Great-circle distance in km between (lat1, lon1) and (lat2, lon2), supplied by the caller. */
  type Haversine = (real, real, real, real) -> real

  /** A distance in km, or the source's `Infinity` ("cannot calculate"). */
  datatype Distance = Infinite | Finite(km: real)

  /** getDistanceKm: any falsy (zero) coordinate means the distance cannot be computed. */
  function GetDistanceKm(haversine: Haversine, lat1: real, lon1: real, lat2: real, lon2: real): (d: Distance)
    ensures d.Infinite? <==> (lat1 == 0.0 || lon1 == 0.0 || lat2 == 0.0 || lon2 == 0.0)
    ensures d.Finite? ==> d.km == haversine(lat1, lon1, lat2, lon2)
  {
    if lat1 == 0.0 || lon1 == 0.0 || lat2 == 0.0 || lon2 == 0.0 then Infinite
    else Finite(haversine(lat1, lon1, lat2, lon2))
  }

  /** The comparison `distance > max`, where Infinity exceeds every finite maximum. */
  predicate Exceeds(d: Distance, max: real)
    ensures d.Infinite? ==> Exceeds(d, max)
    ensures d.Finite? ==> (Exceeds(d, max) <==> d.km > max)
  {
    d.Infinite? || d.km > max
  }
}

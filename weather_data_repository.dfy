/** Stored weather snapshots and the repository's "latest recent snapshot for a
    city" query. */
module WeatherStorage {
  import opened Wrappers

  /** A stored snapshot of the provider's current conditions; `forecastTime` is the
      provider's observation time in seconds. */
  datatype WeatherData = WeatherData(city: string, temperature: real, humidity: int,
                                     description: string, forecastTime: int)

  /** A stored snapshot may be reused while it is less than one hour old. */
  const FreshnessWindow := 3600

  /** The query's condition: the same city, observed after `now - 3600`. */
  predicate IsRecentFor(w: WeatherData, city: string, now: int)
  {
    w.city == city && w.forecastTime > now - FreshnessWindow
  }

  /** The recent snapshot of `city` with the latest `forecastTime`, or None. Among
      equally late snapshots the first in table order is chosen. */
  function FindLatestForCity(rows: seq<WeatherData>, city: string, now: int): (r: Option<WeatherData>)
    ensures r.Some? ==> r.value in rows && IsRecentFor(r.value, city, now)
    ensures r.Some? ==> forall w :: w in rows && IsRecentFor(w, city, now) ==> w.forecastTime <= r.value.forecastTime
    ensures r.None? <==> forall w :: w in rows ==> !IsRecentFor(w, city, now)
  {
    if rows == [] then None
    else
      var rest := FindLatestForCity(rows[1..], city, now);
      if IsRecentFor(rows[0], city, now) && (rest.None? || rest.value.forecastTime <= rows[0].forecastTime)
      then Some(rows[0])
      else rest
  }
}

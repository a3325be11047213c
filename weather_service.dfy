/** The weather lookup: a 30-minute cache keyed by the normalised city name, in
    front of the stored snapshots (reused while less than an hour old), in front of
    the external weather provider. */
module WeatherLookup {
  import opened Wrappers
  import opened WeatherStorage

  const KeyPrefix := "weather_"
  /** Lifetime of a cache entry, in seconds. */
  const CacheTtl := 1800

  /** Replaces every space by an underscore. */
  function ReplaceSpaces(s: string): (r: string)
    ensures |r| == |s|
    ensures forall i :: 0 <= i < |s| ==> r[i] == (if s[i] == ' ' then '_' else s[i])
  {
    if s == [] then []
    else [if s[0] == ' ' then '_' else s[0]] + ReplaceSpaces(s[1..])
  }

  /** ASCII lower-casing of one character; every other character is kept. */
  function LowerAscii(c: char): (l: char)
  {
    if 'A' <= c <= 'Z' then (c as int - 'A' as int + 'a' as int) as char else c
  }

  /** ASCII lower-casing of a string. */
  function ToLower(s: string): (r: string)
    ensures |r| == |s|
    ensures forall i :: 0 <= i < |s| ==> r[i] == LowerAscii(s[i])
  {
    if s == [] then [] else [LowerAscii(s[0])] + ToLower(s[1..])
  }

  /** The cache key of a city: spaces become underscores, then ASCII lower case. */
  function CacheKey(city: string): (key: string)
    ensures |key| == |KeyPrefix| + |city| && key[..|KeyPrefix|] == KeyPrefix
    ensures forall i :: 0 <= i < |city| ==> key[|KeyPrefix| + i] == KeyChar(city[i])
  {
    KeyPrefix + ToLower(ReplaceSpaces(city))
  }

  /** What a character of the city name contributes to the key. */
  function KeyChar(c: char): (k: char)
  {
    LowerAscii(if c == ' ' then '_' else c)
  }

  /** Two city names that differ only in ASCII letter case and in spaces versus underscores. */
  predicate SameCityName(a: string, b: string)
  {
    |a| == |b| && forall i :: 0 <= i < |a| ==> KeyChar(a[i]) == KeyChar(b[i])
  }

  /** Two cities share a cache key exactly when their names differ only in ASCII
      letter case and in spaces versus underscores. */
  lemma CacheKeyIdentifiesCity(a: string, b: string)
    ensures CacheKey(a) == CacheKey(b) <==> SameCityName(a, b)
  {
    var ka, kb := ToLower(ReplaceSpaces(a)), ToLower(ReplaceSpaces(b));
    assert CacheKey(a) == KeyPrefix + ka && CacheKey(b) == KeyPrefix + kb;
    if CacheKey(a) == CacheKey(b) {
      assert |ka| == |kb|;
      forall i | 0 <= i < |a| ensures KeyChar(a[i]) == KeyChar(b[i]) {
        assert ka[i] == CacheKey(a)[|KeyPrefix| + i];
        assert kb[i] == CacheKey(b)[|KeyPrefix| + i];
      }
    }
    if SameCityName(a, b) {
      assert ka == kb;
    }
  }

  /** Normalising a city name twice gives the same key text as normalising it once. */
  lemma NormalisationIsIdempotent(city: string)
    ensures ToLower(ReplaceSpaces(ToLower(ReplaceSpaces(city)))) == ToLower(ReplaceSpaces(city))
  {
  }

  /** "New York", "new york" and "New_York" all read the one entry "weather_new_york". */
  lemma NewYorkSharesOneKey()
    ensures CacheKey("New York") == CacheKey("new york") == CacheKey("New_York") == "weather_new_york"
  {
    NewYorkSpellingKey("New York");
    NewYorkSpellingKey("new york");
    NewYorkSpellingKey("New_York");
  }

  /** Each of the three spellings of New York has the key "weather_new_york". */
  lemma NewYorkSpellingKey(city: string)
    requires city == "New York" || city == "new york" || city == "New_York"
    ensures CacheKey(city) == "weather_new_york"
  {
    var k := ToLower(ReplaceSpaces(city));
    forall i | 0 <= i < 8 ensures k[i] == "new_york"[i] {
    }
    assert k == "new_york";
    assert KeyPrefix + "new_york" == "weather_new_york";
  }

  /** The provider's current conditions, as its reply carries them; the observation
      time may be missing from the block. */
  datatype Current = Current(tempC: real, humidity: int, conditionText: string, lastUpdatedEpoch: Option<int>)

  /** What the provider answered: the request failed in transport (connection,
      timeout), or a body arrived, from which the error message, the `current` block
      and the presence of the `location` block are read (a body that is not JSON reads
      as none of them). */
  datatype ApiReply =
    | Unreachable(reason: string)
    | Reply(errorMessage: Option<string>, current: Option<Current>, hasLocation: bool)

  /** PHP's empty() on a string that may be missing: null, "" and "0" are empty. */
  predicate IsEmptyText(s: Option<string>)
  {
    s.None? || s.value == "" || s.value == "0"
  }

  const MalformedReply := "malformed weather reply"
  /** The error of building an observation time from the bare "@" string. */
  const MissingEpoch := "failed to parse time string @"

  /** Turns the provider's reply into a snapshot for `city`, or the error that the
      fetch throws. */
  function DecodeReply(city: string, reply: ApiReply): (r: Result<WeatherData>)
    ensures r.Ok? <==>
              (reply.Reply? && IsEmptyText(reply.errorMessage) && reply.current.Some? && reply.hasLocation &&
               reply.current.value.lastUpdatedEpoch.Some?)
    ensures r.Ok? ==> r.value.city == city && r.value.forecastTime == reply.current.value.lastUpdatedEpoch.value
    ensures reply.Reply? && !IsEmptyText(reply.errorMessage) ==> r == Err(reply.errorMessage.value)
    ensures (reply.Reply? && IsEmptyText(reply.errorMessage) && reply.current.Some? && reply.hasLocation &&
             reply.current.value.lastUpdatedEpoch.None?) ==> r == Err(MissingEpoch)
  {
    match reply
    case Unreachable(reason) => Err(reason)
    case Reply(errorMessage, current, hasLocation) =>
      if !IsEmptyText(errorMessage) then Err(errorMessage.value)
      else if current.None? || !hasLocation then Err(MalformedReply)
      else
        var c := current.value;
        if c.lastUpdatedEpoch.None? then Err(MissingEpoch)
        else Ok(WeatherData(city, c.tempC, c.humidity, c.conditionText, c.lastUpdatedEpoch.value))
  }

  /** A cached snapshot and the instant it stops being served. */
  datatype CacheItem = CacheItem(value: WeatherData, expiresAt: int)

  class WeatherService {
    /** The cache, by key. */
    var cache: map<string, CacheItem>
    /** The weather_data table, in table order. */
    var stored: seq<WeatherData>
    /** How many times the provider was asked. */
    var providerCalls: nat

    /** Every cached snapshot is stored under its own city's key. */
    ghost predicate Valid()
      reads this
    {
      forall k :: k in cache ==> CacheKey(cache[k].value.city) == k
    }

    constructor ()
      ensures Valid() && cache == map[] && stored == [] && providerCalls == 0
    {
      cache, stored, providerCalls := map[], [], 0;
    }

    /** Whether the cache serves `key` at time `now`. */
    predicate IsHit(key: string, now: int)
      reads this
    {
      key in cache && now < cache[key].expiresAt
    }

    /** Asks the provider (its answer is `reply`) and stores the snapshot it yields. */
    method FetchWeatherFromApi(city: string, reply: ApiReply) returns (r: Result<WeatherData>)
      modifies this`stored, this`providerCalls
      ensures providerCalls == old(providerCalls) + 1
      ensures r == DecodeReply(city, reply)
      ensures stored == if r.Ok? then old(stored) + [r.value] else old(stored)
    {
      providerCalls := providerCalls + 1;
      r := DecodeReply(city, reply);
      if r.Ok? {
        stored := stored + [r.value];
      }
    }

    /** The weather for `city` at time `now`; `reply` is what the provider would answer.
        Every failure the source catches as an exception yields None. */
    method GetWeatherForCity(city: string, now: int, reply: ApiReply) returns (r: Option<WeatherData>)
      requires Valid()
      modifies this
      ensures Valid()
      ensures r.Some? ==> SameCityName(r.value.city, city)
      // a live cache entry is served and nothing else is consulted
      ensures old(IsHit(CacheKey(city), now)) ==>
                r == Some(old(cache)[CacheKey(city)].value) &&
                cache == old(cache) && stored == old(stored) && providerCalls == old(providerCalls)
      // otherwise a recent stored snapshot is served and cached, without asking the provider
      ensures !old(IsHit(CacheKey(city), now)) && FindLatestForCity(old(stored), city, now).Some? ==>
                r == FindLatestForCity(old(stored), city, now) &&
                cache == old(cache)[CacheKey(city) := CacheItem(r.value, now + CacheTtl)] &&
                stored == old(stored) && providerCalls == old(providerCalls)
      // otherwise the provider is asked once; its snapshot is stored and cached, its failure yields None
      ensures !old(IsHit(CacheKey(city), now)) && FindLatestForCity(old(stored), city, now).None? ==>
                providerCalls == old(providerCalls) + 1 &&
                match DecodeReply(city, reply)
                case Ok(w) =>
                  r == Some(w) && stored == old(stored) + [w] &&
                  cache == old(cache)[CacheKey(city) := CacheItem(w, now + CacheTtl)]
                case Err(_) =>
                  r == None && stored == old(stored) && cache == old(cache)
    {
      var key := CacheKey(city);
      if IsHit(key, now) {
        CacheKeyIdentifiesCity(cache[key].value.city, city);
        return Some(cache[key].value);
      }
      var recent := FindLatestForCity(stored, city, now);
      var value: WeatherData;
      if recent.Some? {
        value := recent.value;
      } else {
        var fetched := FetchWeatherFromApi(city, reply);
        if fetched.Err? {
          return None;
        }
        value := fetched.value;
      }
      cache := cache[key := CacheItem(value, now + CacheTtl)];
      CacheKeyIdentifiesCity(value.city, city);
      return Some(value);
    }
  }
}

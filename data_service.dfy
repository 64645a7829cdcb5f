/**
 * The data service: a cache of fetched JSON with a fifteen-minute
 * freshness window and fallback tables, fixed lookup tables, and the check
 * of the two open-data endpoints.
 *
 * The clock and the network are parameters: `now` is the millisecond time
 * at which a call starts, and an `HttpOutcome` is what the network answers
 * and when. Each call to the service is one atomic step.
 */
module DataService {
  import opened JsArray
  import opened Optional

  /** A JSON value. Numbers are kept as exact decimals; nothing here does
      arithmetic on them. */
  datatype Json =
    | JNull
    | JBool(b: bool)
    | JNum(n: real)
    | JStr(s: string)
    | JArr(items: seq<Json>)
    | JObj(members: seq<(string, Json)>)

  function ElectionRow(recent: real, registered: real, primary: real): Json {
    JObj([("recent_turnout", JNum(recent)), ("registered_voters", JNum(registered)), ("primary_turnout", JNum(primary))])
  }

  function DemographicRow(population: real, age: real, poverty: real, l1: string, l2: string, l3: string, party: string): Json {
    JObj([
      ("population", JNum(population)),
      ("median_age", JNum(age)),
      ("poverty_rate", JNum(poverty)),
      ("languages", JArr([JStr(l1), JStr(l2), JStr(l3)])),
      ("dominant_party", JStr(party))])
  }

  /** The election figures served when the API is unavailable. */
  const FallbackElections: Json := JObj([
    ("Bronx", ElectionRow(19.1, 892000.0, 15.2)),
    ("Brooklyn", ElectionRow(27.5, 1654000.0, 23.1)),
    ("Manhattan", ElectionRow(33.4, 1241000.0, 28.9)),
    ("Queens", ElectionRow(25.0, 1443000.0, 21.7)),
    ("Staten Island", ElectionRow(22.4, 362000.0, 18.8))])

  /** The demographic figures served when the API is unavailable. */
  const FallbackDemographics: Json := JObj([
    ("Bronx", DemographicRow(1472654.0, 34.2, 0.287, "Spanish", "English", "Arabic", "Democratic")),
    ("Brooklyn", DemographicRow(2736074.0, 35.8, 0.189, "English", "Spanish", "Chinese", "Democratic")),
    ("Manhattan", DemographicRow(1694251.0, 36.9, 0.163, "English", "Spanish", "Chinese", "Democratic")),
    ("Queens", DemographicRow(2405464.0, 38.1, 0.123, "English", "Spanish", "Chinese", "Democratic")),
    ("Staten Island", DemographicRow(495747.0, 40.7, 0.108, "English", "Italian", "Spanish", "Republican"))])

  /** The keys of a JSON object, in order. */
  function ObjectKeys(j: Json): seq<string>
    requires j.JObj?
  {
    MapSeq(j.members, (m: (string, Json)) => m.0)
  }

  /** Both fallback tables have one row per borough, in the same order. */
  lemma FallbackTablesCoverBoroughs()
    ensures ObjectKeys(FallbackElections) == ["Bronx", "Brooklyn", "Manhattan", "Queens", "Staten Island"]
    ensures ObjectKeys(FallbackDemographics) == ObjectKeys(FallbackElections)
  {
  }

  /** A JSON array with at least one element. */
  predicate IsNonEmptyArray(j: Json) {
    j.JArr? && |j.items| > 0
  }

  /** The election transformer. Its two branches (not a non-empty array, and
      a non-empty array still to be transformed) both give the fallback
      table, so its answer is the same for every input. */
  function ProcessElectionData(apiData: Json): (r: Json)
    ensures r == FallbackElections
  {
    if !IsNonEmptyArray(apiData) then FallbackElections
    else FallbackElections
  }

  /** The demographics transformer: the fallback table for every input. */
  function ProcessDemographicData(apiData: Json): (r: Json)
    ensures r == FallbackDemographics
  {
    if !IsNonEmptyArray(apiData) then FallbackDemographics
    else FallbackDemographics
  }

  const PollingStations: map<string, int> := map[
    "Bronx" := 465, "Brooklyn" := 750, "Manhattan" := 520, "Queens" := 680, "Staten Island" := 145]

  const EarlyVotingSites: map<string, int> := map[
    "Bronx" := 12, "Brooklyn" := 23, "Manhattan" := 18, "Queens" := 20, "Staten Island" := 5]

  /** A lookup that falls back to 0: the value of a key unless that value
      is 0, and 0 for a name that is no key. */
  function LookupOrZero(table: map<string, int>, name: string): (n: int)
    ensures name in table ==> n == table[name]
    ensures name !in table ==> n == 0
  {
    if name in table && table[name] != 0 then table[name] else 0
  }

  /** The number of polling stations of a borough; 0 for any other name. */
  function GetPollingStationCount(borough: string): (n: int)
    ensures borough in PollingStations ==> n == PollingStations[borough]
    ensures borough !in PollingStations ==> n == 0
  {
    LookupOrZero(PollingStations, borough)
  }

  /** The number of early-voting sites of a borough; 0 for any other name. */
  function GetEarlyVotingSites(borough: string): (n: int)
    ensures borough in EarlyVotingSites ==> n == EarlyVotingSites[borough]
    ensures borough !in EarlyVotingSites ==> n == 0
  {
    LookupOrZero(EarlyVotingSites, borough)
  }

  /** Both tables know exactly the five boroughs, and a name is positive in
      either exactly when it is one of them. */
  lemma LookupTablesCoverBoroughs(name: string)
    ensures PollingStations.Keys == EarlyVotingSites.Keys
            == {"Bronx", "Brooklyn", "Manhattan", "Queens", "Staten Island"}
    ensures GetPollingStationCount(name) > 0 <==> name in PollingStations
    ensures GetEarlyVotingSites(name) > 0 <==> name in EarlyVotingSites
  {
  }

  /** The freshness window: 15 minutes. */
  const CacheTimeout := 15 * 60 * 1000

  /** How far back a fallback entry is dated: 0.8 of the window, which is
      exactly 720000 ms, so that it goes stale after 3 minutes. */
  const FallbackBackdate := CacheTimeout * 4 / 5

  datatype CacheEntry = CacheEntry(data: Json, timestamp: int)

  /** What the network does for one request, and the time at which the
      answer (or the failure) arrives. `body` is the parsed JSON, or None
      when the body is not JSON. */
  datatype HttpOutcome =
    | Responded(ok: bool, body: Option<Json>, at: int)
    | NetworkError(at: int)

  /** The outcome that yields a payload: an ok status whose body parses. */
  predicate Succeeded(outcome: HttpOutcome) {
    outcome.Responded? && outcome.ok && outcome.body.Some?
  }

  predicate Fresh(e: CacheEntry, now: int) {
    now - e.timestamp < CacheTimeout
  }

  /** A cache hit: an entry for the key that is still fresh. */
  predicate IsHit(cache: map<string, CacheEntry>, key: string, now: int) {
    key in cache && Fresh(cache[key], now)
  }

  /** The entry a fetch stores: the payload stamped with its arrival time,
      or the fallback stamped 720000 ms before the failure. */
  function StoredEntry(fallback: Json, outcome: HttpOutcome): (e: CacheEntry)
    ensures Succeeded(outcome) ==> e == CacheEntry(outcome.body.value, outcome.at)
    ensures !Succeeded(outcome) ==> e == CacheEntry(fallback, outcome.at - 720000)
  {
    if Succeeded(outcome) then CacheEntry(outcome.body.value, outcome.at)
    else CacheEntry(fallback, outcome.at - FallbackBackdate)
  }

  /** The cache after `fetchWithFallback`: the key holds its old entry on
      a hit and the newly stored one on a miss, and every other key is as
      it was. */
  function NextCache(cache: map<string, CacheEntry>, key: string, fallback: Json, now: int, outcome: HttpOutcome): (r: map<string, CacheEntry>)
    ensures key in r
    ensures IsHit(cache, key, now) ==> r[key] == cache[key]
    ensures !IsHit(cache, key, now) ==> r[key] == StoredEntry(fallback, outcome)
    ensures forall k | k != key :: (k in r <==> k in cache) && (k in cache ==> r[k] == cache[k])
  {
    if IsHit(cache, key, now) then cache else cache[key := StoredEntry(fallback, outcome)]
  }

  /** The answer of `fetchWithFallback`: always the data the cache holds
      for the key once the call is over. */
  function Answer(cache: map<string, CacheEntry>, key: string, fallback: Json, now: int, outcome: HttpOutcome): (a: Json)
    ensures a == NextCache(cache, key, fallback, now, outcome)[key].data
  {
    if IsHit(cache, key, now) then cache[key].data else StoredEntry(fallback, outcome).data
  }

  /** The key order of a JavaScript Map after `set`: a new key goes last, a
      key already present keeps its place. */
  function NextOrder(order: seq<string>, key: string): (r: seq<string>)
    ensures key in order ==> r == order
    ensures key !in order ==> r == order + [key]
  {
    if key in order then order else order + [key]
  }

  /** A hit answers from the cache and leaves it as it was. */
  lemma HitUsesCache(cache: map<string, CacheEntry>, key: string, fallback: Json, now: int, outcome: HttpOutcome)
    requires IsHit(cache, key, now)
    ensures NextCache(cache, key, fallback, now, outcome) == cache
    ensures Answer(cache, key, fallback, now, outcome) == cache[key].data
  {
  }

  /** A miss that fetches successfully answers the payload and stores it
      with the time it arrived. */
  lemma SuccessStoresPayload(cache: map<string, CacheEntry>, key: string, fallback: Json, now: int, outcome: HttpOutcome)
    requires !IsHit(cache, key, now) && Succeeded(outcome)
    ensures NextCache(cache, key, fallback, now, outcome) == cache[key := CacheEntry(outcome.body.value, outcome.at)]
    ensures Answer(cache, key, fallback, now, outcome) == outcome.body.value
  {
  }

  /** A miss whose fetch fails in any way (an error status, a body that is
      not JSON, a network error) answers the fallback and stores it dated
      720000 ms back. */
  lemma FailureStoresFallback(cache: map<string, CacheEntry>, key: string, fallback: Json, now: int, outcome: HttpOutcome)
    requires !IsHit(cache, key, now) && !Succeeded(outcome)
    ensures NextCache(cache, key, fallback, now, outcome) == cache[key := CacheEntry(fallback, outcome.at - 720000)]
    ensures Answer(cache, key, fallback, now, outcome) == fallback
  {
  }

  /** A stored fallback stays fresh for 3 minutes after the failure, a
      stored payload for 15 minutes after its arrival. */
  lemma FreshnessWindows(fallback: Json, outcome: HttpOutcome, later: int)
    ensures !Succeeded(outcome) ==> (Fresh(StoredEntry(fallback, outcome), later) <==> later - outcome.at < 180000)
    ensures Succeeded(outcome) ==> (Fresh(StoredEntry(fallback, outcome), later) <==> later - outcome.at < 900000)
  {
  }

  /** After any call the key is in the cache, at most that one key has been
      added, and every other key keeps its entry. */
  lemma CacheGrowsByAtMostOne(cache: map<string, CacheEntry>, key: string, fallback: Json, now: int, outcome: HttpOutcome)
    ensures var next := NextCache(cache, key, fallback, now, outcome);
            key in next && next.Keys == cache.Keys + {key}
            && |next.Keys| <= |cache.Keys| + 1
            && forall k | k != key :: (k in next <==> k in cache) && (k in cache ==> next[k] == cache[k])
  {
    var next := NextCache(cache, key, fallback, now, outcome);
    assert next.Keys == cache.Keys + {key};
  }

  /** A second call for the same key inside the window of what the first
      stored is a hit, answered with what the first call answered. */
  lemma SecondCallHits(cache: map<string, CacheEntry>, key: string, fallback: Json, now: int, outcome: HttpOutcome,
                       fallback2: Json, later: int, outcome2: HttpOutcome)
    requires !IsHit(cache, key, now)
    requires Succeeded(outcome) ==> later - outcome.at < 900000
    requires !Succeeded(outcome) ==> later - outcome.at < 180000
    ensures var next := NextCache(cache, key, fallback, now, outcome);
            IsHit(next, key, later)
            && NextCache(next, key, fallback2, later, outcome2) == next
            && Answer(next, key, fallback2, later, outcome2) == Answer(cache, key, fallback, now, outcome)
  {
  }

  /** Whether an endpoint answered: false on a network error or when the
      5-second abort fires, otherwise the status's `ok`. */
  datatype ProbeOutcome = Answered(ok: bool) | Failed

  function Reachable(p: ProbeOutcome): bool {
    p.Answered? && p.ok
  }

  const ApiEndpoints: seq<string> := [
    "https://data.cityofnewyork.us/api/views/metadata/v1",
    "https://data.cityofnewyork.us/resource/8nqg-f7kj.json?$limit=1"]

  const ElectionCacheKey := "election_data"
  const DemographicCacheKey := "demographic_data"

  /** The result of `getCacheStats`. */
  datatype CacheStats = CacheStats(size: nat, keys: seq<string>, timeout: int)

  /** The answer of `getNeighborhoodData`: the parsed body of an ok
      response, and null for anything else. */
  function NeighborhoodDataResult(outcome: HttpOutcome): (r: Json)
    ensures Succeeded(outcome) ==> r == outcome.body.value
    ensures !Succeeded(outcome) ==> r == JNull
  {
    if Succeeded(outcome) then outcome.body.value else JNull
  }

  class DataService {
    /** The entries of the JavaScript Map, and its keys in insertion
        order. */
    var cache: map<string, CacheEntry>
    var order: seq<string>
    const cacheTimeout: int

    ghost predicate Valid()
      reads this
    {
      cacheTimeout == CacheTimeout && NoDup(order) && (forall k :: k in order <==> k in cache)
    }

    constructor ()
      ensures Valid() && cache == map[] && order == []
    {
      cache := map[];
      order := [];
      cacheTimeout := CacheTimeout;
    }

    /** Stores an entry under a key, as a JavaScript Map does. */
    method SetEntry(key: string, entry: CacheEntry)
      requires Valid()
      modifies this
      ensures Valid()
      ensures cache == old(cache)[key := entry] && order == NextOrder(old(order), key)
    {
      cache := cache[key := entry];
      if key !in order {
        NoDupAppend(order, key);
        order := order + [key];
      }
    }

    /** The cached fetch. `fetched` tells whether the network was asked. */
    method FetchWithFallback(fallback: Json, cacheKey: string, now: int, outcome: HttpOutcome) returns (data: Json, fetched: bool)
      requires Valid()
      modifies this
      ensures Valid()
      ensures fetched == !IsHit(old(cache), cacheKey, now)
      ensures data == Answer(old(cache), cacheKey, fallback, now, outcome)
      ensures cache == NextCache(old(cache), cacheKey, fallback, now, outcome)
      ensures order == if fetched then NextOrder(old(order), cacheKey) else old(order)
    {
      if cacheKey in cache && now - cache[cacheKey].timestamp < cacheTimeout {
        return cache[cacheKey].data, false;
      }
      fetched := true;
      if outcome.Responded? && outcome.ok && outcome.body.Some? {
        data := outcome.body.value;
        SetEntry(cacheKey, CacheEntry(data, outcome.at));
      } else {
        data := fallback;
        SetEntry(cacheKey, CacheEntry(fallback, outcome.at - FallbackBackdate));
      }
    }

    /** The election figures: the fetch fills the cache, and the answer is
        the transformer's, the fallback table. */
    method GetElectionData(now: int, outcome: HttpOutcome) returns (r: Json)
      requires Valid()
      modifies this
      ensures Valid()
      ensures r == FallbackElections
      ensures cache == NextCache(old(cache), ElectionCacheKey, FallbackElections, now, outcome)
      ensures order == NextOrder(old(order), ElectionCacheKey)
    {
      var data, _ := FetchWithFallback(FallbackElections, ElectionCacheKey, now, outcome);
      r := ProcessElectionData(data);
    }

    /** The demographic figures, likewise. */
    method GetDemographicData(now: int, outcome: HttpOutcome) returns (r: Json)
      requires Valid()
      modifies this
      ensures Valid()
      ensures r == FallbackDemographics
      ensures cache == NextCache(old(cache), DemographicCacheKey, FallbackDemographics, now, outcome)
      ensures order == NextOrder(old(order), DemographicCacheKey)
    {
      var data, _ := FetchWithFallback(FallbackDemographics, DemographicCacheKey, now, outcome);
      r := ProcessDemographicData(data);
    }

    /** Probes each endpoint in turn and records whether it answered ok. */
    method CheckAPIStatus(probe: string -> ProbeOutcome) returns (status: map<string, bool>)
      ensures status.Keys == set e | e in ApiEndpoints
      ensures forall e | e in ApiEndpoints :: status[e] == Reachable(probe(e))
    {
      status := map[];
      var i := 0;
      while i < |ApiEndpoints|
        invariant 0 <= i <= |ApiEndpoints|
        invariant status.Keys == set e | e in ApiEndpoints[..i]
        invariant forall e | e in ApiEndpoints[..i] :: status[e] == Reachable(probe(e))
      {
        var endpoint := ApiEndpoints[i];
        status := status[endpoint := Reachable(probe(endpoint))];
        assert ApiEndpoints[..i + 1] == ApiEndpoints[..i] + [endpoint];
        i := i + 1;
      }
      assert ApiEndpoints[..i] == ApiEndpoints;
    }

    method ClearCache()
      requires Valid()
      modifies this
      ensures Valid() && cache == map[] && order == []
    {
      cache := map[];
      order := [];
    }

    /** The size, the keys in insertion order (each key once, exactly the
        cached ones) and the timeout. */
    method GetCacheStats() returns (stats: CacheStats)
      requires Valid()
      ensures stats.size == |cache.Keys| && stats.keys == order && stats.timeout == 900000
      ensures NoDup(stats.keys) && |stats.keys| == stats.size
      ensures forall k :: k in stats.keys <==> k in cache
    {
      NoDupCardinality(order, cache.Keys);
      stats := CacheStats(|cache.Keys|, order, cacheTimeout);
    }
  }

  lemma NoDupAppend(s: seq<string>, x: string)
    requires NoDup(s) && x !in s
    ensures NoDup(s + [x])
  {
    var r := s + [x];
    forall i, j | 0 <= i < j < |r| ensures r[i] != r[j] {
      assert r[i] == s[i];
    }
  }
}

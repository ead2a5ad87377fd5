/** The insight cache of the dashboard page (src/pages/Dashboard.tsx): a key
    derived from a snapshot of the dashboard data, `localStorage` entries
    under that key that expire after 24 hours, and the flow that shows cached
    insights or asks for new ones. The sentiment pie data of the same page is
    here too.

    `localStorage` is a map from keys to parsed entries, the clock is a
    parameter `now` in milliseconds, and JSON text of the parts of a snapshot
    that are not modelled comes from the encoders in `JsonEncoding`. */
module Dashboard {
  import opened Common
  import opened AnalyticsTypes
  import opened OpenAiClient
  import opened Base64
  import opened DashboardInsights

  /* ---------- the data hash ---------- */

  /** The `keyData` object; a missing value is `undefined`, which
      `JSON.stringify` leaves out. */
  datatype KeyData = KeyData(
    reputation_score: Option<real>,
    sentiment_distribution: Option<SentimentDistribution>,
    top_issues_count: Option<int>,
    platform_count: Option<int>,
    total_mentions: Option<int>,
    generated_at: Option<string>)

  function KeyDataOf(data: DashboardData): KeyData
  {
    KeyData(
      if data.reputation_score.Some? then Some(data.reputation_score.value.current_score) else None,
      data.sentiment_distribution,
      if data.top_issues_requiring_attention.Some? then Some(|data.top_issues_requiring_attention.value|) else None,
      if data.platform_distribution.Some? && data.platform_distribution.value.platforms.Some?
      then Some(|data.platform_distribution.value.platforms.value|) else None,
      if data.dashboard_data.Some? then Some(data.dashboard_data.value.total_mentions) else None,
      if data.dashboard_data.Some? then Some(data.dashboard_data.value.generated_at) else None)
  }

  /** `JSON.stringify` of a number, of a sentiment distribution and of a
      string. */
  datatype JsonEncoding = JsonEncoding(
    number: real -> string,
    distribution: SentimentDistribution -> string,
    text: string -> string)

  /** `"name":value` */
  function Member(name: string, value: string): string
  {
    "\"" + name + "\":" + value
  }

  /** The members `JSON.stringify(keyData)` writes, in declaration order. */
  function Members(k: KeyData, enc: JsonEncoding): (r: seq<string>)
    ensures k.reputation_score.Some? ==> r != [] && r[0] == Member("reputation_score", enc.number(k.reputation_score.value))
  {
    (if k.reputation_score.Some? then [Member("reputation_score", enc.number(k.reputation_score.value))] else [])
    + (if k.sentiment_distribution.Some?
       then [Member("sentiment_distribution", enc.distribution(k.sentiment_distribution.value))] else [])
    + (if k.top_issues_count.Some? then [Member("top_issues_count", IntToString(k.top_issues_count.value))] else [])
    + (if k.platform_count.Some? then [Member("platform_count", IntToString(k.platform_count.value))] else [])
    + (if k.total_mentions.Some? then [Member("total_mentions", IntToString(k.total_mentions.value))] else [])
    + (if k.generated_at.Some? then [Member("generated_at", enc.text(k.generated_at.value))] else [])
  }

  /** `JSON.stringify(keyData)` */
  function KeyJson(k: KeyData, enc: JsonEncoding): string
  {
    "{" + Join(Members(k, enc), ",") + "}"
  }

  /** With a current score present the JSON text starts with
      `{"reputation`, whatever else the snapshot holds. */
  lemma KeyJsonPrefix(k: KeyData, enc: JsonEncoding)
    requires k.reputation_score.Some?
    ensures |KeyJson(k, enc)| >= 12
    ensures KeyJson(k, enc)[..12] == "{\"reputation"
  {
    var m := Members(k, enc);
    var first := Member("reputation_score", enc.number(k.reputation_score.value));
    assert first[..11] == "\"reputation";
    var j := Join(m, ",");
    assert first <= j;
    assert j[..11] == "\"reputation";
    assert KeyJson(k, enc)[..12] == "{" + j[..11];
  }

  /** `generateDataHash` as written: `btoa(JSON.stringify(keyData)).slice(0, 16)`;
      `None` where `btoa` throws. */
  function SlicedDataHash(data: DashboardData, enc: JsonEncoding): (r: Option<string>)
    ensures r.Some? <==> DataHash(data, enc).Some?
    ensures r.Some? ==> r.value <= DataHash(data, enc).value
    ensures r.Some? ==> |r.value| == if |DataHash(data, enc).value| < 16 then |DataHash(data, enc).value| else 16
  {
    match Btoa(KeyJson(KeyDataOf(data), enc))
    case None => None
    case Some(b) => Some(Take(b, 16))
  }

  /** Sixteen base64 symbols encode twelve bytes, and those are `{"reputation`
      for every snapshot with a current score: all such snapshots share one
      key. */
  lemma SlicedHashIsConstant(data: DashboardData, enc: JsonEncoding)
    requires data.reputation_score.Some?
    requires SlicedDataHash(data, enc).Some?
    ensures SlicedDataHash(data, enc) == Some("eyJyZXB1dGF0aW9u")
  {
    var s := KeyJson(KeyDataOf(data), enc);
    KeyJsonPrefix(KeyDataOf(data), enc);
    BtoaPrefix(s);
    assert Latin1(s[..12]);
    ReputationPrefixEncoding();
  }

  /** Two snapshots that differ in every keyed value, scores 70 and 40
      among them, still get the same key. */
  lemma SlicedHashCollides(d1: DashboardData, d2: DashboardData, enc: JsonEncoding)
    requires d1.reputation_score.Some? && d1.reputation_score.value.current_score == 70.0
    requires d2.reputation_score.Some? && d2.reputation_score.value.current_score == 40.0
    requires SlicedDataHash(d1, enc).Some? && SlicedDataHash(d2, enc).Some?
    ensures KeyDataOf(d1) != KeyDataOf(d2)
    ensures SlicedDataHash(d1, enc) == SlicedDataHash(d2, enc)
  {
    SlicedHashIsConstant(d1, enc);
    SlicedHashIsConstant(d2, enc);
  }

  /** The key without the truncation: `btoa(JSON.stringify(keyData))`. */
  function DataHash(data: DashboardData, enc: JsonEncoding): (r: Option<string>)
    ensures r.Some? <==> Latin1(KeyJson(KeyDataOf(data), enc))
    ensures r.Some? ==> |r.value| == (|KeyJson(KeyDataOf(data), enc)| + 2) / 3 * 4
  {
    Btoa(KeyJson(KeyDataOf(data), enc))
  }

  /** Snapshots whose key data serialise differently get different keys. */
  lemma DataHashDistinguishes(d1: DashboardData, d2: DashboardData, enc: JsonEncoding)
    requires DataHash(d1, enc).Some? && DataHash(d2, enc).Some?
    requires KeyJson(KeyDataOf(d1), enc) != KeyJson(KeyDataOf(d2), enc)
    ensures DataHash(d1, enc) != DataHash(d2, enc)
  {
    if DataHash(d1, enc) == DataHash(d2, enc) {
      BtoaInjective(KeyJson(KeyDataOf(d1), enc), KeyJson(KeyDataOf(d2), enc));
    }
  }

  /* ---------- the cache ---------- */

  const KeyPrefix: string := "dashboard_insights_"

  /** 24 hours in milliseconds. */
  const DayMs: int := 24 * 60 * 60 * 1000

  /** The `localStorage` key of a hash. */
  function CacheKey(hash: string): (r: string)
    ensures KeyPrefix <= r && r[|KeyPrefix|..] == hash
  {
    KeyPrefix + hash
  }

  lemma CacheKeyInjective(h1: string, h2: string)
    requires CacheKey(h1) == CacheKey(h2)
    ensures h1 == h2
  {
    assert h1 == CacheKey(h1)[|KeyPrefix|..];
  }

  /** A stored `{insights, timestamp}`, the timestamp in milliseconds. */
  datatype CacheEntry = CacheEntry(insights: DashboardInsight, timestamp: int)

  type Storage = map<string, CacheEntry>

  /** `(now - cacheTime) / (1000 * 60 * 60) < 24` */
  predicate Fresh(e: CacheEntry, now: int)
  {
    now - e.timestamp < DayMs
  }

  /** What `getCachedInsights` returns. */
  function Lookup(storage: Storage, hash: string, now: int): (r: Option<DashboardInsight>)
    ensures r.Some? <==> CacheKey(hash) in storage && Fresh(storage[CacheKey(hash)], now)
    ensures r.Some? ==> r.value == storage[CacheKey(hash)].insights
  {
    var key := CacheKey(hash);
    if key in storage && Fresh(storage[key], now) then Some(storage[key].insights) else None
  }

  /** The store after `getCachedInsights`: an expired entry is removed. */
  function AfterLookup(storage: Storage, hash: string, now: int): (r: Storage)
    ensures CacheKey(hash) in storage && !Fresh(storage[CacheKey(hash)], now) ==> r == storage - {CacheKey(hash)}
    ensures CacheKey(hash) !in storage || Fresh(storage[CacheKey(hash)], now) ==> r == storage
  {
    var key := CacheKey(hash);
    if key in storage && !Fresh(storage[key], now) then storage - {key} else storage
  }

  /** The store after `saveInsightsToCache`. */
  function Saved(storage: Storage, hash: string, insights: DashboardInsight, now: int): (r: Storage)
    ensures r.Keys == storage.Keys + {CacheKey(hash)}
    ensures Lookup(r, hash, now) == Some(insights) && r[CacheKey(hash)].timestamp == now
  {
    storage[CacheKey(hash) := CacheEntry(insights, now)]
  }

  /** The store after `clearInsightsCache`; nothing happens without a hash. */
  function Cleared(storage: Storage, dataHash: Option<string>): (r: Storage)
    ensures dataHash.Some? && dataHash.value != "" ==>
      CacheKey(dataHash.value) !in r && r.Keys == storage.Keys - {CacheKey(dataHash.value)}
    ensures dataHash.None? || dataHash.value == "" ==> r == storage
  {
    if dataHash.Some? && dataHash.value != "" then storage - {CacheKey(dataHash.value)} else storage
  }

  /** An entry saved at `t` is returned by every read with `now - t` under
      24 hours, and that read leaves the store as it is. */
  lemma SaveThenLookup(storage: Storage, hash: string, insights: DashboardInsight, t: int, now: int)
    requires now - t < DayMs
    ensures Lookup(Saved(storage, hash, insights, t), hash, now) == Some(insights)
    ensures AfterLookup(Saved(storage, hash, insights, t), hash, now) == Saved(storage, hash, insights, t)
  {
  }

  /** The comparison is strict: an entry exactly 24 hours old is expired,
      removed and not returned. */
  lemma DayOldEntryExpires(storage: Storage, hash: string, insights: DashboardInsight, t: int)
    ensures Lookup(Saved(storage, hash, insights, t), hash, t + DayMs) == None
    ensures AfterLookup(Saved(storage, hash, insights, t), hash, t + DayMs) == storage - {CacheKey(hash)}
  {
  }

  /** Save, lookup and clear touch only the key of their own hash. */
  lemma OtherKeysUntouched(storage: Storage, hash: string, insights: DashboardInsight, now: int, key: string)
    requires key != CacheKey(hash)
    ensures key in Saved(storage, hash, insights, now) <==> key in storage
    ensures key in storage ==> Saved(storage, hash, insights, now)[key] == storage[key]
    ensures key in AfterLookup(storage, hash, now) <==> key in storage
    ensures key in storage ==> AfterLookup(storage, hash, now)[key] == storage[key]
    ensures key in Cleared(storage, Some(hash)) <==> key in storage
    ensures key in storage ==> Cleared(storage, Some(hash))[key] == storage[key]
  {
  }

  /** A read of a key that was never written finds nothing and changes
      nothing. */
  lemma MissLeavesStore(storage: Storage, hash: string, now: int)
    requires CacheKey(hash) !in storage
    ensures Lookup(storage, hash, now) == None && AfterLookup(storage, hash, now) == storage
  {
  }

  /** Clearing then reading finds nothing. */
  lemma ClearThenLookup(storage: Storage, hash: string, now: int)
    requires hash != ""
    ensures Lookup(Cleared(storage, Some(hash)), hash, now) == None
  {
  }

  /* ---------- the page's insight state ---------- */

  const DataNotAvailable: string := "Dashboard data not available. Please wait for data to load."

  /** The collaborators of the page: number formatting for the prompt, JSON
      encoding for the hash and JSON parsing of the answer. */
  datatype Services = Services(
    fmt1: real -> string,
    json: JsonEncoding,
    parse: string -> Option<DashboardInsight>)

  /** The page's state as a value. `requests` lists the snapshots sent to
      `generateDashboardInsights`, oldest first. */
  datatype PageView = PageView(
    storage: Storage,
    dashboardData: Option<DashboardData>,
    dataHash: Option<string>,
    insights: Option<DashboardInsight>,
    insightsLoading: bool,
    insightsError: Option<string>,
    isCachedInsights: bool,
    requests: seq<DashboardData>)

  /** The page's outcome after one generation for `data` answered by
      `completion`, with the key `hash`; `savedAt` is the clock when the
      answer has arrived and a success is saved. */
  function AfterGeneration(v: PageView, data: DashboardData, hash: string, completion: Completion,
                           services: Services, savedAt: int): (r: PageView)
    ensures r.requests == v.requests + [data] && !r.insightsLoading
    ensures GenerateInsights(completion, services.parse).Ok? ==>
      r.storage == Saved(v.storage, hash, GenerateInsights(completion, services.parse).value, savedAt)
      && r.insights == Some(GenerateInsights(completion, services.parse).value)
      && r.insightsError == None && !r.isCachedInsights
    ensures GenerateInsights(completion, services.parse).Err? ==>
      r.storage == v.storage && r.insights == v.insights
      && r.insightsError == Some(InsightsFailed) && r.isCachedInsights == v.isCachedInsights
  {
    match GenerateInsights(completion, services.parse)
    case Ok(x) =>
      v.(storage := Saved(v.storage, hash, x, savedAt), insights := Some(x), insightsError := None,
         isCachedInsights := false, insightsLoading := false, requests := v.requests + [data])
    case Err(message) =>
      v.(insightsError := Some(message), insightsLoading := false, requests := v.requests + [data])
  }

  /** The page after `fetchData` has loaded `data` and computed its key
      `hash`: a cache hit shows the cached insights, a miss generates them.
      The cache is read at `now`, before the request; a generated answer is
      saved at `savedAt`, after it has arrived. */
  function AfterFetch(v: PageView, data: DashboardData, hash: string, completion: Completion,
                      services: Services, now: int, savedAt: int): PageView
  {
    var w := v.(dashboardData := Some(data), dataHash := Some(hash), storage := AfterLookup(v.storage, hash, now));
    var cached := Lookup(v.storage, hash, now);
    if cached.Some? then
      w.(insights := cached, insightsError := None, isCachedInsights := true)
    else
      AfterGeneration(w.(isCachedInsights := false, insightsLoading := true, insightsError := None),
                      data, hash, completion, services, savedAt)
  }

  class DashboardPage {
    var storage: Storage
    var dashboardData: Option<DashboardData>
    var dataHash: Option<string>
    var insights: Option<DashboardInsight>
    var insightsLoading: bool
    var insightsError: Option<string>
    var isCachedInsights: bool
    var requests: seq<DashboardData>

    function View(): PageView
      reads this
    {
      PageView(storage, dashboardData, dataHash, insights, insightsLoading, insightsError,
        isCachedInsights, requests)
    }

    /** A freshly mounted page over the browser's existing store. */
    constructor(stored: Storage)
      ensures View() == PageView(stored, None, None, None, false, None, false, [])
    {
      storage := stored;
      dashboardData := None;
      dataHash := None;
      insights := None;
      insightsLoading := false;
      insightsError := None;
      isCachedInsights := false;
      requests := [];
    }

    /** `getCachedInsights(hash)` */
    method GetCachedInsights(hash: string, now: int) returns (r: Option<DashboardInsight>)
      modifies this
      ensures r == Lookup(old(storage), hash, now)
      ensures View() == old(View()).(storage := AfterLookup(old(storage), hash, now))
    {
      var key := CacheKey(hash);
      if key in storage {
        var cached := storage[key];
        if now - cached.timestamp < DayMs {
          return Some(cached.insights);
        } else {
          storage := storage - {key};
        }
      }
      return None;
    }

    /** `saveInsightsToCache(hash, insights)` */
    method SaveInsightsToCache(hash: string, x: DashboardInsight, now: int)
      modifies this
      ensures View() == old(View()).(storage := Saved(old(storage), hash, x, now))
    {
      storage := storage[CacheKey(hash) := CacheEntry(x, now)];
    }

    /** `clearInsightsCache()` */
    method ClearInsightsCache()
      modifies this
      ensures old(dataHash).Some? && old(dataHash).value != "" ==>
        View() == old(View()).(storage := Cleared(old(storage), old(dataHash)), isCachedInsights := false)
      ensures old(dataHash).None? || old(dataHash).value == "" ==> View() == old(View())
    {
      if dataHash.Some? && dataHash.value != "" {
        storage := storage - {CacheKey(dataHash.value)};
        isCachedInsights := false;
      }
    }

    /** `generateInsightsAutomatically(data, hash)`; `completion` is the
      answer to `InsightsRequest(data, services.fmt1)` and `savedAt` the
      clock once it has arrived. */
    method GenerateInsightsAutomatically(data: DashboardData, hash: string, completion: Completion,
                                         services: Services, savedAt: int)
      modifies this
      ensures View() == AfterGeneration(old(View()).(insightsLoading := true, insightsError := None),
                                        data, hash, completion, services, savedAt)
    {
      insightsLoading := true;
      insightsError := None;
      requests := requests + [data];
      var outcome := GenerateInsights(completion, services.parse);
      if outcome.Ok? {
        insights := Some(outcome.value);
        SaveInsightsToCache(hash, outcome.value, savedAt);
        isCachedInsights := false;
      } else {
        insightsError := Some(outcome.message);
      }
      insightsLoading := false;
    }

    /** The continuation of `fetchData` once `fetchDashboardData` settles;
      `payload` is `None` when it was rejected. The cache is read at `now`
      and a generated answer saved at `savedAt`. */
    method OnDashboardFetched(payload: Option<DashboardData>, completion: Completion,
                              services: Services, now: int, savedAt: int)
      modifies this
      ensures payload.None? ==> View() == old(View())
      ensures payload.Some? && SlicedDataHash(payload.value, services.json).None? ==>
        View() == old(View()).(dashboardData := payload)
      ensures payload.Some? && SlicedDataHash(payload.value, services.json).Some? ==>
        View() == AfterFetch(old(View()), payload.value, SlicedDataHash(payload.value, services.json).value,
                             completion, services, now, savedAt)
    {
      if payload.Some? {
        var data := payload.value;
        dashboardData := Some(data);
        var currentHash := SlicedDataHash(data, services.json);
        if currentHash.Some? {
          dataHash := currentHash;
          var cached := GetCachedInsights(currentHash.value, now);
          if cached.Some? {
            insights := cached;
            insightsError := None;
            isCachedInsights := true;
          } else {
            isCachedInsights := false;
            GenerateInsightsAutomatically(data, currentHash.value, completion, services, savedAt);
          }
        }
      }
    }

    /** `handleGenerateInsights()`: regenerate for the loaded snapshot. */
    method HandleGenerateInsights(completion: Completion, services: Services, savedAt: int)
      modifies this
      ensures old(dashboardData).None? || old(dataHash).None? || old(dataHash).value == "" ==>
        View() == old(View()).(insightsError := Some(DataNotAvailable))
      ensures old(dashboardData).Some? && old(dataHash).Some? && old(dataHash).value != "" ==>
        View() == AfterGeneration(old(View()).(insightsLoading := true, insightsError := None),
                                  old(dashboardData).value, old(dataHash).value, completion, services, savedAt)
    {
      if dashboardData.None? || dataHash.None? || dataHash.value == "" {
        insightsError := Some(DataNotAvailable);
        return;
      }
      GenerateInsightsAutomatically(dashboardData.value, dataHash.value, completion, services, savedAt);
    }
  }

  /** A cache hit sends no request and shows the cached insights, leaving the
      store as it is; a miss sends exactly one request, for the fetched
      snapshot; a failed generation leaves the store as the read left it, and
      a successful one is what every read of the key returns until 24 hours
      after it was saved. */
  lemma HitSkipsGeneration(v: PageView, data: DashboardData, hash: string, completion: Completion,
                           services: Services, now: int, savedAt: int, later: int)
    ensures var r := AfterFetch(v, data, hash, completion, services, now, savedAt);
      var cached := Lookup(v.storage, hash, now);
      && (cached.Some? ==>
            r.requests == v.requests && r.insights == cached && r.isCachedInsights && r.storage == v.storage)
      && (cached.None? ==> |r.requests| == |v.requests| + 1 && r.requests[|v.requests|] == data)
      && (cached.None? && GenerateInsights(completion, services.parse).Err? ==>
            r.storage == AfterLookup(v.storage, hash, now))
      && (cached.None? && GenerateInsights(completion, services.parse).Ok? && later - savedAt < DayMs ==>
            Lookup(r.storage, hash, later) == r.insights)
  {
  }

  /** With the key as written, insights saved for one snapshot with a score
      are shown for any other such snapshot fetched within 24 hours, without
      a request. */
  lemma StaleInsightsServed(v: PageView, d1: DashboardData, d2: DashboardData, x: DashboardInsight,
                            t: int, now: int, savedAt: int, completion: Completion, services: Services)
    requires d1.reputation_score.Some? && d2.reputation_score.Some?
    requires SlicedDataHash(d1, services.json).Some? && SlicedDataHash(d2, services.json).Some?
    requires now - t < DayMs
    ensures var saved := v.(storage := Saved(v.storage, SlicedDataHash(d1, services.json).value, x, t));
      var r := AfterFetch(saved, d2, SlicedDataHash(d2, services.json).value, completion, services, now, savedAt);
      r.insights == Some(x) && r.isCachedInsights && r.requests == v.requests
  {
    SlicedHashIsConstant(d1, services.json);
    SlicedHashIsConstant(d2, services.json);
  }

  /** With the whole encoding as key, saving the insights of one snapshot
      does not change what fetching a snapshot with different key data
      shows or requests. */
  lemma CorrectedKeyNotStale(v: PageView, d1: DashboardData, d2: DashboardData, x: DashboardInsight,
                             t: int, now: int, savedAt: int, completion: Completion, services: Services)
    requires DataHash(d1, services.json).Some? && DataHash(d2, services.json).Some?
    requires KeyJson(KeyDataOf(d1), services.json) != KeyJson(KeyDataOf(d2), services.json)
    ensures var h2 := DataHash(d2, services.json).value;
      var saved := v.(storage := Saved(v.storage, DataHash(d1, services.json).value, x, t));
      var r := AfterFetch(saved, d2, h2, completion, services, now, savedAt);
      var r0 := AfterFetch(v, d2, h2, completion, services, now, savedAt);
      && Lookup(saved.storage, h2, now) == Lookup(v.storage, h2, now)
      && r.insights == r0.insights && r.isCachedInsights == r0.isCachedInsights && r.requests == r0.requests
  {
    var h1 := DataHash(d1, services.json).value;
    var h2 := DataHash(d2, services.json).value;
    DataHashDistinguishes(d1, d2, services.json);
    SavedOtherHashRead(v.storage, h1, h2, x, t, now);
    FetchSeesOnlyLookup(v, v.(storage := Saved(v.storage, h1, x, t)), d2, h2, completion, services, now, savedAt);
  }

  /** Saving under one hash does not change what a read of another finds. */
  lemma SavedOtherHashRead(storage: Storage, h1: string, h2: string, x: DashboardInsight, t: int, now: int)
    requires h1 != h2
    ensures Lookup(Saved(storage, h1, x, t), h2, now) == Lookup(storage, h2, now)
  {
    if CacheKey(h1) == CacheKey(h2) {
      CacheKeyInjective(h1, h2);
    }
    OtherKeysUntouched(storage, h1, x, t, CacheKey(h2));
  }

  /** What a fetch shows and requests depends on the store only through the
      read of its key. */
  lemma FetchSeesOnlyLookup(v: PageView, w: PageView, data: DashboardData, hash: string,
                            completion: Completion, services: Services, now: int, savedAt: int)
    requires w == v.(storage := w.storage)
    requires Lookup(w.storage, hash, now) == Lookup(v.storage, hash, now)
    ensures var r := AfterFetch(w, data, hash, completion, services, now, savedAt);
      var r0 := AfterFetch(v, data, hash, completion, services, now, savedAt);
      r.insights == r0.insights && r.isCachedInsights == r0.isCachedInsights && r.requests == r0.requests
  {
  }

  /* ---------- the sentiment pie ---------- */

  datatype PieSlice = PieSlice(name: string, value: int, percentage: real, color: string)

  const PositiveColor: string := "#4caf50"
  const NegativeColor: string := "#f44336"
  const NeutralColor: string := "#9e9e9e"

  /** The three candidate slices, in order. */
  function AllSlices(sd: SentimentDistribution): seq<PieSlice>
  {
    [PieSlice("Positive", sd.counts.positive, sd.percentages.positive, PositiveColor),
     PieSlice("Negative", sd.counts.negative, sd.percentages.negative, NegativeColor),
     PieSlice("Neutral", sd.counts.neutral, sd.percentages.neutral, NeutralColor)]
  }

  /** `slices.filter((item) => item.value > 0)` */
  function PositiveSlices(slices: seq<PieSlice>): (r: seq<PieSlice>)
    ensures |r| <= |slices|
    ensures forall x :: x in r <==> x in slices && x.value > 0
  {
    if slices == [] then []
    else (if slices[0].value > 0 then [slices[0]] else []) + PositiveSlices(slices[1..])
  }

  /** `sentimentPieData` */
  function SentimentPieData(distribution: Option<SentimentDistribution>): seq<PieSlice>
  {
    if distribution.Some? then PositiveSlices(AllSlices(distribution.value)) else []
  }

  /** No distribution, no slices; otherwise the slices of the positive
      counts, in the order Positive, Negative, Neutral. */
  lemma PieDataOrder(distribution: Option<SentimentDistribution>)
    ensures distribution.None? ==> SentimentPieData(distribution) == []
    ensures distribution.Some? ==>
      var all := AllSlices(distribution.value);
      SentimentPieData(distribution)
        == (if all[0].value > 0 then [all[0]] else [])
         + (if all[1].value > 0 then [all[1]] else [])
         + (if all[2].value > 0 then [all[2]] else [])
    ensures forall x :: x in SentimentPieData(distribution) ==> x.value > 0
  {
    if distribution.Some? {
      var all := AllSlices(distribution.value);
      var p0, p1, p2 := (if all[0].value > 0 then [all[0]] else []),
        (if all[1].value > 0 then [all[1]] else []), (if all[2].value > 0 then [all[2]] else []);
      assert all[1..][1..][1..] == [];
      assert PositiveSlices(all[1..][1..]) == p2;
      assert PositiveSlices(all[1..]) == p1 + p2;
      assert PositiveSlices(all) == p0 + (p1 + p2);
      assert p0 + (p1 + p2) == p0 + p1 + p2;
    }
  }
}

/**
 * The home-screen widget (MyIPWidget/MyIPWidget.swift): which entry a timeline carries and
 * when it refreshes, the snapshot's defaults, the acceptance of the ipwho.is answer, and the
 * rendering decisions of its views. The widget shares the cache of SharedCache with the app.
 */
module Widget {
  import opened Wrappers
  import opened JsonFields
  import opened SharedCache

  /** A timeline entry without its date (MyIPWidget.swift:15-21). */
  datatype IPEntry = IPEntry(ip: string, country: string, city: string, isProxy: bool)

  /** The address and country of the entry shown while nothing is known yet. */
  const Connecting := "连接中"
  const Initializing := "网络初始化"

  /** The entry of a timeline with neither a fetched nor a cached record (MyIPWidget.swift:55-57). */
  const InitialEntry := IPEntry(Connecting, Initializing, "", false)

  /** The fields `fetchIPDirectly` extracts from the ipwho.is answer. */
  datatype Fetched = Fetched(ip: string, country: string, city: string)

  /**
   * `fetchIPDirectly` (MyIPWidget.swift:67-83): a result only when the answer decodes to an
   * object whose `ip`, `country` and `city` are all strings; `json` is None when the request
   * failed or the body is not a JSON object.
   */
  function FetchIPDirectly(json: Option<JsonObject>): (r: Option<Fetched>)
    ensures r.Some? <==> json.Some? && StringField(json.value, "ip").Some?
                         && StringField(json.value, "country").Some? && StringField(json.value, "city").Some?
    ensures r.Some? ==> && json.value["ip"] == JText(r.value.ip)
                        && json.value["country"] == JText(r.value.country)
                        && json.value["city"] == JText(r.value.city)
  {
    match json
    case None => None
    case Some(obj) =>
      var ip := StringField(obj, "ip");
      var country := StringField(obj, "country");
      var city := StringField(obj, "city");
      if ip.Some? && country.Some? && city.Some? then Some(Fetched(ip.value, country.value, city.value)) else None
  }

  /**
   * `getSnapshot` (MyIPWidget.swift:31-41): the cached record, field by field, with the
   * defaults "获取中...", "正在连接" and "" when there is none, and the saved proxy bit.
   */
  function SnapshotEntry(d: Defaults): (e: IPEntry)
    ensures CachedIPInfo(d).Some? ==> e == IPEntry(CachedIPInfo(d).value.ip, CachedIPInfo(d).value.country, CachedIPInfo(d).value.city, IsProxy(d))
    ensures CachedIPInfo(d).None? ==> e == IPEntry("获取中...", "正在连接", "", IsProxy(d))
  {
    var info := CachedIPInfo(d);
    IPEntry(if info.Some? then info.value.ip else "获取中...",
            if info.Some? then info.value.country else "正在连接",
            if info.Some? then info.value.city else "",
            IsProxy(d))
  }

  /**
   * `getTimeline` (MyIPWidget.swift:43-64): a fetched record is cached (with an empty
   * country code) and shown with a 15-minute refresh; failing that, the cached record with a
   * 3-minute refresh; failing that, the initial entry with a 1-minute refresh.
   */
  method GetTimeline(cache: IPService, json: Option<JsonObject>, now: int) returns (entry: IPEntry, refreshMinutes: nat)
    modifies cache
    ensures var fetched := FetchIPDirectly(json);
            fetched.Some? ==>
              && cache.defaults == WithIPInfo(old(cache.defaults), IPInfo(fetched.value.ip, fetched.value.country, "", fetched.value.city), now)
              && entry == IPEntry(fetched.value.ip, fetched.value.country, fetched.value.city, IsProxy(cache.defaults))
              && refreshMinutes == 15
    ensures var cached := CachedIPInfo(old(cache.defaults));
            FetchIPDirectly(json).None? && cached.Some? ==>
              && cache.defaults == old(cache.defaults)
              && entry == IPEntry(cached.value.ip, cached.value.country, cached.value.city, IsProxy(cache.defaults))
              && refreshMinutes == 3
    ensures FetchIPDirectly(json).None? && CachedIPInfo(old(cache.defaults)).None? ==>
              cache.defaults == old(cache.defaults) && entry == InitialEntry && refreshMinutes == 1
  {
    refreshMinutes := 15;
    var result := FetchIPDirectly(json);
    if result.Some? {
      cache.SaveIPInfo(IPInfo(result.value.ip, result.value.country, "", result.value.city), now);
      entry := IPEntry(result.value.ip, result.value.country, result.value.city, IsProxy(cache.defaults));
    } else {
      var cached := CachedIPInfo(cache.defaults);
      if cached.Some? {
        entry := IPEntry(cached.value.ip, cached.value.country, cached.value.city, IsProxy(cache.defaults));
        refreshMinutes := 3;
      } else {
        entry := InitialEntry;
        refreshMinutes := 1;
      }
    }
  }

  /**
   * A timeline that fetched a record leaves the cache so that the next snapshot shows that
   * same entry (when the shared suite exists), and the proxy bit is the one saved by the app.
   */
  lemma SnapshotAfterFetch(d: Defaults, f: Fetched, now: int)
    requires d.Some?
    ensures var d' := WithIPInfo(d, IPInfo(f.ip, f.country, "", f.city), now);
            SnapshotEntry(d') == IPEntry(f.ip, f.country, f.city, IsProxy(d)) && IsProxy(d') == IsProxy(d)
  {
    var info := IPInfo(f.ip, f.country, "", f.city);
    IPInfoRoundTrip(d, info, now);
    WriteKeepsProxyBit(d, info, now);
  }

  /** Saving a record does not touch the proxy bit. */
  lemma WriteKeepsProxyBit(d: Defaults, info: IPInfo, now: int)
    ensures IsProxy(WithIPInfo(d, info, now)) == IsProxy(d)
  {
    KeysDistinct();
  }

  /** `isNetworkInitializing` (MyIPWidget.swift:205-207). */
  predicate IsNetworkInitializing(e: IPEntry) {
    e.ip == Connecting && e.country == Initializing
  }

  /** Whether the address is a placeholder ("N/A" or the connecting text) in the icon rules. */
  predicate HasNoAddress(e: IPEntry) {
    e.ip == "N/A" || e.ip == Connecting
  }

  datatype Tint = Orange | Red | Green

  /** `getNetworkIcon` (MyIPWidget.swift:209-217). */
  function NetworkIcon(e: IPEntry): (symbol: string)
    ensures symbol == "wifi.exclamationmark" <==> IsNetworkInitializing(e)
    ensures symbol == "wifi.slash" <==> !IsNetworkInitializing(e) && HasNoAddress(e)
    ensures symbol == "network" <==> !HasNoAddress(e)
  {
    if IsNetworkInitializing(e) then "wifi.exclamationmark"
    else if e.ip == "N/A" || e.ip == Connecting then "wifi.slash"
    else "network"
  }

  /** `getNetworkColor` (MyIPWidget.swift:219-227). */
  function NetworkColor(e: IPEntry): (tint: Tint)
    ensures tint == Orange <==> IsNetworkInitializing(e)
    ensures tint == Red <==> !IsNetworkInitializing(e) && HasNoAddress(e)
    ensures tint == Green <==> !HasNoAddress(e)
  {
    if IsNetworkInitializing(e) then Orange
    else if e.ip == "N/A" || e.ip == Connecting then Red
    else Green
  }

  /** Icon and colour follow the same three-way choice. */
  lemma IconAndColorAgree(e: IPEntry)
    ensures NetworkIcon(e) == "wifi.exclamationmark" <==> NetworkColor(e) == Orange
    ensures NetworkIcon(e) == "wifi.slash" <==> NetworkColor(e) == Red
    ensures NetworkIcon(e) == "network" <==> NetworkColor(e) == Green
  {
  }

  /** The location line (MyIPWidget.swift:146, 186): the city alone when it equals the country, else "country, city". */
  function LocationLabel(country: string, city: string): (text: string)
    ensures |city| <= |text| && text[|text| - |city|..] == city
    ensures city != country ==> |text| == |country| + 2 + |city| && text[..|country| + 2] == country + ", "
    ensures city == country ==> text == city
  {
    if city == country then city else country + ", " + city
  }

  /** What the body of both views shows (MyIPWidget.swift:130-159, 170-199). */
  datatype Rendering = InitializingView | ConnectingView | AddressView(location: string, ip: string, proxyBadge: bool)

  function RenderingOf(e: IPEntry): (r: Rendering)
    ensures r.InitializingView? <==> IsNetworkInitializing(e)
    ensures r.ConnectingView? <==> !IsNetworkInitializing(e) && e.ip == "N/A"
    ensures r.AddressView? ==> r == AddressView(LocationLabel(e.country, e.city), e.ip, e.isProxy)
  {
    if IsNetworkInitializing(e) then InitializingView
    else if e.ip == "N/A" then ConnectingView
    else AddressView(LocationLabel(e.country, e.city), e.ip, e.isProxy)
  }

  /**
   * The body and the icon nearly agree: the green network icon always comes with an
   * address body, and the only address body without it is a connecting address paired with
   * a country other than the initialising one.
   */
  lemma RenderingMatchesIcon(e: IPEntry)
    ensures RenderingOf(e).AddressView? <==> NetworkIcon(e) == "network" || (e.ip == Connecting && e.country != Initializing)
  {
  }

  /** The fallback entry is the initialising one: orange exclamation icon, no proxy badge. */
  lemma InitialEntryRendersInitializing()
    ensures IsNetworkInitializing(InitialEntry)
    ensures NetworkIcon(InitialEntry) == "wifi.exclamationmark" && NetworkColor(InitialEntry) == Orange
    ensures RenderingOf(InitialEntry) == InitializingView
  {
  }
}

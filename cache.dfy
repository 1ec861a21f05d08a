/**
 * The store shared by the menu-bar app and the widget (MyIP/Shared/IPService.swift): an
 * app-group `UserDefaults` suite, read and written key by key. The suite may be missing
 * (`UserDefaults(suiteName:)` returns nil); then every write is dropped and every read
 * answers nil or false.
 */
module SharedCache {
  import opened Wrappers

  /** What a key holds: text, a boolean, or a date (seconds since a fixed origin). */
  datatype Value = Text(text: string) | Flag(flag: bool) | Time(seconds: int)

  type Suite = map<string, Value>

  /** The shared suite; None when it cannot be opened. */
  type Defaults = Option<Suite>

  const IpKey := "cachedExternalIP"
  const CountryKey := "cachedCountry"
  const CountryCodeKey := "cachedCountryCode"
  const CityKey := "cachedCity"
  const LastUpdateKey := "lastIPUpdateTime"
  const IsProxyKey := "isProxy"
  /** The key saveConnectionType writes; that method's definition is not part of this model. */
  const ConnectionTypeKey := "connectionType"

  /** The keys the service writes, all distinct. */
  lemma KeysDistinct()
    ensures |{IpKey, CountryKey, CountryCodeKey, CityKey, LastUpdateKey, IsProxyKey, ConnectionTypeKey}| == 7
  {
    assert |IpKey| == 16 && |CountryKey| == 13 && |CountryCodeKey| == 17 && |CityKey| == 10;
    assert |LastUpdateKey| == 16 && |IsProxyKey| == 7 && |ConnectionTypeKey| == 14;
    assert IpKey[0] != LastUpdateKey[0];
  }

  /** The record the widget shows and the app caches (IPService.swift:12-17). */
  datatype IPInfo = IPInfo(ip: string, country: string, countryCode: string, city: string)

  /** `string(forKey:)`: the text under `key`, nil when absent or not text. */
  function StringFor(d: Defaults, key: string): (r: Option<string>)
    ensures r.Some? <==> d.Some? && key in d.value && d.value[key].Text?
  {
    if d.Some? && key in d.value && d.value[key].Text? then Some(d.value[key].text) else None
  }

  function Set(d: Defaults, key: string, v: Value): (r: Defaults)
    ensures r.Some? <==> d.Some?
  {
    match d
    case None => None
    case Some(m) => Some(m[key := v])
  }

  /** `cachedIP` (IPService.swift:65-67). */
  function CachedIP(d: Defaults): Option<string> {
    StringFor(d, IpKey)
  }

  /** `cachedIPInfo` (IPService.swift:69-77): all four text keys, or nil. */
  function CachedIPInfo(d: Defaults): (r: Option<IPInfo>)
    ensures r.Some? <==> CachedIP(d).Some? && StringFor(d, CountryKey).Some? && StringFor(d, CountryCodeKey).Some? && StringFor(d, CityKey).Some?
    ensures r.Some? ==> && r.value.ip == CachedIP(d).value
                        && r.value.country == StringFor(d, CountryKey).value
                        && r.value.countryCode == StringFor(d, CountryCodeKey).value
                        && r.value.city == StringFor(d, CityKey).value
  {
    var ip := CachedIP(d);
    var country := StringFor(d, CountryKey);
    var code := StringFor(d, CountryCodeKey);
    var city := StringFor(d, CityKey);
    if ip.Some? && country.Some? && code.Some? && city.Some? then
      Some(IPInfo(ip.value, country.value, code.value, city.value))
    else None
  }

  /** `lastUpdateTime` (IPService.swift:79-81). */
  function LastUpdateTime(d: Defaults): Option<int> {
    if d.Some? && LastUpdateKey in d.value && d.value[LastUpdateKey].Time? then Some(d.value[LastUpdateKey].seconds) else None
  }

  /** `isProxy` (IPService.swift:100-102): `bool(forKey:)`, false when absent, and false without a suite. */
  function IsProxy(d: Defaults): bool {
    d.Some? && IsProxyKey in d.value && d.value[IsProxyKey].Flag? && d.value[IsProxyKey].flag
  }

  /** The store after `saveIP` (IPService.swift:83-86) at time `now`. */
  function WithIP(d: Defaults, ip: string, now: int): Defaults {
    Set(Set(d, IpKey, Text(ip)), LastUpdateKey, Time(now))
  }

  /** The store after `saveIPInfo` (IPService.swift:88-94) at time `now`. */
  function WithIPInfo(d: Defaults, info: IPInfo, now: int): Defaults {
    Set(Set(Set(Set(Set(d, IpKey, Text(info.ip)), CountryKey, Text(info.country)), CountryCodeKey, Text(info.countryCode)),
      CityKey, Text(info.city)), LastUpdateKey, Time(now))
  }

  /** The store after `saveProxyStatus` (IPService.swift:96-98). */
  function WithProxyStatus(d: Defaults, isProxy: bool): Defaults {
    Set(d, IsProxyKey, Flag(isProxy))
  }

  /** The store after `saveConnectionType`, written like the other saves. */
  function WithConnectionType(d: Defaults, key: string): Defaults {
    Set(d, ConnectionTypeKey, Text(key))
  }

  /** Saving a record and reading it back gives the same record and the save time. */
  lemma IPInfoRoundTrip(d: Defaults, info: IPInfo, now: int)
    requires d.Some?
    ensures CachedIPInfo(WithIPInfo(d, info, now)) == Some(info)
    ensures CachedIP(WithIPInfo(d, info, now)) == Some(info.ip)
    ensures LastUpdateTime(WithIPInfo(d, info, now)) == Some(now)
  {
    KeysDistinct();
  }

  /** Without a suite nothing is ever cached. */
  lemma NoSuiteNoCache(info: IPInfo, ip: string, isProxy: bool, now: int)
    ensures CachedIPInfo(WithIPInfo(None, info, now)).None?
    ensures CachedIP(WithIP(None, ip, now)).None?
    ensures !IsProxy(WithProxyStatus(None, isProxy))
  {
  }

  /**
   * `saveIP` writes the address and the time only: the country, country-code and city keys
   * keep whatever they held, so a record read afterwards pairs the new address with the old
   * location (a record exists exactly when those three keys do), and on a store without them
   * the record stays nil while the address is cached.
   */
  lemma SaveIPKeepsLocation(d: Defaults, ip: string, now: int)
    requires d.Some?
    ensures var d' := WithIP(d, ip, now);
            && CachedIP(d') == Some(ip)
            && LastUpdateTime(d') == Some(now)
            && StringFor(d', CountryKey) == StringFor(d, CountryKey)
            && StringFor(d', CountryCodeKey) == StringFor(d, CountryCodeKey)
            && StringFor(d', CityKey) == StringFor(d, CityKey)
            && IsProxy(d') == IsProxy(d)
    ensures var d' := WithIP(d, ip, now);
            CachedIPInfo(d').Some? <==> StringFor(d, CountryKey).Some? && StringFor(d, CountryCodeKey).Some? && StringFor(d, CityKey).Some?
    ensures var d' := WithIP(d, ip, now);
            CachedIPInfo(d).Some? ==> CachedIPInfo(d') == Some(CachedIPInfo(d).value.(ip := ip))
  {
    KeysDistinct();
    var d' := WithIP(d, ip, now);
    assert StringFor(d', CountryKey) == StringFor(d, CountryKey);
    assert StringFor(d', CountryCodeKey) == StringFor(d, CountryCodeKey);
    assert StringFor(d', CityKey) == StringFor(d, CityKey);
    assert CachedIP(d') == Some(ip);
    if CachedIPInfo(d).Some? {
      var prior := CachedIPInfo(d).value;
      assert StringFor(d, CountryKey) == Some(prior.country);
      assert StringFor(d, CountryCodeKey) == Some(prior.countryCode);
      assert StringFor(d, CityKey) == Some(prior.city);
      assert CachedIPInfo(d') == Some(IPInfo(ip, prior.country, prior.countryCode, prior.city));
    }
  }

  /** On an empty suite `saveIP` makes the address readable but not the record. */
  lemma SaveIPOnEmptySuite(ip: string, now: int)
    ensures CachedIP(WithIP(Some(map[]), ip, now)) == Some(ip)
    ensures CachedIPInfo(WithIP(Some(map[]), ip, now)).None?
  {
    KeysDistinct();
    assert CountryKey !in WithIP(Some(map[]), ip, now).value;
  }

  /** `saveProxyStatus(b)` makes isProxy answer `b` and changes no other key. */
  lemma ProxyStatusRoundTrip(d: Defaults, b: bool)
    requires d.Some?
    ensures IsProxy(WithProxyStatus(d, b)) == b
    ensures forall key :: key != IsProxyKey ==> StringFor(WithProxyStatus(d, b), key) == StringFor(d, key)
    ensures CachedIPInfo(WithProxyStatus(d, b)) == CachedIPInfo(d)
  {
    KeysDistinct();
  }

  /** isProxy is false on a suite where it was never written. */
  lemma ProxyStatusDefault(d: Defaults)
    requires d.None? || IsProxyKey !in d.value
    ensures !IsProxy(d)
  {
  }

  /** Writing the connection type leaves the cached record and the proxy bit alone. */
  lemma ConnectionTypeIsolated(d: Defaults, key: string)
    ensures CachedIPInfo(WithConnectionType(d, key)) == CachedIPInfo(d)
    ensures IsProxy(WithConnectionType(d, key)) == IsProxy(d)
    ensures d.Some? ==> StringFor(WithConnectionType(d, key), ConnectionTypeKey) == Some(key)
  {
    KeysDistinct();
  }

  /** The shared service object; its one piece of state is the suite it writes to. */
  class IPService {
    var defaults: Defaults

    constructor(suite: Defaults)
      ensures defaults == suite
    {
      defaults := suite;
    }

    method SaveIP(ip: string, now: int)
      modifies this
      ensures defaults == WithIP(old(defaults), ip, now)
    {
      defaults := WithIP(defaults, ip, now);
    }

    method SaveIPInfo(info: IPInfo, now: int)
      modifies this
      ensures defaults == WithIPInfo(old(defaults), info, now)
    {
      defaults := WithIPInfo(defaults, info, now);
    }

    method SaveProxyStatus(isProxy: bool)
      modifies this
      ensures defaults == WithProxyStatus(old(defaults), isProxy)
    {
      defaults := WithProxyStatus(defaults, isProxy);
    }

    method SaveConnectionType(key: string)
      modifies this
      ensures defaults == WithConnectionType(old(defaults), key)
    {
      defaults := WithConnectionType(defaults, key);
    }

    /**
     * `fetchIPInfo` (IPService.swift:38-54). `response` is the decoded ip-api.com answer,
     * None when the request or the decoding failed. A fetched record is cached before it
     * is returned; otherwise the cached record (if complete) is returned.
     */
    method FetchIPInfo(response: Option<IPInfo>, now: int) returns (info: Option<IPInfo>)
      modifies this
      ensures response.Some? ==> info == response && defaults == WithIPInfo(old(defaults), response.value, now)
      ensures response.Some? && defaults.Some? ==> CachedIPInfo(defaults) == info
      ensures response.None? ==> info == CachedIPInfo(old(defaults)) && defaults == old(defaults)
    {
      match response
      case Some(fetched) =>
        SaveIPInfo(fetched, now);
        if old(defaults).Some? {
          IPInfoRoundTrip(old(defaults), fetched, now);
        }
        info := Some(fetched);
      case None =>
        info := CachedIPInfo(defaults);
    }

    /**
     * `fetchExternalIP` (IPService.swift:56-61): the fetched address, else the cached
     * address, else NotAvailable.
     */
    method FetchExternalIP(response: Option<IPInfo>, now: int) returns (ip: string)
      modifies this
      ensures response.Some? ==> ip == response.value.ip && defaults == WithIPInfo(old(defaults), response.value, now)
      ensures response.None? ==> ip == CachedIP(old(defaults)).GetOr("N/A") && defaults == old(defaults)
    {
      var info := FetchIPInfo(response, now);
      if info.Some? {
        ip := info.value.ip;
      } else {
        ip := CachedIP(defaults).GetOr("N/A");
      }
    }
  }
}

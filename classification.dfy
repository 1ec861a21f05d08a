/**
 * The connection classification of MyIP/Network.swift: from the system proxy settings and
 * the two addresses (the one the outside world sees, and the one a proxy-bypassing probe
 * sees), decide whether traffic goes through a proxy, a VPN or directly, and which sentinel
 * to show when every public-IP service failed.
 */
module Classification {
  import opened Wrappers

  /** Shown when no address could be obtained. */
  const NotAvailable := "N/A"

  /** Shown instead of NotAvailable when a system proxy is set and the direct probe worked. */
  const ProxyError := "Proxy Error"

  /**
   * The three enable flags of the system proxy dictionary, each as read by
   * `proxies[key] as? Int`: None when the key is absent or not an integer.
   */
  datatype ProxySettings = ProxySettings(httpEnable: Option<int>, httpsEnable: Option<int>, socksEnable: Option<int>)

  /** `hasSystemProxy` (Network.swift:133-136): some flag reads as the integer 1. */
  predicate HasSystemProxy(p: ProxySettings) {
    p.httpEnable == Some(1) || p.httpsEnable == Some(1) || p.socksEnable == Some(1)
  }

  /** `ipDifferent` (Network.swift:126, 141): the direct probe produced an address other than the external one. */
  predicate IpDifferent(directIP: string, externalIP: string) {
    directIP != NotAvailable && directIP != externalIP
  }

  datatype ConnectionType = Proxy | Vpn | Direct

  /** The value written for the connection-type key. */
  function ConnectionKey(t: ConnectionType): (key: string)
    ensures key in {"proxy", "vpn", "direct"}
  {
    match t
    case Proxy => "proxy"
    case Vpn => "vpn"
    case Direct => "direct"
  }

  /** Distinct connection types are written as distinct keys, so the key can be read back. */
  lemma ConnectionKeyInjective(a: ConnectionType, b: ConnectionType)
    ensures ConnectionKey(a) == ConnectionKey(b) ==> a == b
  {
    if a != b {
      assert ConnectionKey(a)[0] != ConnectionKey(b)[0];
    }
  }

  /** What checkProxyStatus saves: the isProxy bit and the connection type. */
  datatype Verdict = Verdict(isProxy: bool, connection: ConnectionType)

  /**
   * checkProxyStatus's decision (Network.swift:122-155). `proxies` is None when the system
   * proxy dictionary could not be read; the addresses are the ones present when the direct
   * probe completes.
   */
  function Classify(proxies: Option<ProxySettings>, directIP: string, externalIP: string): (v: Verdict)
    ensures v.connection == Proxy <==> proxies.Some? && HasSystemProxy(proxies.value) && IpDifferent(directIP, externalIP)
    ensures v.connection == Vpn <==> IpDifferent(directIP, externalIP) && (proxies.None? || !HasSystemProxy(proxies.value))
    ensures v.connection == Direct <==> !IpDifferent(directIP, externalIP)
    ensures v.isProxy <==> v.connection == Proxy
  {
    var different := IpDifferent(directIP, externalIP);
    match proxies
    case None => Verdict(false, if different then Vpn else Direct)
    case Some(p) =>
      var hasProxy := HasSystemProxy(p);
      Verdict(different && hasProxy, if different then (if hasProxy then Proxy else Vpn) else Direct)
  }

  /** Without a proxy dictionary the verdict is never a proxy, whatever the addresses. */
  lemma NoDictionaryNeverProxy(directIP: string, externalIP: string)
    ensures !Classify(None, directIP, externalIP).isProxy
    ensures Classify(None, directIP, externalIP).connection != Proxy
  {
  }

  /**
   * `isProxyConnectionIssue` (Network.swift:524-535): a system proxy is set and the direct
   * probe has produced an address.
   */
  function IsProxyConnectionIssue(proxies: Option<ProxySettings>, directIP: string): (r: bool)
    ensures r ==> proxies.Some? && directIP != NotAvailable
    ensures proxies.None? || !HasSystemProxy(proxies.value) ==> !r
  {
    match proxies
    case None => false
    case Some(p) => HasSystemProxy(p) && directIP != NotAvailable
  }

  /**
   * The text shown when every public-IP service failed (Network.swift:259-264, 306-310):
   * ProxyError for a proxy connection issue, NotAvailable otherwise.
   */
  function ExhaustedSentinel(proxies: Option<ProxySettings>, directIP: string): (r: string)
    ensures r == ProxyError <==> IsProxyConnectionIssue(proxies, directIP)
    ensures r == NotAvailable <==> !IsProxyConnectionIssue(proxies, directIP)
  {
    if IsProxyConnectionIssue(proxies, directIP) then ProxyError else NotAvailable
  }

  /**
   * The two decisions agree: settings under which the classifier sees a real proxy are
   * settings under which a failed lookup is blamed on the proxy.
   */
  lemma ProxyVerdictMeansProxyIssue(proxies: Option<ProxySettings>, directIP: string, externalIP: string)
    requires Classify(proxies, directIP, externalIP).isProxy
    ensures IsProxyConnectionIssue(proxies, directIP)
    ensures ExhaustedSentinel(proxies, directIP) == ProxyError
  {
  }

  /** Worked cases of the decision table. */
  lemma DecisionExamples()
    ensures Classify(Some(ProxySettings(Some(1), None, None)), "1.1.1.1", "2.2.2.2") == Verdict(true, Proxy)
    ensures Classify(Some(ProxySettings(Some(0), Some(2), None)), "1.1.1.1", "2.2.2.2") == Verdict(false, Vpn)
    ensures Classify(Some(ProxySettings(None, None, Some(1))), "1.1.1.1", "1.1.1.1") == Verdict(false, Direct)
    ensures Classify(Some(ProxySettings(Some(1), Some(1), Some(1))), NotAvailable, "2.2.2.2") == Verdict(false, Direct)
    ensures Classify(None, "1.1.1.1", "2.2.2.2") == Verdict(false, Vpn)
    ensures ExhaustedSentinel(Some(ProxySettings(None, Some(1), None)), "1.1.1.1") == ProxyError
    ensures ExhaustedSentinel(Some(ProxySettings(None, Some(1), None)), NotAvailable) == NotAvailable
  {
    assert "1.1.1.1" != "2.2.2.2" by { assert "1.1.1.1"[0] != "2.2.2.2"[0]; }
    assert "1.1.1.1" != NotAvailable by { assert "1.1.1.1"[0] != NotAvailable[0]; }
  }
}

/**
 * The IP-identity engine of MyIP/Network.swift: the `Network` object's address fields and
 * the append-only history log, updated by `updatePublicIP`, `setFetchingStatus` and the
 * fallback chains over the external (public-IP) and the direct (proxy-bypassing) services.
 *
 * Every request, subprocess and OS query is an input: a chain receives one optional body per
 * service, in service order (None when the request failed or its data was not text), the
 * output of `dig`, and the system proxy settings at the moment they are read.
 */
module Identity {
  import opened Wrappers
  import opened Text
  import opened JsonFields
  import opened IPParsing
  import opened Classification
  import SharedCache

  /** What `setFetchingStatus` shows while a lookup is in flight. */
  const Fetching := "获取中..."

  /** The initial `priorIP`, and its value after the history is cleared. */
  const NoPrior := "None"

  /** The public-IP services, in the order they are tried (Network.swift:238-241, 295-298). */
  const ExternalServices: seq<string> := ["https://checkip.amazonaws.com", "https://icanhazip.com"]

  /** The direct-IP services, in the order they are tried (Network.swift:159-163): 3322.org, ipip.net, cip.cc. */
  const Service3322 := "http://" + Host3322 + "/dyndns/getip"
  const ServiceIpip := "http://" + HostIpip
  const ServiceCip := "http://cip.cc"
  const DirectServices: seq<string> := [Service3322, ServiceIpip, ServiceCip]

  /** The placeholder of an unset AMap key (Network.swift:569). */
  const AmapPlaceholder := "YOUR_AMAP_KEY_HERE"

  /** The fields of a `Network` object, together with the history log. */
  datatype Snapshot = Snapshot(
    externalIP: string,
    directIP: string,
    directIPLocation: string,
    priorIP: string,
    hasIpChanged: bool,
    history: seq<string>)

  /** The fields' initial values (Network.swift:16-21); `log` is whatever the history already holds. */
  function Initial(log: seq<string>): Snapshot {
    Snapshot(NotAvailable, NotAvailable, "", NoPrior, true, log)
  }

  // ---------------------------------------------------------------------------
  // updatePublicIP
  // ---------------------------------------------------------------------------

  /**
   * `updatePublicIP(message)` (Network.swift:85-93). An empty parse changes nothing. Otherwise
   * the new address becomes both externalIP and priorIP, and when it differs from the old
   * priorIP exactly one record "new, oldPrior" is appended and hasIpChanged is raised.
   */
  function AfterUpdate(s: Snapshot, message: string): (r: Snapshot)
    ensures ParseIP(message) == "" ==> r == s
    ensures ParseIP(message) != "" ==> r.externalIP == ParseIP(message) && r.priorIP == ParseIP(message)
    ensures r.directIP == s.directIP && r.directIPLocation == s.directIPLocation
    ensures s.history <= r.history && |r.history| <= |s.history| + 1
    ensures |r.history| == |s.history| + 1 <==> ParseIP(message) != "" && ParseIP(message) != s.priorIP
    ensures |r.history| == |s.history| + 1 ==> r.history[|s.history|] == ParseIP(message) + ", " + s.priorIP
    ensures r.hasIpChanged <==> s.hasIpChanged || |r.history| == |s.history| + 1
  {
    var ip := ParseIP(message);
    if ip == "" then s
    else
      var changed := s.priorIP != ip;
      s.(externalIP := ip, priorIP := ip,
         history := if changed then s.history + [ip + ", " + s.priorIP] else s.history,
         hasIpChanged := s.hasIpChanged || changed)
  }

  /**
   * Feeding a second body that parses to the same address appends nothing and changes
   * nothing more; in particular repeating an update is idempotent.
   */
  lemma UpdateSameAddressAgain(s: Snapshot, m1: string, m2: string)
    requires ParseIP(m1) == ParseIP(m2)
    ensures AfterUpdate(AfterUpdate(s, m1), m2) == AfterUpdate(s, m1)
  {
  }

  /** The history records are exactly the address changes, each paired with the address it replaced. */
  lemma UpdateChain(s: Snapshot, m1: string, m2: string)
    requires ParseIP(m1) != "" && ParseIP(m2) != "" && ParseIP(m1) != ParseIP(m2)
    requires ParseIP(m1) != s.priorIP
    ensures AfterUpdate(AfterUpdate(s, m1), m2).history
            == s.history + [ParseIP(m1) + ", " + s.priorIP, ParseIP(m2) + ", " + ParseIP(m1)]
  {
  }

  // ---------------------------------------------------------------------------
  // The external chain
  // ---------------------------------------------------------------------------

  /** A body the external chain accepts: text that parses to a non-empty address. */
  predicate Parses(body: Option<string>) {
    body.Some? && ParseIP(body.value) != ""
  }

  /** The index of the first true flag from `i` on: the first service whose answer is taken. */
  function FirstTrue(flags: seq<bool>, i: nat): (r: Option<nat>)
    requires i <= |flags|
    ensures r.Some? ==> i <= r.value < |flags| && flags[r.value]
    ensures r.Some? ==> forall k :: i <= k < r.value ==> !flags[k]
    ensures r.None? <==> forall k :: i <= k < |flags| ==> !flags[k]
    decreases |flags| - i
  {
    if i == |flags| then None
    else if flags[i] then Some(i)
    else FirstTrue(flags, i + 1)
  }

  /** Which external bodies are accepted, service by service (see AcceptedAt). */
  function Accepted(bodies: seq<Option<string>>): (flags: seq<bool>)
    ensures |flags| == |bodies|
  {
    if bodies == [] then [] else [Parses(bodies[0])] + Accepted(bodies[1..])
  }

  lemma {:induction false} AcceptedAt(bodies: seq<Option<string>>, k: nat)
    requires k < |bodies|
    ensures Accepted(bodies)[k] == Parses(bodies[k])
  {
    if k > 0 {
      AcceptedAt(bodies[1..], k - 1);
    }
  }

  /** The flags of a prefix are the prefix of the flags. */
  lemma {:induction false} AcceptedPrefix(bodies: seq<Option<string>>, n: nat)
    requires n <= |bodies|
    ensures Accepted(bodies[..n]) == Accepted(bodies)[..n]
  {
    if n > 0 {
      assert bodies[..n][1..] == bodies[1..][..n - 1];
      AcceptedPrefix(bodies[1..], n - 1);
    }
  }

  /**
   * The DNS fallback after every external service failed (Network.swift:248-264): an accepted
   * `dig` answer becomes externalIP and priorIP without a history record; otherwise
   * externalIP shows the exhaustion sentinel and priorIP is kept.
   */
  function AfterDnsFallback(s: Snapshot, digOutput: Option<string>, proxies: Option<ProxySettings>): (r: Snapshot)
    ensures r == s.(externalIP := r.externalIP, priorIP := r.priorIP)
    ensures OpenDnsAnswer(digOutput).Some? ==> IsDottedShape(r.externalIP) && r.priorIP == r.externalIP
    ensures OpenDnsAnswer(digOutput).None? ==> (r.externalIP == ProxyError || r.externalIP == NotAvailable) && r.priorIP == s.priorIP
  {
    match OpenDnsAnswer(digOutput)
    case Some(ip) => s.(externalIP := ip, priorIP := ip)
    case None => s.(externalIP := ExhaustedSentinel(proxies, s.directIP))
  }

  /** `getPublicIPWait` (Network.swift:235-292): fetching status, then the chain, then the DNS fallback. */
  function AfterWait(s: Snapshot, bodies: seq<Option<string>>, digOutput: Option<string>, proxies: Option<ProxySettings>): (r: Snapshot)
    ensures r.directIP == s.directIP && r.directIPLocation == s.directIPLocation
    ensures s.history <= r.history && |r.history| <= |s.history| + 1
    ensures s.hasIpChanged ==> r.hasIpChanged
    ensures |r.history| == |s.history| + 1 ==> r.hasIpChanged
  {
    var fetching := s.(externalIP := Fetching);
    match FirstTrue(Accepted(bodies), 0)
    case Some(k) => AcceptedAt(bodies, k); AfterUpdate(fetching, bodies[k].value)
    case None => AfterDnsFallback(fetching, digOutput, proxies)
  }

  /**
   * `getPublicIPNoWait` (Network.swift:294-335): the same chain without the fetching status
   * and without the DNS fallback; on exhaustion the sentinel goes into externalIP and priorIP.
   */
  function AfterNoWait(s: Snapshot, bodies: seq<Option<string>>, proxies: Option<ProxySettings>): (r: Snapshot)
    ensures r.directIP == s.directIP && r.directIPLocation == s.directIPLocation
    ensures s.history <= r.history && |r.history| <= |s.history| + 1
    ensures s.hasIpChanged ==> r.hasIpChanged
    ensures |r.history| == |s.history| + 1 ==> r.hasIpChanged
  {
    match FirstTrue(Accepted(bodies), 0)
    case Some(k) => AcceptedAt(bodies, k); AfterUpdate(s, bodies[k].value)
    case None =>
      var sentinel := ExhaustedSentinel(proxies, s.directIP);
      s.(externalIP := sentinel, priorIP := sentinel)
  }

  /** Changing the flags after `k` does not change the first true index when it is at most `k`. */
  lemma {:induction false} FirstTruePrefix(flags: seq<bool>, other: seq<bool>, i: nat, k: nat)
    requires i <= k < |flags| && k < |other| && flags[..k + 1] == other[..k + 1]
    requires flags[k]
    ensures FirstTrue(flags, i) == FirstTrue(other, i)
    decreases k - i
  {
    assert flags[i] == flags[..k + 1][i] == other[..k + 1][i] == other[i];
    if !flags[i] {
      FirstTruePrefix(flags, other, i + 1, k);
    }
  }

  /** The first true flag is at `k` when `k` is true and every flag before it is false. */
  lemma FirstTrueAt(flags: seq<bool>, k: nat)
    requires k < |flags| && flags[k] && forall j :: 0 <= j < k ==> !flags[j]
    ensures FirstTrue(flags, 0) == Some(k)
  {
  }

  /** When no body is accepted there is no first accepted one. */
  lemma NoneAccepted(bodies: seq<Option<string>>)
    requires forall k :: 0 <= k < |bodies| ==> !Parses(bodies[k])
    ensures FirstTrue(Accepted(bodies), 0).None?
  {
    forall k | 0 <= k < |bodies| ensures !Accepted(bodies)[k] {
      AcceptedAt(bodies, k);
    }
  }

  /** Bodies that agree up to the first accepted one, at `k`, have their first accepted body at `k`. */
  lemma FirstAcceptedAt(bodies: seq<Option<string>>, later: seq<Option<string>>, k: nat)
    requires k < |bodies| && k < |later| && later[..k + 1] == bodies[..k + 1]
    requires FirstTrue(Accepted(bodies), 0) == Some(k)
    ensures FirstTrue(Accepted(later), 0) == Some(k)
  {
    AcceptedPrefix(bodies, k + 1);
    AcceptedPrefix(later, k + 1);
    FirstTruePrefix(Accepted(bodies), Accepted(later), 0, k);
  }

  /**
   * The chain tries the services strictly in order and stops at the first accepted body:
   * the outcome is the update with that body, whatever the later services and `dig` would
   * have answered.
   */
  lemma WaitStopsAtFirstAccepted(s: Snapshot, bodies: seq<Option<string>>, later: seq<Option<string>>,
                                 dig: Option<string>, dig2: Option<string>, proxies: Option<ProxySettings>, proxies2: Option<ProxySettings>, k: nat)
    requires k < |bodies| && Parses(bodies[k]) && forall j :: 0 <= j < k ==> !Parses(bodies[j])
    requires k < |later| && later[..k + 1] == bodies[..k + 1]
    ensures AfterWait(s, bodies, dig, proxies) == AfterUpdate(s.(externalIP := Fetching), bodies[k].value)
    ensures AfterWait(s, later, dig2, proxies2) == AfterWait(s, bodies, dig, proxies)
    ensures AfterNoWait(s, later, proxies2) == AfterNoWait(s, bodies, proxies) == AfterUpdate(s, bodies[k].value)
  {
    forall j | 0 <= j <= k ensures Accepted(bodies)[j] == Parses(bodies[j]) {
      AcceptedAt(bodies, j);
    }
    FirstTrueAt(Accepted(bodies), k);
    FirstAcceptedAt(bodies, later, k);
    assert later[k] == later[..k + 1][k] == bodies[..k + 1][k] == bodies[k];
  }

  /**
   * When every service fails, an accepted DNS answer sets externalIP and priorIP to it and
   * leaves the history and the change flag as they were.
   */
  lemma DnsAnswerAddsNoHistory(s: Snapshot, bodies: seq<Option<string>>, dig: Option<string>, proxies: Option<ProxySettings>)
    requires forall k :: 0 <= k < |bodies| ==> !Parses(bodies[k])
    requires OpenDnsAnswer(dig).Some?
    ensures var r := AfterWait(s, bodies, dig, proxies);
            && r.externalIP == OpenDnsAnswer(dig).value && r.priorIP == OpenDnsAnswer(dig).value
            && IsDottedShape(r.externalIP)
            && r.history == s.history && r.hasIpChanged == s.hasIpChanged
  {
    NoneAccepted(bodies);
  }

  /**
   * When every service and the DNS query fail, the wait chain shows "Proxy Error" exactly
   * when a system proxy is set and the direct address is known, "N/A" otherwise, and keeps
   * priorIP and the history.
   */
  lemma WaitExhausted(s: Snapshot, bodies: seq<Option<string>>, dig: Option<string>, proxies: Option<ProxySettings>)
    requires forall k :: 0 <= k < |bodies| ==> !Parses(bodies[k])
    requires OpenDnsAnswer(dig).None?
    ensures var r := AfterWait(s, bodies, dig, proxies);
            && (r.externalIP == ProxyError <==> proxies.Some? && HasSystemProxy(proxies.value) && s.directIP != NotAvailable)
            && (r.externalIP == NotAvailable <==> !(proxies.Some? && HasSystemProxy(proxies.value) && s.directIP != NotAvailable))
            && r.priorIP == s.priorIP && r.history == s.history
  {
    NoneAccepted(bodies);
  }

  /**
   * The no-wait chain, exhausted, copies the sentinel into priorIP as well, so the next
   * update to a dotted address records a change away from "N/A" or "Proxy Error".
   */
  lemma NoWaitCopiesSentinel(s: Snapshot, bodies: seq<Option<string>>, proxies: Option<ProxySettings>, message: string)
    requires forall k :: 0 <= k < |bodies| ==> !Parses(bodies[k])
    requires IsDottedShape(ParseIP(message))
    ensures var r := AfterNoWait(s, bodies, proxies);
            && r.priorIP == r.externalIP == ExhaustedSentinel(proxies, s.directIP)
            && r.history == s.history
            && AfterUpdate(r, message).history == s.history + [ParseIP(message) + ", " + r.priorIP]
  {
    NoneAccepted(bodies);
    var r := AfterNoWait(s, bodies, proxies);
    var ip := ParseIP(message);
    DottedCharacters(ip);
    assert ip[0] != r.priorIP[0];
  }

  // ---------------------------------------------------------------------------
  // The direct chain
  // ---------------------------------------------------------------------------

  /**
   * What one direct-IP service contributes (Network.swift:192-217): its non-empty output run
   * through the extractor its URL selects, when that yields a non-empty address.
   */
  function DirectCandidate(service: string, output: Option<string>): (r: Option<string>)
    ensures r.Some? <==> && output.Some? && output.value != ""
                         && ExtractDirectIP(DirectFormatOf(service), output.value).Some?
                         && ExtractDirectIP(DirectFormatOf(service), output.value).value != ""
    ensures r.Some? ==> ExtractDirectIP(DirectFormatOf(service), output.value) == r
  {
    if output.Some? && output.value != "" then
      match ExtractDirectIP(DirectFormatOf(service), output.value)
      case Some(ip) => if ip != "" then Some(ip) else None
      case None => None
    else None
  }

  /** Which direct services yield a candidate, service by service. */
  function Found(services: seq<string>, outputs: seq<Option<string>>): (flags: seq<bool>)
    requires |outputs| == |services|
    ensures |flags| == |services| && forall k :: 0 <= k < |services| ==> flags[k] == DirectCandidate(services[k], outputs[k]).Some?
  {
    seq(|services|, k requires 0 <= k < |services| => DirectCandidate(services[k], outputs[k]).Some?)
  }

  /** Service `k` is the first, in order, that yields a candidate. */
  predicate FirstCandidateAt(services: seq<string>, outputs: seq<Option<string>>, k: int)
    requires |outputs| == |services|
  {
    && 0 <= k < |services| && DirectCandidate(services[k], outputs[k]).Some?
    && forall j :: 0 <= j < k ==> DirectCandidate(services[j], outputs[j]).None?
  }

  /** `getDirectIP` (Network.swift:158-233): the first candidate becomes directIP; none leaves it unchanged. */
  function AfterDirect(s: Snapshot, services: seq<string>, outputs: seq<Option<string>>): (r: Snapshot)
    requires |outputs| == |services|
    ensures r == s.(directIP := r.directIP)
    ensures forall k :: FirstCandidateAt(services, outputs, k) ==> r.directIP == DirectCandidate(services[k], outputs[k]).value
    ensures (forall k :: 0 <= k < |services| ==> DirectCandidate(services[k], outputs[k]).None?) ==> r == s
  {
    FirstCandidateFound(services, outputs);
    match FirstTrue(Found(services, outputs), 0)
    case Some(k) => s.(directIP := DirectCandidate(services[k], outputs[k]).value)
    case None => s
  }

  /** The first flag of Found is the first candidate, and there is none when no service yields one. */
  lemma FirstCandidateFound(services: seq<string>, outputs: seq<Option<string>>)
    requires |outputs| == |services|
    ensures forall k :: FirstCandidateAt(services, outputs, k) ==> FirstTrue(Found(services, outputs), 0) == Some(k)
    ensures (forall k :: 0 <= k < |services| ==> DirectCandidate(services[k], outputs[k]).None?) ==> FirstTrue(Found(services, outputs), 0).None?
  {
    var flags := Found(services, outputs);
    forall k | FirstCandidateAt(services, outputs, k) ensures FirstTrue(flags, 0) == Some(k) {
      FirstTrueAt(flags, k);
    }
  }

  /**
   * The direct chain tries the services strictly in order and stops at the first candidate:
   * outputs of the services after it do not change the outcome.
   */
  lemma DirectStopsAtFirstCandidate(s: Snapshot, services: seq<string>, outputs: seq<Option<string>>, later: seq<Option<string>>, k: nat)
    requires |outputs| == |services| == |later|
    requires FirstCandidateAt(services, outputs, k) && later[..k + 1] == outputs[..k + 1]
    ensures AfterDirect(s, services, later) == AfterDirect(s, services, outputs)
            == s.(directIP := DirectCandidate(services[k], outputs[k]).value)
  {
    forall j | 0 <= j <= k ensures later[j] == outputs[j] {
      assert later[j] == later[..k + 1][j];
    }
    assert FirstCandidateAt(services, later, k);
  }

  /** The 3322.org service selects the plain-address extractor. */
  lemma FirstServiceFormat()
    ensures DirectFormatOf(Service3322) == PlainAddress
  {
    ContainsMiddle("http://", Host3322, "/dyndns/getip");
  }

  /** The ipip.net service selects the labelled-page extractor. */
  lemma SecondServiceFormat()
    ensures DirectFormatOf(ServiceIpip) == LabelledPage
  {
    IpipLacksDigitOne();
    IpipNamesHost();
  }

  lemma IpipLacksDigitOne()
    ensures !Contains(ServiceIpip, Host3322)
  {
    NotContainsFirstChar(ServiceIpip, Host3322);
  }

  lemma IpipNamesHost()
    ensures Contains(ServiceIpip, HostIpip)
  {
    ContainsMiddle("http://", HostIpip, "");
    assert "http://" + HostIpip + "" == "http://" + HostIpip;
  }

  /** The cip.cc service selects the IP-line extractor. */
  lemma ThirdServiceFormat()
    ensures DirectFormatOf(ServiceCip) == IpLine
  {
    NotContainsFirstChar(ServiceCip, Host3322);
    NotContainsFirstChar(ServiceCip, HostIpip);
  }

  /**
   * The direct chain changes nothing but directIP, changes it only to a candidate, and leaves
   * it unchanged when every service fails. An address from the first two services has the
   * dotted shape; the cip.cc line is not validated.
   */
  lemma DirectOutcome(s: Snapshot, outputs: seq<Option<string>>)
    requires |outputs| == |DirectServices|
    ensures var r := AfterDirect(s, DirectServices, outputs);
            (forall k :: 0 <= k < |outputs| ==> DirectCandidate(DirectServices[k], outputs[k]).None?) ==> r == s
    ensures var r := AfterDirect(s, DirectServices, outputs);
            FirstTrue(Found(DirectServices, outputs), 0).Some? && FirstTrue(Found(DirectServices, outputs), 0).value < 2
            ==> IsDottedShape(r.directIP)
  {
    var first := FirstTrue(Found(DirectServices, outputs), 0);
    if first.Some? && first.value < 2 {
      var k := first.value;
      FirstServiceFormat();
      SecondServiceFormat();
      var format := DirectFormatOf(DirectServices[k]);
      assert format != IpLine;
      ExtractedShapes(format, outputs[k].value);
    }
  }

  // ---------------------------------------------------------------------------
  // fetchDirectIPLocation's key guard
  // ---------------------------------------------------------------------------

  /** The AMap key guard (Network.swift:569-572): non-empty and not the placeholder. */
  predicate AmapKeyConfigured(key: string) {
    key != "" && key != AmapPlaceholder
  }

  /** The location after the AMap answer: replaced only when the key is set and the answer is accepted. */
  function AfterDirectLocation(s: Snapshot, amapKey: string, response: Option<JsonObject>): (r: Snapshot)
    ensures r == s.(directIPLocation := r.directIPLocation)
    ensures r.directIPLocation != s.directIPLocation ==> AmapKeyConfigured(amapKey) && AmapLocation(response).Some?
    ensures AmapKeyConfigured(amapKey) && AmapLocation(response).Some? ==> r.directIPLocation == AmapLocation(response).value
  {
    if AmapKeyConfigured(amapKey) && AmapLocation(response).Some? then s.(directIPLocation := AmapLocation(response).value)
    else s
  }

  // ---------------------------------------------------------------------------
  // The Network object
  // ---------------------------------------------------------------------------

  class Network {
    var externalIP: string
    var directIP: string
    var directIPLocation: string
    var priorIP: string
    var hasIpChanged: bool
    /** The `History` log this object appends to. */
    var history: seq<string>

    function State(): Snapshot
      reads this
    {
      Snapshot(externalIP, directIP, directIPLocation, priorIP, hasIpChanged, history)
    }

    constructor(log: seq<string>)
      ensures State() == Initial(log)
    {
      externalIP := NotAvailable;
      directIP := NotAvailable;
      directIPLocation := "";
      priorIP := NoPrior;
      hasIpChanged := true;
      history := log;
    }

    /** `setFetchingStatus` (Network.swift:24-26). */
    method SetFetchingStatus()
      modifies this
      ensures State() == old(State()).(externalIP := Fetching)
    {
      externalIP := Fetching;
    }

    /** `setHasIpChanged` (Network.swift:32-34). */
    method SetHasIpChanged(value: bool)
      modifies this
      ensures State() == old(State()).(hasIpChanged := value)
    {
      hasIpChanged := value;
    }

    /**
     * `updatePublicIP` (Network.swift:85-101), without the geo-info and proxy-check requests
     * it starts (RecordGeoInfo and CheckProxyStatus).
     */
    method UpdatePublicIP(message: string)
      modifies this
      ensures State() == AfterUpdate(old(State()), message)
    {
      var newIP := ParseIP(message);
      if newIP != "" {
        if priorIP != newIP {
          history := history + [newIP + ", " + priorIP];
          hasIpChanged := true;
        }
        externalIP := newIP;
        priorIP := newIP;
      }
    }

    /** The exhausted end of the wait chain (Network.swift:248-264). */
    method DnsFallback(digOutput: Option<string>, proxies: Option<ProxySettings>)
      modifies this
      ensures State() == AfterDnsFallback(old(State()), digOutput, proxies)
    {
      var answer := OpenDnsAnswer(digOutput);
      if answer.Some? {
        externalIP := answer.value;
        priorIP := answer.value;
      } else if IsProxyConnectionIssue(proxies, directIP) {
        externalIP := ProxyError;
        assert externalIP == ExhaustedSentinel(proxies, directIP);
      } else {
        externalIP := NotAvailable;
        assert externalIP == ExhaustedSentinel(proxies, directIP);
      }
    }

    /** `getPublicIPWait` with `tryExternalIPService` (Network.swift:235-292), one body per service. */
    method GetPublicIPWait(bodies: seq<Option<string>>, digOutput: Option<string>, proxies: Option<ProxySettings>)
      requires |bodies| == |ExternalServices|
      modifies this
      ensures State() == AfterWait(old(State()), bodies, digOutput, proxies)
    {
      SetFetchingStatus();
      var index := 0;
      while index < |bodies| && !Parses(bodies[index])
        invariant 0 <= index <= |bodies|
        invariant FirstTrue(Accepted(bodies), index) == FirstTrue(Accepted(bodies), 0)
        invariant State() == old(State()).(externalIP := Fetching)
        decreases |bodies| - index
      {
        AcceptedAt(bodies, index);
        index := index + 1;
      }
      if index < |bodies| {
        AcceptedAt(bodies, index);
        UpdatePublicIP(bodies[index].value);
      } else {
        DnsFallback(digOutput, proxies);
      }
    }

    /** `getPublicIPNoWait` with `tryExternalIPServiceNoWait` (Network.swift:294-335). */
    method GetPublicIPNoWait(bodies: seq<Option<string>>, proxies: Option<ProxySettings>)
      requires |bodies| == |ExternalServices|
      modifies this
      ensures State() == AfterNoWait(old(State()), bodies, proxies)
    {
      var index := 0;
      while index < |bodies| && !Parses(bodies[index])
        invariant 0 <= index <= |bodies|
        invariant FirstTrue(Accepted(bodies), index) == FirstTrue(Accepted(bodies), 0)
        invariant State() == old(State())
        decreases |bodies| - index
      {
        AcceptedAt(bodies, index);
        index := index + 1;
      }
      if index < |bodies| {
        AcceptedAt(bodies, index);
        UpdatePublicIP(bodies[index].value);
      } else {
        if IsProxyConnectionIssue(proxies, directIP) {
          externalIP := ProxyError;
        } else {
          externalIP := NotAvailable;
        }
        priorIP := externalIP;
      }
    }

    /** `getDirectIP` with `tryDirectIPService` (Network.swift:158-233), one curl output per service. */
    method GetDirectIP(outputs: seq<Option<string>>)
      requires |outputs| == |DirectServices|
      modifies this
      ensures State() == AfterDirect(old(State()), DirectServices, outputs)
    {
      var index := 0;
      while index < |DirectServices|
        invariant 0 <= index <= |DirectServices|
        invariant FirstTrue(Found(DirectServices, outputs), index) == FirstTrue(Found(DirectServices, outputs), 0)
        invariant State() == old(State())
        decreases |DirectServices| - index
      {
        var candidate := DirectCandidate(DirectServices[index], outputs[index]);
        if candidate.Some? {
          directIP := candidate.value;
          return;
        }
        index := index + 1;
      }
    }

    /**
     * `checkProxyStatus` (Network.swift:122-155): run the direct chain, classify with the
     * addresses it leaves, and save the proxy bit and the connection type to the shared cache.
     */
    method CheckProxyStatus(proxies: Option<ProxySettings>, outputs: seq<Option<string>>, cache: SharedCache.IPService)
      requires |outputs| == |DirectServices|
      modifies this, cache
      ensures State() == AfterDirect(old(State()), DirectServices, outputs)
      ensures var v := Classify(proxies, directIP, externalIP);
              cache.defaults == SharedCache.WithConnectionType(SharedCache.WithProxyStatus(old(cache.defaults), v.isProxy), ConnectionKey(v.connection))
    {
      GetDirectIP(outputs);
      var v := Classify(proxies, directIP, externalIP);
      cache.SaveProxyStatus(v.isProxy);
      cache.SaveConnectionType(ConnectionKey(v.connection));
    }

    /**
     * The completion of `fetchGeoInfo` (Network.swift:104-117): with a country and a city the
     * whole record is saved, with an empty country code; otherwise only the address.
     */
    method RecordGeoInfo(ip: string, geo: Option<JsonObject>, cache: SharedCache.IPService, now: int)
      modifies cache
      ensures var country := if geo.Some? then StringField(geo.value, "country") else None;
              var city := if geo.Some? then StringField(geo.value, "city") else None;
              cache.defaults == if country.Some? && city.Some?
                                then SharedCache.WithIPInfo(old(cache.defaults), SharedCache.IPInfo(ip, country.value, "", city.value), now)
                                else SharedCache.WithIP(old(cache.defaults), ip, now)
    {
      var country := if geo.Some? then StringField(geo.value, "country") else None;
      var city := if geo.Some? then StringField(geo.value, "city") else None;
      if country.Some? && city.Some? {
        cache.SaveIPInfo(SharedCache.IPInfo(ip, country.value, "", city.value), now);
      } else {
        cache.SaveIP(ip, now);
      }
    }

    /** `fetchDirectIPLocation` (Network.swift:567-604), with the AMap answer as input. */
    method ApplyDirectLocation(amapKey: string, response: Option<JsonObject>)
      modifies this
      ensures State() == AfterDirectLocation(old(State()), amapKey, response)
    {
      if AmapKeyConfigured(amapKey) {
        var location := AmapLocation(response);
        if location.Some? {
          directIPLocation := location.value;
        }
      }
    }
  }
}

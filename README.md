# MyIP — a verified model of the address-identity core

MyIP is a macOS menu-bar application with a home-screen widget. It shows the public
("external") IPv4 address, the address seen by a probe that bypasses any proxy ("direct"),
and whether traffic goes through a proxy, a VPN or directly. It logs every change of the
public address.

This project models that core in Dafny and proves properties of it. The modules follow the
source files:

- `Wrappers` / `JsonFields` (wrappers.dfy). Swift optionals, and decoded JSON objects read
  with `json[key] as? String`.
- `Text` (text.dfy). The Foundation string operations the core relies on:
  `trimmingCharacters(in:)`, `components(separatedBy:)`, `hasPrefix`, `contains`, and
  splitting into whitespace-separated fields.
- `IPParsing` (parsing.dfy). The pure text processing of `MyIP/Network.swift`:
  - `isValidIP` and Swift's `Int(String)`;
  - the two dotted-quad regular expressions, modelled by the match they produce;
  - the three readings of `parseIP`;
  - the per-service extractors of the direct probe;
  - the acceptance test of the OpenDNS answer;
  - the `netstat` default-route parser (`GetGateway`, an imperative loop);
  - the virtual-interface classifier;
  - the AMap location label.
- `Classification` (classification.dfy). The proxy / VPN / direct decision of
  `checkProxyStatus`, and the "Proxy Error" / "N/A" sentinel chosen when every public-IP
  service fails.
- `SharedCache` (cache.dfy). `IPService`, the app-group `UserDefaults` store shared by the
  app and the widget. It is a class whose one field is the suite, a map from keys to
  values, or nothing when the suite cannot be opened.
- `Identity` (identity.dfy). The `Network` object: its address fields and the append-only
  history log, updated by `updatePublicIP` and by the fallback chains over the external and
  direct services. Each method is proved against a pure transition function on a
  `Snapshot` of the fields, and the properties are lemmas about those functions.
- `Reachability` (monitor.dfy). `NetworkMonitor`: the monitoring flag, the availability
  test on the reachability flags, and the events a flag change emits.
- `MenuBarApp` (app.dfy). The decisions in `AppDelegate`:
  - command-line processing over the preferences;
  - the status-bar icon and the notification text;
  - whether the Direct menu rows are shown;
  - clearing the history;
  - how the periodic update handles the change flag.
- `Widget` (widget.dfy). The widget's timeline and snapshot entries, its refresh interval,
  its acceptance of the ipwho.is answer, and the icon, colour and body it renders.

Requests, subprocesses (`curl`, `dig`, `netstat`, `ps`), system-configuration queries and
clocks are all inputs. A chain over services receives one optional response body per
service, in service order (None when the request failed). The current time is an integer
`now`.

Where the code differs from what one might assume, the model follows the code:

- `updatePublicIP` sets `priorIP` to the NEW address, not to the address it replaces. The
  replaced address appears only in the history record `"new, old"`.
- "Proxy Error" is shown only when a system proxy is enabled AND the direct probe has
  produced an address (`isProxyConnectionIssue`). A proxy setting alone is not enough.
- The DNS fallback runs `dig +short myip.opendns.com @208.67.222.222` (OpenDNS's resolver
  given as a literal address, so the lookup does not depend on the local resolver), and only in
  the waiting chain. The non-waiting chain has no DNS fallback, and copies the sentinel
  into `priorIP` as well as into `externalIP`.
- The Cloudflare-trace reading of `parseIP` does not validate the address it returns.
  `TraceBranchHidesAddress` shows that a body containing `ip=` only inside another word
  parses to "", even when it holds an address.

## Model

| member | source | states |
|---|---|---|
| Text.Trim | MyIP/Network.swift:45 | The trimmed text is a slice of the input that neither starts nor ends with a blank, and everything cut away around it is blank. |
| Text.TrimPadded | MyIP/Network.swift:45 | Trimming recovers exactly the text between any blank padding. |
| Text.TrimKeeps | MyIP/Network.swift:45 | Every character of the trimmed text occurs in the input. |
| Text.Split | MyIP/Network.swift:76 | Splitting yields at least one part, and no part contains the separator. |
| Text.JoinSplit | MyIP/Network.swift:76 | Joining the parts of a split with the separator gives back the original text. |
| Text.SplitJoin | MyIP/Network.swift:76 | Splitting a join of separator-free parts gives back those parts. |
| Text.FirstWithPrefix | MyIP/Network.swift:51 | The result is the index of the first line with the prefix: that line has it and none before it does; None exactly when no line has it. |
| Text.FirstWithPrefixAt | MyIP/Network.swift:51 | A line that has the prefix, with no earlier line having it, is the one found. |
| Text.LastOccurrenceEnd | MyIP/Network.swift:52 | Scanning without overlap, the separator occurs right before the position found and at no position from there on. None means it occurs nowhere in the scanned range. |
| Text.AfterLastOccurrence | MyIP/Network.swift:52 | The text after the last separator is a suffix preceded by the separator and holds no separator. None means the separator does not occur. |
| Text.LastComponent | MyIP/Network.swift:52 | The last component is a suffix of the text with no separator in it. It is the whole text when the separator does not occur, and otherwise exactly the text after the separator's last occurrence. |
| Text.Fields | MyIP/Network.swift:504 | Every field is non-empty and holds no space or tab. |
| Text.FieldsOfSpaced | MyIP/Network.swift:504 | Laying out non-empty space-free words with runs of spaces before, between (non-empty) and after them, and splitting again, gives back exactly those words in order. |
| Text.FieldsCover | MyIP/Network.swift:504 | Every text is its own fields laid out that way, so the fields are exactly the maximal runs of non-space characters, in order. |
| Text.ContainsIff | MyIP/Network.swift:50 | `contains` holds exactly when the text occurs at some position. |
| IPParsing.ParseDecimal | MyIP/Network.swift:80 | `Int(...)` reads an unsigned run of ASCII digits as its decimal value. |
| IPParsing.ParseInt | MyIP/Network.swift:80 | `Int(...)` accepts only an optional leading sign followed by digits, and a negative value needs a leading minus. |
| IPParsing.DecimalRoundTrip | MyIP/Network.swift:80 | The canonical decimal text of n reads back as n, with one, two or three digits below 10, 100 and 1000. |
| IPParsing.OctetText | MyIP/Network.swift:78-81 | The canonical text of a value 0..255 passes the octet test, has one to three characters and no dot. |
| IPParsing.IsValidIP | MyIP/Network.swift:75-83 | Four dot-separated parts, each read by `Int(...)` with a value in 0...255. This is a definition without a contract; FormattedAddressIsValid, LenientOctets, OctetOutOfRange and ValidIPCharacters state its consequences. |
| IPParsing.SplitFour | MyIP/Network.swift:76-77 | Four dot-free parts joined by dots split back into exactly those four parts. |
| IPParsing.FormattedAddressIsValid | MyIP/Network.swift:75-83 | Every address a.b.c.d with octets 0..255 written in decimal passes isValidIP and has the dotted shape of the regular expressions. |
| IPParsing.LenientOctets | MyIP/Network.swift:78-81 | isValidIP accepts "+1.-0.00.255": a sign and leading zeros are allowed, because `Int(...)` accepts them. |
| IPParsing.OctetOutOfRange | MyIP/Network.swift:78-81 | Any text with a part that reads as a number above 255 is invalid, whatever the other parts are. |
| IPParsing.OctetOutOfRangeExample | MyIP/Network.swift:78-81 | "256.1.1.1" has four well-formed parts, the first reading as 256, and is invalid. |
| IPParsing.ValidIPCharacters | MyIP/Network.swift:75-83 | A valid address is non-empty and contains only digits, signs and dots, so no blanks. |
| IPParsing.DigitRun | MyIP/Network.swift:58 | The run found is maximal: all digits, followed by a non-digit or the end. |
| IPParsing.FirstMatchFrom | MyIP/Network.swift:58-64 | The result is the leftmost start where the pattern matches, with the match's end; None exactly when it matches nowhere. |
| IPParsing.MatchIsDotted | MyIP/Network.swift:58 | Every match of either dotted-quad pattern is four dot-separated groups of one to three digits. |
| IPParsing.DottedCharacters | MyIP/Network.swift:58 | A dotted-shape text has at least 7 characters, only digits and dots, and starts and ends with a digit. |
| IPParsing.DottedIsMatched | MyIP/Network.swift:58-64 | A dotted-shape slice bounded by non-word characters is where the word-bounded pattern matches. |
| IPParsing.ParseIP | MyIP/Network.swift:41-73 | Whatever reading applies, the parsed address is one line with no space or tab at either end. |
| IPParsing.ParsePaddedAddress | MyIP/Network.swift:45-48 | Reading 1 of parseIP: a valid address with any blank or newline padding parses to itself. |
| IPParsing.TraceLineValue | MyIP/Network.swift:50-55 | The trace reading is "" when no line starts with `ip=`. Otherwise it holds no `=`, no line break and no surrounding spaces. |
| IPParsing.ParseTraceLine | MyIP/Network.swift:50-55 | Reading 2: when the trimmed body is invalid and `ip=` occurs, the result is the trace reading, with that reading's shape. |
| IPParsing.TraceLineTail | MyIP/Network.swift:52 | The text after the last `=` of the line `ip=v` is `v` when `v` has no `=`. |
| IPParsing.ParseTraceValue | MyIP/Network.swift:50-55 | When the trimmed body is invalid and its first line starting with `ip=` is `ip=v`, the body parses to `v`, for any `v` without `=` and without surrounding spaces. |
| IPParsing.FirstDottedMatchEmpty | MyIP/Network.swift:56-70 | The regular-expression reading is "" exactly when the pattern matches at no position. |
| IPParsing.FirstDottedMatchLeftmost | MyIP/Network.swift:56-70 | A non-empty regular-expression reading occurs in the body at a position where the word-bounded pattern matches exactly that text, and the pattern matches at no earlier position. |
| IPParsing.FirstDottedMatch | MyIP/Network.swift:56-70 | A non-empty regular-expression reading is four dot-separated groups of one to three digits. |
| IPParsing.ParseFallback | MyIP/Network.swift:56-70 | Reading 3: when the trimmed body is invalid and holds no `ip=`, the result is the regular-expression reading, so "" or a dotted-shape text. |
| IPParsing.ParseDotted | MyIP/Network.swift:41-73 | A dotted-shape text parses to itself, whether or not its octets are in range. |
| IPParsing.TraceBranchHidesAddress | MyIP/Network.swift:50-55 | "zip=1.2.3.4" parses to "". The `ip=` test matches inside `zip=`, no line starts with `ip=`, and the regular expression is then never tried. |
| IPParsing.ExtractedShapes | MyIP/Network.swift:196-215 | The 3322.org and ipip.net extractors yield only dotted-shape text: the whole trimmed output, or the slice matched at the leftmost position where the ipip pattern matches. |
| IPParsing.PlainAddressRoundTrip | MyIP/Network.swift:197-201 | A plain-address service printing an address and a newline is read back exactly. |
| IPParsing.DirectFormatOf | MyIP/Network.swift:196-208 | The extractor is chosen by URL substring, "118.184.169.48" first, then "myip.ipip.net", then cip.cc. This is a definition without a contract; FirstServiceFormat, SecondServiceFormat and ThirdServiceFormat state the choice for each service. |
| IPParsing.ExtractDirectIP | MyIP/Network.swift:196-215 | The three extractors. This is a definition without a contract; ExtractedShapes, PlainAddressRoundTrip and IpLineRoundTrip state what each one yields. |
| IPParsing.IpLineTail | MyIP/Network.swift:212 | The text after the last ": " of the cip.cc line `IP\t: v` is `v` when `v` has no ": ". |
| IPParsing.IpLineRoundTrip | MyIP/Network.swift:208-214 | When the first line starting with "IP" is `IP\t: v`, the cip.cc extractor yields exactly `v`, for any `v` without ": " and without surrounding spaces. |
| IPParsing.OpenDnsAnswer | MyIP/Network.swift:552-559 | The answer is accepted exactly when the trimmed output is non-empty and has the dotted shape, and the accepted answer is that trimmed output. |
| IPParsing.OpenDnsRoundTrip | MyIP/Network.swift:552-559 | `dig` printing an address on its own line is accepted; blank output is rejected. |
| IPParsing.GetGateway | MyIP/Network.swift:476-521 | The loop returns the gateway field of the first default route of the interface. The result is "" exactly when there is no such route (or netstat gave no text), and a found gateway has the dotted shape. |
| IPParsing.InterfaceApp | MyIP/Network.swift:337-401 | The application behind an interface, by name prefix, with the file-system and `ps` checks for `bridge*` as inputs. This is a definition without a contract; InterfaceAppCases states its cases. |
| IPParsing.InterfaceAppCases | MyIP/Network.swift:337-401 | Only the virtual prefixes name an application, so `en*` and `lo*` never do. "VPN" is reported exactly for `tun`/`utun`. |
| IPParsing.DirectLocation | MyIP/Network.swift:589-594 | With a province that is set and differs from the city, the label is the province followed by the city, exactly that long. Otherwise it is the city alone. It is empty only when both are. |
| IPParsing.AmapLocation | MyIP/Network.swift:584-598 | An answer is accepted exactly when `status` is "1" and `province` and `city` are strings. The location is then the label of those two. |
| Classification.ConnectionKeyInjective | MyIP/Network.swift:128-150 | Distinct connection types are saved as distinct keys. |
| Classification.HasSystemProxy | MyIP/Network.swift:133-136 | Some enable flag reads as the integer 1. This is a definition without a contract; Classify, IsProxyConnectionIssue and DecisionExamples use it. |
| Classification.Classify | MyIP/Network.swift:122-155 | Proxy iff a proxy flag is 1 and the addresses differ; VPN iff they differ without such a flag (or without a dictionary); direct iff they do not differ. isProxy iff proxy. |
| Classification.NoDictionaryNeverProxy | MyIP/Network.swift:123-125 | Without a proxy dictionary the verdict is never a proxy. |
| Classification.IsProxyConnectionIssue | MyIP/Network.swift:524-535 | An issue needs a dictionary and a direct address; no enabled proxy flag means no issue. |
| Classification.ExhaustedSentinel | MyIP/Network.swift:259-264 | "Proxy Error" exactly for a proxy connection issue, "N/A" exactly otherwise. |
| Classification.ProxyVerdictMeansProxyIssue | MyIP/Network.swift:524-535 | Whenever the classifier sees a real proxy, a failed lookup is blamed on the proxy. |
| Classification.DecisionExamples | MyIP/Network.swift:122-155 | Worked rows of the decision table, including a flag value 2 that does not count as enabled. |
| SharedCache.KeysDistinct | MyIP/Shared/IPService.swift:27-32 | The seven keys are pairwise distinct. |
| SharedCache.StringFor | MyIP/Shared/IPService.swift:66 | A text is read exactly when the suite exists and holds text under the key. |
| SharedCache.CachedIP | MyIP/Shared/IPService.swift:65-67 | Definition without a contract: the text under the address key. IPInfoRoundTrip, SaveIPKeepsLocation and SaveIPOnEmptySuite state what it reads after each write, and NoSuiteNoCache that it is nil without a suite. |
| SharedCache.LastUpdateTime | MyIP/Shared/IPService.swift:79-81 | Definition without a contract: the time under the update key. IPInfoRoundTrip and SaveIPKeepsLocation state that saveIPInfo and saveIP make it the save time. |
| SharedCache.IsProxy | MyIP/Shared/IPService.swift:100-102 | Definition without a contract: `bool(forKey:)`, false when absent or without a suite. ProxyStatusRoundTrip, ProxyStatusDefault and NoSuiteNoCache state its reads. |
| SharedCache.CachedIPInfo | MyIP/Shared/IPService.swift:69-77 | A record is read exactly when all four text keys are present. Its address, country, country code and city are the texts stored under their keys. |
| SharedCache.IPInfoRoundTrip | MyIP/Shared/IPService.swift:88-94 | After saveIPInfo on an existing suite, the cached record and address are the ones saved, and the update time is the save time. |
| SharedCache.NoSuiteNoCache | MyIP/Shared/IPService.swift:104-106 | Without a suite nothing is cached and isProxy is false. |
| SharedCache.SaveIPKeepsLocation | MyIP/Shared/IPService.swift:83-86 | saveIP writes the address and time only. The location keys and proxy bit are kept, so a later record pairs the new address with the old location, and a record exists exactly when those three keys do. |
| SharedCache.SaveIPOnEmptySuite | MyIP/Shared/IPService.swift:83-86 | On an empty suite the address becomes readable but no record does. |
| SharedCache.ProxyStatusRoundTrip | MyIP/Shared/IPService.swift:96-102 | saveProxyStatus(b) makes isProxy read b and changes no text key and no record. |
| SharedCache.ProxyStatusDefault | MyIP/Shared/IPService.swift:100-102 | isProxy is false when never written. |
| SharedCache.ConnectionTypeIsolated | MyIP/Network.swift:128-150 | Writing the connection type leaves the record and proxy bit alone and reads back. |
| SharedCache.IPService.constructor | MyIP/Shared/IPService.swift:104-106 | The service starts on the given suite (or none). |
| SharedCache.IPService.SaveIP | MyIP/Shared/IPService.swift:83-86 | The new suite is the old one with the address and the time written. |
| SharedCache.IPService.SaveIPInfo | MyIP/Shared/IPService.swift:88-94 | The new suite is the old one with the four fields and the time written. |
| SharedCache.IPService.SaveProxyStatus | MyIP/Shared/IPService.swift:96-98 | The new suite is the old one with the proxy bit written. |
| SharedCache.IPService.SaveConnectionType | MyIP/Network.swift:128-150 | The new suite is the old one with the connection-type key written. |
| SharedCache.IPService.FetchIPInfo | MyIP/Shared/IPService.swift:38-54 | A fetched record is cached and returned, and is then what the cache reads. On failure, the cached record is returned and nothing changes. |
| SharedCache.IPService.FetchExternalIP | MyIP/Shared/IPService.swift:56-61 | A fetched record gives its address and is written to the suite as saveIPInfo writes it. Otherwise the result is the cached address, else "N/A", and the suite is unchanged. |
| Identity.AfterUpdate | MyIP/Network.swift:85-93 | An empty parse changes nothing. Otherwise externalIP and priorIP become the parsed address. One record "new, oldPrior" is appended exactly when the address differs from the prior. The flag is raised by such a record and never lowered. |
| Identity.UpdateSameAddressAgain | MyIP/Network.swift:85-93 | A second update to the same address changes nothing: updating is idempotent and never duplicates a record. |
| Identity.UpdateChain | MyIP/Network.swift:85-93 | Two successive changes append exactly the two records, each paired with the address it replaced. |
| Identity.AfterDnsFallback | MyIP/Network.swift:248-264 | Only externalIP and priorIP can change. An accepted `dig` answer is dotted and goes into both; otherwise externalIP shows "Proxy Error" or "N/A" and priorIP is kept. |
| Identity.AfterWait | MyIP/Network.swift:235-292 | The wait chain keeps the direct fields, appends at most one history record, and never lowers the change flag; a record raises it. |
| Identity.AfterNoWait | MyIP/Network.swift:294-335 | The no-wait chain keeps the direct fields, appends at most one history record, and never lowers the change flag; a record raises it. |
| Identity.FirstTrue | MyIP/Network.swift:247-292 | The first service whose answer is taken: accepted, with none before it; None exactly when none is accepted. |
| Identity.AcceptedAt | MyIP/Network.swift:277-280 | Service k's flag is whether its body parses to a non-empty address. |
| Identity.WaitStopsAtFirstAccepted | MyIP/Network.swift:235-335 | Both chains try services in order and stop at the first accepted body. The outcome is the update with that body, whatever later services, `dig` or the proxy settings would give. |
| Identity.DnsAnswerAddsNoHistory | MyIP/Network.swift:248-257 | When every service fails and `dig` answers, externalIP and priorIP take the dotted answer. History and change flag are untouched. |
| Identity.WaitExhausted | MyIP/Network.swift:248-264 | When services and DNS all fail: "Proxy Error" iff a proxy flag is set and a direct address is known, "N/A" otherwise; priorIP and history are kept. |
| Identity.NoWaitCopiesSentinel | MyIP/Network.swift:304-313 | The exhausted no-wait chain puts the sentinel into priorIP too. The next dotted address is then logged as a change away from the sentinel. |
| Identity.DirectCandidate | MyIP/Network.swift:192-217 | A service gives a candidate exactly when its output is non-empty and the extractor for its URL yields a non-empty address; the candidate is that address. |
| Identity.Found | MyIP/Network.swift:170-233 | Flag k is whether direct service k yields a candidate. |
| Identity.AfterDirect | MyIP/Network.swift:158-233 | The direct chain changes no field but directIP. The first service with a candidate sets directIP to that candidate, and with no candidate at all nothing changes. |
| Identity.DirectStopsAtFirstCandidate | MyIP/Network.swift:158-233 | The direct chain stops at the first service with a candidate: later outputs do not change the outcome, which is that candidate in directIP. |
| Identity.FirstServiceFormat | MyIP/Network.swift:196-201 | The 3322.org service selects the plain-address extractor. |
| Identity.SecondServiceFormat | MyIP/Network.swift:202-208 | The ipip.net service selects the labelled-page extractor. |
| Identity.ThirdServiceFormat | MyIP/Network.swift:209-215 | The cip.cc service selects the IP-line extractor. |
| Identity.DirectOutcome | MyIP/Network.swift:158-233 | With no candidates directIP is unchanged. A directIP from 3322.org or ipip.net has the dotted shape. |
| Identity.AfterDirectLocation | MyIP/Network.swift:567-604 | Only directIPLocation changes, and only with a configured AMap key and an accepted answer, to that answer's label. |
| Identity.Network.constructor | MyIP/Network.swift:16-21 | Addresses "N/A", no location, priorIP "None", change flag raised, existing history. |
| Identity.Network.SetFetchingStatus | MyIP/Network.swift:24-26 | Only externalIP changes, to the fetching text. |
| Identity.Network.SetHasIpChanged | MyIP/Network.swift:32-34 | Only the change flag changes. |
| Identity.Network.UpdatePublicIP | MyIP/Network.swift:85-101 | The new state is AfterUpdate of the old one. |
| Identity.Network.DnsFallback | MyIP/Network.swift:248-264 | The new state is the DNS-fallback transition of the old one. |
| Identity.Network.GetPublicIPWait | MyIP/Network.swift:235-292 | The loop's result is AfterWait: fetching status, the first accepted body's update, else the DNS fallback. |
| Identity.Network.GetPublicIPNoWait | MyIP/Network.swift:294-335 | The loop's result is AfterNoWait: the first accepted body's update, else the sentinel in externalIP and priorIP. |
| Identity.Network.GetDirectIP | MyIP/Network.swift:158-233 | The loop's result is AfterDirect of the old state: the first service with a candidate sets directIP, and nothing else changes. |
| Identity.Network.CheckProxyStatus | MyIP/Network.swift:122-155 | Runs the direct chain, then saves the classifier's proxy bit and connection key for the resulting addresses. |
| Identity.Network.RecordGeoInfo | MyIP/Network.swift:104-117 | With country and city, the record is saved (empty country code); otherwise only the address. |
| Identity.Network.ApplyDirectLocation | MyIP/Network.swift:567-604 | The new state is AfterDirectLocation of the old one. |
| Reachability.ProbeExamples | MyIP/NetworkMonitor.swift:126 | Only an error-free status 200 confirms connectivity. |
| Reachability.IsNetworkAvailable | MyIP/NetworkMonitor.swift:73-75 | Reachable and no connection required. This is a definition without a contract; HandleNetworkChange, CurrentNetworkStatus and StatusAgreesWithHandler use it. |
| Reachability.ProbeSucceeds | MyIP/NetworkMonitor.swift:126 | No transport error and HTTP status 200. This is a definition without a contract; ProbeExamples states its cases. |
| Reachability.NetworkMonitor.constructor | MyIP/NetworkMonitor.swift:18-20 | A new monitor is valid and not monitoring; it records whether reachability exists. |
| Reachability.NetworkMonitor.StartMonitoring | MyIP/NetworkMonitor.swift:38-61 | Keeps validity. Nothing happens without reachability or while monitoring. Otherwise monitoring starts exactly when both registration calls succeed. |
| Reachability.NetworkMonitor.StopMonitoring | MyIP/NetworkMonitor.swift:63-70 | Afterwards not monitoring and not scheduled; the callback is removed if monitoring was on. |
| Reachability.NetworkMonitor.HandleNetworkChange | MyIP/NetworkMonitor.swift:72-101 | Available flags emit NetworkAvailable once, and again after a successful probe; the probe runs iff available. Unavailable flags emit exactly NetworkUnavailable. |
| Reachability.NetworkMonitor.CurrentNetworkStatus | MyIP/NetworkMonitor.swift:103-113 | True only with reachability and readable flags, and then exactly when they mean available. |
| Reachability.StatusAgreesWithHandler | MyIP/NetworkMonitor.swift:72-113 | The status query and the change handler agree on availability; unreadable flags mean unavailable. |
| MenuBarApp.LastLocationSwitch | MyIP/AppDelegate.swift:718-733 | There is a last location switch exactly when "-L:1" or "-L:0" occurs, and its value is set by a switch at some position after which no switch follows ("-L:1" gives true, "-L:0" false). |
| MenuBarApp.ArgumentsSetLocationOnly | MyIP/AppDelegate.swift:718-733 | The second pass changes only showLocation, to the last switch, or leaves it without one. |
| MenuBarApp.ResetTakesPriority | MyIP/AppDelegate.swift:708-734 | With "-R" anywhere, the outcome ignores the prior preferences. It is the defaults of `reset` (MyIP/Settings.swift:57-64: showLocation on, the other four off), with showLocation at the last switch or on. |
| MenuBarApp.LastSwitchWins | MyIP/AppDelegate.swift:708-734 | Without "-R", only showLocation changes, to the last switch given. |
| MenuBarApp.AfterCommandLine | MyIP/AppDelegate.swift:708-734 | A reset anywhere first, then the location switches in order. This is a definition without a contract; ResetTakesPriority and LastSwitchWins state its outcome. |
| MenuBarApp.StatusIcon | MyIP/AppDelegate.swift:304-324 | Cellular/connected iff an address is shown (by connection type). Otherwise not-connected iff the connection is gone, and a warning otherwise. |
| MenuBarApp.ImageName | MyIP/AppDelegate.swift:306-323 | Definition without a contract: the colour or monochrome image of each icon. ImageNamesDistinct states that the eight names are distinct. |
| MenuBarApp.ImageNamesDistinct | MyIP/AppDelegate.swift:306-323 | The eight image names are distinct, so the image identifies state and colour choice. |
| MenuBarApp.NotificationFor | MyIP/AppDelegate.swift:259-268 | "Lost" iff the connection is gone; "no internet" iff not lost and externalIP is "N/A"; "working" otherwise. |
| MenuBarApp.NoticeText | MyIP/AppDelegate.swift:262-268 | Definition without a contract: the three notification bodies. NoticeTextsDistinct states that they differ. |
| MenuBarApp.NoticeTextsDistinct | MyIP/AppDelegate.swift:262-268 | Distinct notices have distinct bodies. |
| MenuBarApp.IconMatchesNotice | MyIP/AppDelegate.swift:259-324 | "No internet" goes with the warning icon, and "working" never with not-connected. "Lost" goes with not-connected iff no address is shown. |
| MenuBarApp.ShowsDirectRows | MyIP/AppDelegate.swift:353 | The Direct rows show when the direct address is known and differs from the external one. This is a definition without a contract; DirectRowsMatchClassifier relates it to the classifier. |
| MenuBarApp.DirectRowsMatchClassifier | MyIP/AppDelegate.swift:353 | The Direct rows appear exactly when the classifier does not call the connection direct, and whenever the proxy bit is set. |
| MenuBarApp.App.constructor | MyIP/AppDelegate.swift:708-734 | The app holds the given preferences and network. |
| MenuBarApp.App.ProcessCommandLine | MyIP/AppDelegate.swift:708-734 | The two loops leave the preferences at AfterCommandLine of the old ones. |
| MenuBarApp.App.Update | MyIP/AppDelegate.swift:279-302 | The network ends at the wait-chain outcome; a non-forced update also clears the change flag. |
| MenuBarApp.App.ClearHistory | MyIP/AppDelegate.swift:591-595 | History emptied, priorIP "None", then a forced wait-chain update. |
| MenuBarApp.ClearedHistoryRestarts | MyIP/AppDelegate.swift:591-595 | After clearing, the first address found leaves exactly one record, "address, None". |
| MenuBarApp.UpdateFlag | MyIP/AppDelegate.swift:279-302 | A lookup finding an address other than the prior one leaves the change flag raised. |
| Widget.FetchIPDirectly | MyIPWidget/MyIPWidget.swift:67-83 | A result exactly when ip, country and city are all strings, and then it holds those strings. |
| Widget.SnapshotEntry | MyIPWidget/MyIPWidget.swift:31-41 | The cached record's fields, or the defaults "获取中...", "正在连接", "", with the saved proxy bit. |
| Widget.IsNetworkInitializing | MyIPWidget/MyIPWidget.swift:205-207 | The entry holds the connecting address text and the initialising country text. This is a definition without a contract; NetworkIcon, NetworkColor and RenderingOf use it. |
| Widget.GetTimeline | MyIPWidget/MyIPWidget.swift:43-64 | A fetched record is cached and shown, refresh in 15 minutes. Else the cached record, cache untouched, 3 minutes. Else the initial entry, 1 minute. |
| Widget.SnapshotAfterFetch | MyIPWidget/MyIPWidget.swift:31-58 | After a fetch, the next snapshot shows the fetched entry, with the proxy bit unchanged. |
| Widget.WriteKeepsProxyBit | MyIPWidget/MyIPWidget.swift:50-51 | Saving a record never changes the proxy bit. |
| Widget.NetworkIcon | MyIPWidget/MyIPWidget.swift:209-217 | Exclamation iff initialising; slash iff not initialising and no address; network iff an address. |
| Widget.NetworkColor | MyIPWidget/MyIPWidget.swift:219-227 | Orange, red and green under the same three conditions. |
| Widget.IconAndColorAgree | MyIPWidget/MyIPWidget.swift:209-227 | Each icon goes with exactly one colour. |
| Widget.LocationLabel | MyIPWidget/MyIPWidget.swift:146 | When country and city differ, the label is "country, " followed by the city, exactly that long. When they are equal it is the city alone. |
| Widget.RenderingOf | MyIPWidget/MyIPWidget.swift:130-159 | Initialising view iff initialising; connecting view iff "N/A" otherwise; else the address view with label, address and badge. |
| Widget.RenderingMatchesIcon | MyIPWidget/MyIPWidget.swift:130-217 | The address body appears exactly with the network icon, or with the connecting text outside initialisation. |
| Widget.InitialEntryRendersInitializing | MyIPWidget/MyIPWidget.swift:55-57 | The fallback entry renders as initialising, with the orange exclamation icon. |

## Left out

- All I/O is an input rather than performed: HTTP requests, `curl`, `dig`, `netstat`,
  `ps`, file-system checks, `SCNetworkReachability` and the system proxy dictionary. So
  are timeouts, retries timed by dispatch queues, and the one-second delay before the
  connectivity probe.
- Concurrency is left out: completion handlers run in sequence in the model. Overlapping
  lookups that race on the `Network` fields are not modelled.
- `getIFAddresses`, `getInterfaceType`, `getMacAddress` and the other
  `SystemConfiguration` / `ioctl` bindings are left out. They are foreign calls with no
  logic of their own beyond the OS.
- `getExternalIP` is left out. It returns before its asynchronous lookup completes, so its
  value is the field's previous content.
- Settings archiving and unarchiving, `LaunchAtLogin`, location services, map images and
  the menu layout are persistence or UI only, and are left out.
- The widget's `checkNetworkConnectivity`, the `onDirectIPUpdated` callbacks and the view
  layout are left out. Only the decisions the views make are modelled.
- Identity.Network.GetPublicIPNoWait: the crash of the no-wait chain's forced UTF-8 decode
  on a non-text body is not modelled. Such a body is treated as a failed service.
- Text.HasPrefix, Text.Split, Text.Trim: strings are sequences of Unicode code points.
  Swift's `hasPrefix` compares grapheme clusters, and `components(separatedBy:)` and
  trimming work on UTF-16. The two readings differ only for text outside ASCII, such as
  combining marks; the addresses and markers the core looks for are ASCII.
- IPParsing.ExtractDirectIP, IPParsing.OpenDnsAnswer, IPParsing.GetGateway: the ICU class
  `\d` of the 3322, ipip, dig and gateway patterns (Network.swift:200, 205, 555, 509) is
  read as the ASCII digits 0-9. ICU's `\d` also matches other Unicode decimal digits.
- IPParsing.FirstDottedMatch: its pattern uses `[0-9]`, which is ASCII already; only its
  `\b` word boundary is read with ASCII word characters, not ICU's Unicode ones.
- IPParsing.ParseInt, IPParsing.IsValidIP: `Int(...)` values beyond 64 bits (which Swift rejects) are kept as
  unbounded integers. Every caller rejects them by its 0...255 check anyway.
- Identity.Network.UpdatePublicIP: the geo-information and proxy-check requests it starts
  are not chained inside it. They are the separate methods RecordGeoInfo and
  CheckProxyStatus, run on their completions.
- SharedCache.IPService.SaveConnectionType: its definition is not part of the source
  files modelled here. The key name "connectionType" and the text value are assumptions;
  only its isolation from the other keys is relied on.
- `URL(string:)` failing on the constant service URLs is not modelled. It cannot happen
  for those constant strings.
- Dates are integers (`now`). The widget entry's date and the timeline's next-update date
  are left out; the refresh interval is kept in minutes.
- Reachability.Flags: only the `reachable` and `connectionRequired` bits are modelled.
  They are the only ones the monitor reads.
- The `History` log is a field of `Network` instead of a separate file-backed log; it is
  append-only in the same way.

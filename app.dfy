/**
 * The decisions of the menu-bar application (MyIP/AppDelegate.swift) that depend on the
 * identity state: command-line processing over the preferences, the status-bar icon, the
 * notification text, whether the menu shows the Direct rows, clearing the history, and the
 * periodic update's handling of the change flag.
 */
module MenuBarApp {
  import opened Wrappers
  import opened Classification
  import opened IPParsing
  import opened Identity

  /** The persisted preferences (MyIP/Settings.swift:13-20). */
  datatype Preferences = Preferences(
    showLocation: bool,
    showExternalIP: bool,
    useNotifications: bool,
    useColorIcons: bool,
    hideFromMenuBar: bool)

  /** The defaults, which `reset` restores (MyIP/Settings.swift:57-64). */
  const DefaultPreferences := Preferences(true, false, false, false, false)

  const ResetFlag := "-R"
  const LocationOn := "-L:1"
  const LocationOff := "-L:0"

  // ---------------------------------------------------------------------------
  // processCommandLine
  // ---------------------------------------------------------------------------

  /** The effect of one argument in the second pass: the two location switches; anything else is ignored. */
  function ApplyArgument(p: Preferences, arg: string): Preferences {
    if arg == LocationOn then p.(showLocation := true)
    else if arg == LocationOff then p.(showLocation := false)
    else p
  }

  /** The second pass over a list of arguments, in order. */
  function ApplyArguments(p: Preferences, args: seq<string>): Preferences
    decreases |args|
  {
    if args == [] then p
    else ApplyArgument(ApplyArguments(p, args[..|args| - 1]), args[|args| - 1])
  }

  /** Both passes: a reset anywhere first, then the location switches. */
  function AfterCommandLine(p: Preferences, args: seq<string>): Preferences {
    ApplyArguments(if ResetFlag in args then DefaultPreferences else p, args)
  }

  /** A location switch, "-L:1" or "-L:0". */
  predicate IsSwitch(arg: string) {
    arg == LocationOn || arg == LocationOff
  }

  /** Position `i` holds a switch and no switch follows it. */
  predicate IsLastSwitch(args: seq<string>, i: int) {
    0 <= i < |args| && IsSwitch(args[i]) && forall j :: i < j < |args| ==> !IsSwitch(args[j])
  }

  /** The last location switch among the arguments, as the value it sets. */
  function LastLocationSwitch(args: seq<string>): (r: Option<bool>)
    ensures r.Some? <==> LocationOn in args || LocationOff in args
    ensures r.Some? ==> exists i :: IsLastSwitch(args, i) && r.value == (args[i] == LocationOn)
    decreases |args|
  {
    if args == [] then None
    else if args[|args| - 1] == LocationOn then Some(true)
    else if args[|args| - 1] == LocationOff then Some(false)
    else
      var r := LastLocationSwitch(args[..|args| - 1]);
      LastSwitchKept(args[..|args| - 1], args[|args| - 1], r);
      assert args == args[..|args| - 1] + [args[|args| - 1]];
      r
  }

  /** An argument that is not a switch, appended at the end, keeps the last switch where it was. */
  lemma {:induction false} LastSwitchKept(front: seq<string>, last: string, r: Option<bool>)
    requires !IsSwitch(last)
    requires r.Some? <==> LocationOn in front || LocationOff in front
    requires r.Some? ==> exists i :: IsLastSwitch(front, i) && r.value == (front[i] == LocationOn)
    ensures r.Some? <==> LocationOn in front + [last] || LocationOff in front + [last]
    ensures r.Some? ==> exists i :: IsLastSwitch(front + [last], i) && r.value == ((front + [last])[i] == LocationOn)
  {
    var args := front + [last];
    if r.Some? {
      var i :| IsLastSwitch(front, i) && r.value == (front[i] == LocationOn);
      assert args[i] == front[i];
      assert IsLastSwitch(args, i);
    }
  }

  /** The second pass changes showLocation only, and leaves it at the last switch, or unchanged without one. */
  lemma {:induction false} ArgumentsSetLocationOnly(p: Preferences, args: seq<string>)
    ensures ApplyArguments(p, args) == p.(showLocation := ApplyArguments(p, args).showLocation)
    ensures ApplyArguments(p, args).showLocation == LastLocationSwitch(args).GetOr(p.showLocation)
    decreases |args|
  {
    if args != [] {
      ArgumentsSetLocationOnly(p, args[..|args| - 1]);
    }
  }

  /**
   * A reset anywhere wins over the current preferences and is applied before any switch:
   * the outcome does not depend on the preferences held before, every preference except
   * showLocation is its default, and showLocation is the last switch or, without one, true.
   */
  lemma ResetTakesPriority(p: Preferences, q: Preferences, args: seq<string>)
    requires ResetFlag in args
    ensures AfterCommandLine(p, args) == AfterCommandLine(q, args)
    ensures AfterCommandLine(p, args) == DefaultPreferences.(showLocation := LastLocationSwitch(args).GetOr(true))
  {
    ArgumentsSetLocationOnly(DefaultPreferences, args);
  }

  /** Without a reset, the command line changes showLocation only, to the last switch given. */
  lemma LastSwitchWins(p: Preferences, args: seq<string>)
    requires ResetFlag !in args
    ensures AfterCommandLine(p, args) == p.(showLocation := LastLocationSwitch(args).GetOr(p.showLocation))
  {
    ArgumentsSetLocationOnly(p, args);
  }

  // ---------------------------------------------------------------------------
  // Status icon and notification
  // ---------------------------------------------------------------------------

  /**
   * `Reachability.Connection`; the reachability object itself may be missing (None).
   * The library's `.none` and `.unavailable` are kept as two values,
   * NoConnection and Unavailable, since only `.none` selects the not-connected icon.
   */
  datatype Connection = Unavailable | Wifi | Cellular | NoConnection

  /** The four status-bar states. */
  datatype Icon = CellularIcon | ConnectedIcon | NotConnectedIcon | WarningIcon

  /** The image shown for an icon, in the colour set or the monochrome set. */
  function ImageName(icon: Icon, useColorIcons: bool): string {
    match icon
    case CellularIcon => if useColorIcons then "StatusBarBlue" else "StatusBarCell"
    case ConnectedIcon => if useColorIcons then "StatusBarGreen" else "StatusBarConnected"
    case NotConnectedIcon => if useColorIcons then "StatusBarRed" else "StatusBarNotConnected"
    case WarningIcon => if useColorIcons then "StatusBarOrange" else "StatusBarWarning"
  }

  /** Whether the external field holds something other than "N/A" or the fetching status ("Proxy Error" included). */
  predicate ShowsAddress(externalIP: string) {
    externalIP != NotAvailable && externalIP != Fetching
  }

  /**
   * The icon choice of `updateUI` (AppDelegate.swift:304-324): with an address, cellular or
   * connected by the connection type; without one, not-connected when the connection is
   * gone, a warning otherwise (fetching, or no reachability object).
   */
  function StatusIcon(externalIP: string, reach: Option<Connection>): (icon: Icon)
    ensures icon == CellularIcon <==> ShowsAddress(externalIP) && reach == Some(Cellular)
    ensures icon == ConnectedIcon <==> ShowsAddress(externalIP) && reach != Some(Cellular)
    ensures icon == NotConnectedIcon <==> !ShowsAddress(externalIP) && reach == Some(NoConnection)
    ensures icon == WarningIcon <==> !ShowsAddress(externalIP) && reach != Some(NoConnection)
  {
    if externalIP != NotAvailable && externalIP != Fetching then
      (if reach == Some(Cellular) then CellularIcon else ConnectedIcon)
    else if reach == Some(NoConnection) then NotConnectedIcon
    else WarningIcon
  }

  /** The icon sets are distinct, so the image name identifies the state and the colour choice. */
  lemma ImageNamesDistinct(a: Icon, b: Icon, c1: bool, c2: bool)
    requires (a, c1) != (b, c2)
    ensures ImageName(a, c1) != ImageName(b, c2)
  {
    var x, y := ImageName(a, c1), ImageName(b, c2);
    if |x| == |y| {
      assert x[9] != y[9] || x[10] != y[10] || x[12] != y[12];
    }
  }

  datatype Notice = LostNetwork | NoInternet | Working

  /** The notification body of each notice (AppDelegate.swift:262-268). */
  function NoticeText(n: Notice): string {
    match n
    case LostNetwork => "System has lost network connection."
    case NoInternet => "System has no internet connection."
    case Working => "System internet connection is now working."
  }

  /** The three bodies differ, so the notification tells the user which state was reached. */
  lemma NoticeTextsDistinct(a: Notice, b: Notice)
    requires a != b
    ensures NoticeText(a) != NoticeText(b)
  {
  }

  /**
   * The message choice of `notify` (AppDelegate.swift:259-268): a lost connection first,
   * then a missing address ("N/A" only; the fetching status and "Proxy Error" count as
   * working).
   */
  function NotificationFor(reach: Option<Connection>, externalIP: string): (n: Notice)
    ensures n == LostNetwork <==> reach == Some(NoConnection)
    ensures n == NoInternet <==> reach != Some(NoConnection) && externalIP == NotAvailable
    ensures n == Working <==> reach != Some(NoConnection) && externalIP != NotAvailable
  {
    if reach == Some(NoConnection) then LostNetwork
    else if externalIP == NotAvailable then NoInternet
    else Working
  }

  /**
   * Icon and notification read the same state consistently: "no internet" goes with the
   * warning icon, "working" never with the not-connected icon, and "lost network" with
   * not-connected unless an address is still shown.
   */
  lemma IconMatchesNotice(reach: Option<Connection>, externalIP: string)
    ensures NotificationFor(reach, externalIP) == NoInternet ==> StatusIcon(externalIP, reach) == WarningIcon
    ensures NotificationFor(reach, externalIP) == Working ==> StatusIcon(externalIP, reach) != NotConnectedIcon
    ensures NotificationFor(reach, externalIP) == LostNetwork ==>
              (StatusIcon(externalIP, reach) == NotConnectedIcon <==> !ShowsAddress(externalIP))
  {
  }

  // ---------------------------------------------------------------------------
  // The Direct rows of the menu
  // ---------------------------------------------------------------------------

  /** `isUsingProxy` in `constructMenu` (AppDelegate.swift:353, 386-395): the Direct rows are shown. */
  predicate ShowsDirectRows(directIP: string, externalIP: string) {
    directIP != NotAvailable && directIP != externalIP
  }

  /**
   * The menu shows the Direct rows exactly when the classifier, whatever the proxy settings,
   * does not call the connection direct, and whenever the saved proxy bit is set.
   */
  lemma DirectRowsMatchClassifier(proxies: Option<ProxySettings>, directIP: string, externalIP: string)
    ensures ShowsDirectRows(directIP, externalIP) <==> Classify(proxies, directIP, externalIP).connection != Direct
    ensures Classify(proxies, directIP, externalIP).isProxy ==> ShowsDirectRows(directIP, externalIP)
  {
  }

  // ---------------------------------------------------------------------------
  // The app object: preferences and the update cycle
  // ---------------------------------------------------------------------------

  class App {
    var preferences: Preferences
    const network: Network

    constructor(p: Preferences, n: Network)
      ensures preferences == p && network == n
    {
      preferences := p;
      network := n;
    }

    /**
     * `processCommandLine` (AppDelegate.swift:708-734): a first pass resets the preferences
     * at every "-R", a second applies "-L:1" and "-L:0" in argument order.
     */
    method ProcessCommandLine(args: seq<string>)
      modifies this
      ensures preferences == AfterCommandLine(old(preferences), args)
    {
      for i := 0 to |args|
        invariant preferences == if ResetFlag in args[..i] then DefaultPreferences else old(preferences)
      {
        assert args[..i + 1] == args[..i] + [args[i]];
        if args[i] == ResetFlag {
          preferences := DefaultPreferences;
        }
      }
      assert args[..|args|] == args;
      ghost var base := preferences;
      for i := 0 to |args|
        invariant preferences == ApplyArguments(base, args[..i])
      {
        assert args[..i + 1][..i] == args[..i];
        if args[i] == LocationOn {
          preferences := preferences.(showLocation := true);
        } else if args[i] == LocationOff {
          preferences := preferences.(showLocation := false);
        }
      }
    }

    /**
     * `update` (AppDelegate.swift:279-302) with its wait-chain lookup; the non-forced update
     * clears the change flag when the lookup completes.
     */
    method Update(force: bool, bodies: seq<Option<string>>, digOutput: Option<string>, proxies: Option<ProxySettings>)
      requires |bodies| == |ExternalServices|
      modifies network
      ensures var w := AfterWait(old(network.State()), bodies, digOutput, proxies);
              network.State() == if force then w else w.(hasIpChanged := false)
    {
      network.GetPublicIPWait(bodies, digOutput, proxies);
      if !force && network.hasIpChanged {
        network.SetHasIpChanged(false);
      }
    }

    /**
     * `clearHistory` (AppDelegate.swift:591-595): empty the history, forget the prior
     * address, then run a forced update.
     */
    method ClearHistory(bodies: seq<Option<string>>, digOutput: Option<string>, proxies: Option<ProxySettings>)
      requires |bodies| == |ExternalServices|
      modifies network
      ensures network.State() == AfterWait(old(network.State()).(history := [], priorIP := NoPrior), bodies, digOutput, proxies)
    {
      network.history := [];
      network.priorIP := NoPrior;
      Update(true, bodies, digOutput, proxies);
    }
  }

  /**
   * After clearing, the first address found is recorded as a change from "None": the
   * history then holds exactly that one record.
   */
  lemma ClearedHistoryRestarts(s: Snapshot, bodies: seq<Option<string>>, dig: Option<string>, proxies: Option<ProxySettings>, k: nat)
    requires k < |bodies| && Parses(bodies[k]) && forall j :: 0 <= j < k ==> !Parses(bodies[j])
    requires ParseIP(bodies[k].value) != NoPrior
    ensures AfterWait(s.(history := [], priorIP := NoPrior), bodies, dig, proxies).history == [ParseIP(bodies[k].value) + ", " + NoPrior]
  {
    WaitStopsAtFirstAccepted(s.(history := [], priorIP := NoPrior), bodies, bodies, dig, dig, proxies, proxies, k);
  }

  /** A lookup that finds an address other than the prior one leaves the change flag raised (a forced update keeps it so). */
  lemma UpdateFlag(s: Snapshot, bodies: seq<Option<string>>, dig: Option<string>, proxies: Option<ProxySettings>, k: nat)
    requires k < |bodies| && Parses(bodies[k]) && forall j :: 0 <= j < k ==> !Parses(bodies[j])
    requires ParseIP(bodies[k].value) != s.priorIP
    ensures AfterWait(s, bodies, dig, proxies).hasIpChanged
  {
    WaitStopsAtFirstAccepted(s, bodies, bodies, dig, dig, proxies, proxies, k);
  }
}

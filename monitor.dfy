/**
 * The reachability monitor of MyIP/NetworkMonitor.swift: a flag guarding registration with
 * the system's reachability service, the availability test on the reachability flags, and
 * the availability events a flag change emits. The reachability object, its flags and the
 * outcome of the connectivity probe are inputs.
 */
module Reachability {
  import opened Wrappers

  /** The two bits of `SCNetworkReachabilityFlags` the monitor reads. */
  datatype Flags = Flags(reachable: bool, connectionRequired: bool)

  /** Availability (NetworkMonitor.swift:73-75, 108-110): reachable and no connection needs to be set up first. */
  predicate IsNetworkAvailable(f: Flags) {
    f.reachable && !f.connectionRequired
  }

  /** The callbacks the monitor invokes. */
  datatype Event = NetworkAvailable | NetworkUnavailable

  /**
   * What the connectivity probe of `testInternetConnectivity` got back: whether the request
   * failed in transport, and the HTTP status when the response was an HTTP response.
   */
  datatype ProbeResponse = ProbeResponse(transportError: bool, status: Option<int>)

  /** The probe's success test (NetworkMonitor.swift:126): no transport error and status 200. */
  predicate ProbeSucceeds(p: ProbeResponse) {
    !p.transportError && p.status == Some(200)
  }

  /** Only an error-free answer with status 200 counts; a redirect, an error page or no HTTP status do not. */
  lemma ProbeExamples()
    ensures ProbeSucceeds(ProbeResponse(false, Some(200)))
    ensures !ProbeSucceeds(ProbeResponse(false, Some(204))) && !ProbeSucceeds(ProbeResponse(false, Some(301)))
    ensures !ProbeSucceeds(ProbeResponse(true, Some(200))) && !ProbeSucceeds(ProbeResponse(false, None))
  {
  }

  class NetworkMonitor {
    /** Whether `SCNetworkReachabilityCreateWithAddress` produced a reachability object. */
    const hasReachability: bool
    var isMonitoring: bool
    /** Whether the monitor's callback is installed on the reachability object. */
    var callbackSet: bool
    /** Whether the reachability object is scheduled on the main run loop. */
    var scheduled: bool

    /** The monitor is monitoring exactly when it is scheduled, and then its callback is installed. */
    predicate Valid()
      reads this
    {
      && (scheduled <==> isMonitoring)
      && (isMonitoring ==> hasReachability && callbackSet)
    }

    /** `init` (NetworkMonitor.swift:18-20); `reachable` is whether creating the reachability object succeeded. */
    constructor(reachable: bool)
      ensures Valid()
      ensures hasReachability == reachable && !isMonitoring && !callbackSet && !scheduled
    {
      hasReachability := reachable;
      isMonitoring := false;
      callbackSet := false;
      scheduled := false;
    }

    /**
     * `startMonitoring` (NetworkMonitor.swift:38-61). Nothing happens without a reachability
     * object or while monitoring. Otherwise the callback is installed when `setCallbackOk`,
     * then the object is scheduled when `scheduleOk`, and monitoring starts only when both
     * succeeded.
     */
    method StartMonitoring(setCallbackOk: bool, scheduleOk: bool)
      requires Valid()
      modifies this
      ensures Valid()
      ensures !hasReachability || old(isMonitoring) ==> isMonitoring == old(isMonitoring) && callbackSet == old(callbackSet) && scheduled == old(scheduled)
      ensures hasReachability && !old(isMonitoring) ==>
                && (isMonitoring <==> setCallbackOk && scheduleOk)
                && callbackSet == (old(callbackSet) || setCallbackOk)
    {
      if !hasReachability || isMonitoring {
        return;
      }
      if setCallbackOk {
        callbackSet := true;
        if scheduleOk {
          scheduled := true;
          isMonitoring := true;
        }
      }
    }

    /**
     * `stopMonitoring` (NetworkMonitor.swift:63-70): when monitoring, unschedule, remove the
     * callback and clear the flag; otherwise nothing. Afterwards the monitor is not monitoring.
     */
    method StopMonitoring()
      requires Valid()
      modifies this
      ensures Valid() && !isMonitoring && !scheduled
      ensures old(isMonitoring) ==> !callbackSet
      ensures !old(isMonitoring) ==> callbackSet == old(callbackSet)
    {
      if !hasReachability || !isMonitoring {
        return;
      }
      scheduled := false;
      callbackSet := false;
      isMonitoring := false;
    }

    /**
     * `handleNetworkChange` (NetworkMonitor.swift:72-101): the events a flag change emits, in
     * order, and whether the delayed probe runs. Available flags emit NetworkAvailable at
     * once and again only when the probe succeeds; a failed probe emits nothing and takes
     * nothing back. Unavailable flags emit one NetworkUnavailable and run no probe.
     */
    method HandleNetworkChange(flags: Flags, probe: ProbeResponse) returns (events: seq<Event>, probed: bool)
      ensures probed <==> IsNetworkAvailable(flags)
      ensures IsNetworkAvailable(flags) ==> |events| == (if ProbeSucceeds(probe) then 2 else 1)
      ensures IsNetworkAvailable(flags) ==> forall k :: 0 <= k < |events| ==> events[k] == NetworkAvailable
      ensures !IsNetworkAvailable(flags) ==> events == [NetworkUnavailable]
    {
      events := [];
      probed := false;
      if flags.reachable && !flags.connectionRequired {
        events := events + [NetworkAvailable];
        probed := true;
        if !probe.transportError && probe.status == Some(200) {
          events := events + [NetworkAvailable];
        }
      } else {
        events := events + [NetworkUnavailable];
      }
    }

    /**
     * `getCurrentNetworkStatus` (NetworkMonitor.swift:103-113); `flags` is None when the
     * flags could not be read.
     */
    function CurrentNetworkStatus(flags: Option<Flags>): (available: bool)
      reads this
      ensures available ==> hasReachability && flags.Some?
      ensures hasReachability && flags.Some? ==> (available <==> IsNetworkAvailable(flags.value))
    {
      hasReachability && flags.Some? && flags.value.reachable && !flags.value.connectionRequired
    }
  }

  /**
   * The status query and the change handler agree: with a reachability object, the status
   * read from some flags is true exactly when those flags are treated as available.
   */
  lemma StatusAgreesWithHandler(m: NetworkMonitor, f: Flags)
    requires m.hasReachability
    ensures m.CurrentNetworkStatus(Some(f)) <==> IsNetworkAvailable(f)
    ensures !m.CurrentNetworkStatus(None)
  {
  }
}

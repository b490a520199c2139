// The main window's bookkeeping (gui/main_window.py): which devices have been put
// into their safe state once, the disconnect alert computed from two consecutive
// status reports, and the safe-state calls made when the window closes. Panel calls
// and dialogs are recorded in an action log.

module MainWindow {

  /** A hardware status report: device name to online flag. */
  type Status = map<string, bool>

  /** dict.get(device, False): a device missing from the report is offline. */
  predicate Online(status: Status, device: string) {
    device in status && status[device]
  }

  /** The devices checked for disconnection, in the order the alert lists them. */
  const Devices: seq<string> := ["AIM", "RLM", "TCM", "BGA01", "BGA02", "BGA03", "PSU"]

  /** Any of the three gas analysers is online. */
  predicate BgasOnline(status: Status) {
    Online(status, "BGA01") || Online(status, "BGA02") || Online(status, "BGA03")
  }

  /** What the window does outside itself, in order. */
  datatype Action =
    | RelaysAvailable(on: bool)                  // relay_panel.set_hardware_available
    | RelaysAllOff                               // relay_panel.set_all_off
    | BgasAvailable(bga1: bool, bga2: bool)      // bga_panel.set_hardware_available
    | BgasNormalMode                             // bga_panel.set_normal_mode
    | DisconnectAlert(devices: seq<string>)      // the alert naming the devices, comma separated

  /** The devices among `devices`, in order, that were online in `previous` and are not in `current`. */
  function WentOffline(devices: seq<string>, previous: Status, current: Status): (r: seq<string>)
    ensures |r| <= |devices|
  {
    if devices == [] then []
    else
      var d := devices[|devices| - 1];
      WentOffline(devices[..|devices| - 1], previous, current) +
      (if Online(previous, d) && !Online(current, d) then [d] else [])
  }

  /** Membership in the disconnect list is exactly "listed, was online, is not now". */
  lemma {:induction false} WentOfflineMembers(devices: seq<string>, previous: Status, current: Status, d: string)
    ensures d in WentOffline(devices, previous, current) <==>
      d in devices && Online(previous, d) && !Online(current, d)
  {
    if devices != [] {
      var init := devices[..|devices| - 1];
      WentOfflineMembers(init, previous, current, d);
      assert devices == init + [devices[|devices| - 1]];
    }
  }

  /** The list keeps the order of `devices`: it is `devices` with the others removed. */
  lemma {:induction false} WentOfflineAppend(a: seq<string>, b: seq<string>, previous: Status, current: Status)
    ensures WentOffline(a + b, previous, current) == WentOffline(a, previous, current) + WentOffline(b, previous, current)
    decreases |b|
  {
    if b != [] {
      var init := b[..|b| - 1];
      assert (a + b)[..|a + b| - 1] == a + init;
      WentOfflineAppend(a, init, previous, current);
    } else {
      assert a + b == a;
    }
  }

  /** Nothing is reported when nothing was online before, or everything still is. */
  lemma {:induction false} NothingWentOffline(devices: seq<string>, previous: Status, current: Status)
    requires forall i :: 0 <= i < |devices| ==> Online(previous, devices[i]) ==> Online(current, devices[i])
    ensures WentOffline(devices, previous, current) == []
  {
    if devices != [] {
      NothingWentOffline(devices[..|devices| - 1], previous, current);
    }
  }

  /** The alert an update raises: none while shutting down or on the first report. */
  function AlertActions(shuttingDown: bool, previous: Status, current: Status): (r: seq<Action>)
    ensures |r| <= 1
  {
    if shuttingDown || previous == map[] then []
    else
      var gone := WentOffline(Devices, previous, current);
      if gone == [] then [] else [DisconnectAlert(gone)]
  }

  /** An update raises an alert exactly when it is not the first, not during shutdown, and some device went offline. */
  lemma AlertWhenSomethingWentOffline(shuttingDown: bool, previous: Status, current: Status)
    ensures AlertActions(shuttingDown, previous, current) != [] <==>
      (!shuttingDown && previous != map[] &&
       exists d :: d in Devices && Online(previous, d) && !Online(current, d))
  {
    var gone := WentOffline(Devices, previous, current);
    if gone != [] {
      WentOfflineMembers(Devices, previous, current, gone[0]);
    } else {
      forall d | d in Devices && Online(previous, d)
        ensures Online(current, d)
      {
        WentOfflineMembers(Devices, previous, current, d);
      }
    }
  }

  /** The relay panel calls of an update: the availability flag, and all-off on first connection. */
  function RelayActions(online: bool, wasInitialized: bool): seq<Action> {
    [RelaysAvailable(online)] + (if online && !wasInitialized then [RelaysAllOff] else [])
  }

  /** The gas-analyser panel calls of an update: availability of BGA01/BGA02, normal mode on first connection. */
  function BgaActions(status: Status, wasInitialized: bool): seq<Action> {
    [BgasAvailable(Online(status, "BGA01"), Online(status, "BGA02"))] +
    (if BgasOnline(status) && !wasInitialized then [BgasNormalMode] else [])
  }

  class Window {
    var initialized: set<string>
    var previousStatus: Status
    var isShuttingDown: bool
    var actions: seq<Action>

    constructor ()
      ensures initialized == {} && previousStatus == map[] && !isShuttingDown && actions == []
    {
      initialized := {};
      previousStatus := map[];
      isShuttingDown := false;
      actions := [];
    }

    /**
     * _check_for_disconnections: no alert on the first report; otherwise one alert
     * listing, in Devices order, what went offline, if anything did.
     */
    method CheckForDisconnections(current: Status) returns (disconnected: seq<string>)
      modifies this`actions
      ensures disconnected == if previousStatus == map[] then [] else WentOffline(Devices, previousStatus, current)
      ensures actions == old(actions) + AlertActions(false, previousStatus, current)
    {
      disconnected := [];
      if previousStatus == map[] {
        return;
      }
      for i := 0 to |Devices|
        invariant disconnected == WentOffline(Devices[..i], previousStatus, current)
      {
        var device := Devices[i];
        var wasOnline := device in previousStatus && previousStatus[device];
        var isOnline := device in current && current[device];
        if wasOnline && !isOnline {
          disconnected := disconnected + [device];
        }
        assert Devices[..i + 1][..i] == Devices[..i];
      }
      assert Devices[..|Devices|] == Devices;
      if disconnected != [] {
        actions := actions + [DisconnectAlert(disconnected)];
      }
    }

    /**
     * _update_control_availability: the disconnect check (skipped while shutting
     * down), relay and gas-analyser availability, the one-time safe-state calls on
     * first connection, and the report kept for the next comparison.
     */
    method UpdateControlAvailability(status: Status)
      modifies this`initialized, this`previousStatus, this`actions
      ensures "RLM" in initialized <==> Online(status, "RLM")
      ensures "BGA" in initialized <==> BgasOnline(status)
      ensures forall d :: d != "RLM" && d != "BGA" ==> (d in initialized <==> d in old(initialized))
      ensures previousStatus == status
      ensures actions == old(actions) + AlertActions(isShuttingDown, old(previousStatus), status) +
        RelayActions(Online(status, "RLM"), "RLM" in old(initialized)) +
        BgaActions(status, "BGA" in old(initialized))
    {
      if !isShuttingDown {
        var _ := CheckForDisconnections(status);
      }
      UpdateRelays("RLM" in status && status["RLM"]);
      UpdateBgas(status);
      previousStatus := status;
    }

    /** The relay half of _update_control_availability: all relays off on first connection. */
    method UpdateRelays(online: bool)
      modifies this`initialized, this`actions
      ensures "RLM" in initialized <==> online
      ensures forall d :: d != "RLM" ==> (d in initialized <==> d in old(initialized))
      ensures actions == old(actions) + RelayActions(online, "RLM" in old(initialized))
    {
      if online && "RLM" !in initialized {
        actions := actions + [RelaysAvailable(online), RelaysAllOff];
        initialized := initialized + {"RLM"};
      } else {
        actions := actions + [RelaysAvailable(online)];
        if !online && "RLM" in initialized {
          initialized := initialized - {"RLM"};
        }
      }
    }

    /** The gas-analyser half: normal mode on first connection of any of the three. */
    method UpdateBgas(bgaStatus: Status)
      modifies this`initialized, this`actions
      ensures "BGA" in initialized <==> BgasOnline(bgaStatus)
      ensures forall d :: d != "BGA" ==> (d in initialized <==> d in old(initialized))
      ensures actions == old(actions) + BgaActions(bgaStatus, "BGA" in old(initialized))
    {
      var bga1 := "BGA01" in bgaStatus && bgaStatus["BGA01"];
      var bga2 := "BGA02" in bgaStatus && bgaStatus["BGA02"];
      var bga3 := "BGA03" in bgaStatus && bgaStatus["BGA03"];
      var anyOnline := bga1 || bga2 || bga3;
      if anyOnline && "BGA" !in initialized {
        actions := actions + [BgasAvailable(bga1, bga2), BgasNormalMode];
        initialized := initialized + {"BGA"};
      } else {
        actions := actions + [BgasAvailable(bga1, bga2)];
        if !anyOnline && "BGA" in initialized {
          initialized := initialized - {"BGA"};
        }
      }
    }

    /**
     * closeEvent: alerts are suppressed from now on, and relays and gas analysers
     * go back to their safe state only when they were initialised. Failures of those
     * calls are only logged, so every call is made.
     */
    method CloseEvent()
      modifies this`isShuttingDown, this`actions
      ensures isShuttingDown
      ensures actions == old(actions) + (if "RLM" in initialized then [RelaysAllOff] else []) +
        (if "BGA" in initialized then [BgasNormalMode] else [])
    {
      isShuttingDown := true;
      if "RLM" in initialized {
        actions := actions + [RelaysAllOff];
      }
      if "BGA" in initialized {
        actions := actions + [BgasNormalMode];
      }
    }
  }

  /** Comparing a report with itself finds nothing offline. */
  lemma SameReportNoneOffline(devices: seq<string>, status: Status)
    ensures WentOffline(devices, status, status) == []
  {
    NothingWentOffline(devices, status, status);
  }

  /**
   * The same report twice: the second update only re-announces availability; it makes
   * no safe-state call and raises no alert.
   */
  method RepeatedReport(w: Window, status: Status) returns (ghost between: seq<Action>)
    modifies w`initialized, w`previousStatus, w`actions
    ensures w.actions == between +
      [RelaysAvailable(Online(status, "RLM")), BgasAvailable(Online(status, "BGA01"), Online(status, "BGA02"))]
  {
    w.UpdateControlAvailability(status);
    between := w.actions;
    SameReportNoneOffline(Devices, status);
    w.UpdateControlAvailability(status);
  }
}

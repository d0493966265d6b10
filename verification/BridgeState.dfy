/**
 * The stored properties of `GpclientBridgeService` and what each stretch of its
 * methods between two suspensions does to them. Dates are seconds.
 */
module BridgeState {
  import opened Options

  datatype Details = Details(
    portal: string,
    gatewayName: string,
    gatewayServer: string,
    assignedIP: Option<string>,
    interfaceName: Option<string>,
    cipher: Option<string>,
    connectedAt: int,
    sessionExpiresAt: Option<int>,
    allowExtendSession: bool)

  datatype VpnState =
    | Disconnected
    | Connecting(status: string)
    | Connected(details: Details)
    | Disconnecting
    | Failed(message: string)
  {
    predicate IsBusy() {
      Connecting? || Disconnecting?
    }
  }

  /** The actor's stored properties that its handlers read or write. */
  datatype Actor = Actor(
    current: VpnState,
    authRunner: bool,
    tunnelRunner: Option<nat>,
    disconnectRequested: bool,
    activeDetails: Option<Details>,
    sessionLifetime: Option<int>)

  const IDLE := Actor(Disconnected, false, None, false, None, None)

  datatype PrivilegeMode = Helper | AdminPrompt

  /** What a call of `connect` or `discoverGateways` brings with it. */
  datatype Profile = Profile(
    portal: string,
    gatewayName: string,
    gatewayServer: string,
    cipher: string,
    needsBrowser: bool,
    binariesFound: bool,
    mode: PrivilegeMode,
    helperUsable: bool,
    promptUsable: bool)

  datatype Interface = Interface(name: string, address: Option<string>)

  /** What an output line of the tunnel asks the actor to do later. */
  datatype Handler =
    | Gateways
    | GatewaySelected(name: string, server: string)
    | TunnelConnected(iface: Option<Interface>)
    | SessionInfo(lifetime: Option<int>, expires: Option<int>, allowExtend: bool)
    | SessionExtended

  function NewDetails(portal: string, name: string, server: string, cipher: Option<string>, now: int): Details {
    Details(portal, name, server, None, None, cipher, now, None, false)
  }

  // Output handlers.

  function HandleGatewaySelected(a: Actor, name: string, server: string): Actor {
    if a.activeDetails.None? then a else
      a.(activeDetails := Some(a.activeDetails.value.(gatewayName := name, gatewayServer := server)),
         current := Connecting("Connecting to gateway " + name))
  }

  function HandleTunnelConnected(a: Actor, iface: Option<Interface>, now: int): Actor {
    if a.activeDetails.None? then a else
      var d := a.activeDetails.value;
      var d1 := if iface.None? then d else
        d.(interfaceName := Some(iface.value.name), assignedIP := iface.value.address);
      var d2 := d1.(connectedAt := now);
      var d3 := if a.sessionLifetime.Some? && d2.sessionExpiresAt.None?
                then d2.(sessionExpiresAt := Some(now + a.sessionLifetime.value)) else d2;
      a.(activeDetails := Some(d3), current := Connected(d3))
  }

  function HandleSessionInfo(a: Actor, lifetime: Option<int>, expires: Option<int>, allowExtend: bool, now: int)
    : Actor
  {
    if a.activeDetails.None? then a else
      var until := if expires.Some? then expires
                   else if lifetime.Some? then Some(now + lifetime.value)
                   else a.activeDetails.value.sessionExpiresAt;
      var d := a.activeDetails.value.(sessionExpiresAt := until, allowExtendSession := allowExtend);
      a.(sessionLifetime := if lifetime.Some? then lifetime else a.sessionLifetime,
         activeDetails := Some(d),
         current := if a.current.Connected? then Connected(d) else a.current)
  }

  function HandleSessionExtended(a: Actor, now: int): Actor {
    if a.activeDetails.None? || a.sessionLifetime.None? then a else
      var d := a.activeDetails.value.(sessionExpiresAt := Some(now + a.sessionLifetime.value));
      a.(activeDetails := Some(d), current := if a.current.Connected? then Connected(d) else a.current)
  }

  function Handle(a: Actor, h: Handler, now: int): Actor {
    match h
    case Gateways => a
    case GatewaySelected(name, server) => HandleGatewaySelected(a, name, server)
    case TunnelConnected(iface) => HandleTunnelConnected(a, iface, now)
    case SessionInfo(lifetime, expires, allowExtend) => HandleSessionInfo(a, lifetime, expires, allowExtend, now)
    case SessionExtended => HandleSessionExtended(a, now)
  }

  // The end of a tunnel.

  function FinishTunnel(a: Actor, exitCode: int, lastError: Option<string>, privilegeDenied: bool): Actor {
    var wasConnected := a.current.Connected?;
    var settled := a.(tunnelRunner := None, activeDetails := None);
    if a.disconnectRequested then settled.(current := Disconnected)
    else if privilegeDenied && !wasConnected then settled.(current := Failed("privilege denied"))
    else if exitCode == 0 then settled.(current := Disconnected)
    else settled.(current := Failed(
      if lastError.Some? then lastError.value
      else if wasConnected then "tunnel dropped" else "exited before the tunnel came up"))
  }

  // Starting a tunnel.

  /** The mode `startTunnel` settles on: the requested one, else the dialog, else none. */
  function RunnerMode(p: Profile): Option<PrivilegeMode> {
    if p.mode.Helper? && p.helperUsable then Some(Helper)
    else if p.promptUsable then Some(AdminPrompt)
    else None
  }

  function LaunchStatus(mode: PrivilegeMode): string {
    if mode.Helper? then "Connecting" else "Requesting administrator privileges"
  }

  /** From the end of sign-in to the supervised tunnel `id`; no suspension in between. */
  function StartTunnel(a: Actor, p: Profile, id: nat, now: int): Actor {
    var d := NewDetails(p.portal, p.gatewayName, p.gatewayServer, Some(p.cipher), now);
    var ready := a.(activeDetails := Some(d));
    var mode := RunnerMode(p);
    if mode.None? then ready.(current := Failed("privilege denied"))
    else ready.(current := Connecting(LaunchStatus(mode.value)), tunnelRunner := Some(id))
  }

  predicate ConnectAllowed(a: Actor, p: Profile) {
    p.portal != "" && !a.current.IsBusy() && !a.current.Connected? && p.binariesFound
  }

  function ConnectReset(a: Actor): Actor {
    a.(disconnectRequested := false, activeDetails := None, sessionLifetime := None)
  }

  function BeginBrowserAuth(a: Actor): Actor {
    a.(current := Connecting("Signing in"), authRunner := true)
  }

  /** `connect` up to its first suspension, or to its end when no browser is needed. */
  function Connect(a: Actor, p: Profile, id: nat, now: int): Actor {
    if !ConnectAllowed(a, p) then a
    else if p.needsBrowser then BeginBrowserAuth(ConnectReset(a))
    else StartTunnel(ConnectReset(a), p, id, now)
  }

  /** `connect` resumed by the end of the browser step. */
  function ConnectResumed(a: Actor, p: Profile, failure: Option<string>, id: nat, now: int): Actor {
    var back := a.(authRunner := false);
    if back.disconnectRequested then back.(current := Disconnected)
    else if failure.Some? then back.(current := Failed(failure.value))
    else StartTunnel(back, p, id, now)
  }

  // Gateway discovery.

  predicate DiscoverAllowed(a: Actor, p: Profile) {
    p.portal != "" && !a.current.IsBusy() && p.binariesFound
  }

  function BeginListing(a: Actor): Actor {
    a.(current := Connecting("Discovering gateways"), authRunner := true)
  }

  function Discover(a: Actor, p: Profile): Actor {
    if !DiscoverAllowed(a, p) then a else
      var b := a.(disconnectRequested := false);
      if p.needsBrowser then BeginBrowserAuth(b) else BeginListing(b)
  }

  /** The deferred restore of the state saved when discovery began. */
  function EndDiscovery(a: Actor, previous: VpnState): Actor {
    var back := a.(authRunner := false);
    if back.current.Connected? then back else back.(current := previous)
  }

  function DiscoverAuthReturned(a: Actor, previous: VpnState, failed: bool): Actor {
    if failed || a.disconnectRequested then EndDiscovery(a, previous) else BeginListing(a.(authRunner := false))
  }

  // Adoption and disconnect.

  predicate AdoptAllowed(a: Actor) {
    a.current.Disconnected? && a.tunnelRunner.None?
  }

  /** `beginAttached` and `superviseTunnel`, once the lookup found a session. */
  function Attach(a: Actor, portal: Option<string>, id: nat, now: int): Actor {
    var named := if portal.Some? then portal.value else "";
    var d := NewDetails(named, if portal.Some? then portal.value else "the previous session", named, None, now);
    a.(disconnectRequested := false, sessionLifetime := None, activeDetails := Some(d),
       current := Connecting("Re-attaching"), tunnelRunner := Some(id))
  }

  /** `disconnect` up to its first suspension; the rest of it writes no property. */
  function Disconnect(a: Actor): Actor {
    var b := a.(disconnectRequested := true);
    if b.authRunner then b.(current := Disconnecting)
    else if b.tunnelRunner.Some? then b.(current := Disconnecting)
    else if b.current.Disconnected? then b
    else b.(current := Disconnected)
  }
}

/** The actor as a class: each method updates the stored properties in place. */
module BridgeService {
  import opened Options
  import opened BridgeState

  class GpclientBridgeService {
    var currentState: VpnState
    var authRunner: bool
    var tunnelRunner: Option<nat>
    var disconnectRequested: bool
    var activeDetails: Option<Details>
    var sessionLifetime: Option<int>

    ghost function View(): Actor
      reads this
    {
      Actor(currentState, authRunner, tunnelRunner, disconnectRequested, activeDetails, sessionLifetime)
    }

    constructor ()
      ensures View() == IDLE
    {
      currentState, authRunner, tunnelRunner := Disconnected, false, None;
      disconnectRequested, activeDetails, sessionLifetime := false, None, None;
    }

    method HandleGatewaySelected(name: string, server: string)
      modifies this
      ensures View() == BridgeState.HandleGatewaySelected(old(View()), name, server)
      ensures old(activeDetails).Some? ==>
                && activeDetails == Some(old(activeDetails).value.(gatewayName := name, gatewayServer := server))
                && currentState == Connecting("Connecting to gateway " + name)
    {
      if activeDetails.None? { return; }
      var details := activeDetails.value;
      details := details.(gatewayName := name);
      details := details.(gatewayServer := server);
      activeDetails := Some(details);
      currentState := Connecting("Connecting to gateway " + name);
    }

    method HandleTunnelConnected(iface: Option<Interface>, now: int)
      modifies this
      ensures View() == BridgeState.HandleTunnelConnected(old(View()), iface, now)
      ensures old(activeDetails).Some? ==>
                activeDetails.Some? && currentState == Connected(activeDetails.value)
                && activeDetails.value.connectedAt == now
      ensures old(activeDetails).Some? && iface.Some? ==>
                && activeDetails.value.interfaceName == Some(iface.value.name)
                && activeDetails.value.assignedIP == iface.value.address
      ensures old(activeDetails).Some? && old(activeDetails).value.sessionExpiresAt.None? ==>
                activeDetails.value.sessionExpiresAt
                  == if sessionLifetime.Some? then Some(now + sessionLifetime.value) else None
    {
      if activeDetails.None? { return; }
      var details := activeDetails.value;
      if iface.Some? {
        details := details.(interfaceName := Some(iface.value.name));
        details := details.(assignedIP := iface.value.address);
      }
      details := details.(connectedAt := now);
      if sessionLifetime.Some? && details.sessionExpiresAt.None? {
        details := details.(sessionExpiresAt := Some(details.connectedAt + sessionLifetime.value));
      }
      activeDetails := Some(details);
      currentState := Connected(details);
    }

    method HandleSessionInfo(lifetime: Option<int>, expires: Option<int>, allowExtend: bool, now: int)
      modifies this
      ensures View() == BridgeState.HandleSessionInfo(old(View()), lifetime, expires, allowExtend, now)
      ensures old(activeDetails).Some? ==>
                activeDetails.Some? && activeDetails.value.allowExtendSession == allowExtend
      ensures old(activeDetails).Some? && lifetime.Some? ==> sessionLifetime == lifetime
      ensures old(activeDetails).Some? && expires.Some? ==> activeDetails.value.sessionExpiresAt == expires
      ensures old(activeDetails).Some? && expires.None? && lifetime.Some? ==>
                activeDetails.value.sessionExpiresAt == Some(now + lifetime.value)
    {
      if activeDetails.None? { return; }
      var details := activeDetails.value;
      if lifetime.Some? {
        sessionLifetime := lifetime;
      }
      if expires.Some? {
        details := details.(sessionExpiresAt := expires);
      } else if lifetime.Some? {
        details := details.(sessionExpiresAt := Some(now + lifetime.value));
      }
      details := details.(allowExtendSession := allowExtend);
      activeDetails := Some(details);
      if currentState.Connected? {
        currentState := Connected(details);
      }
    }

    method HandleSessionExtended(now: int)
      modifies this
      ensures View() == BridgeState.HandleSessionExtended(old(View()), now)
      ensures old(activeDetails).Some? && old(sessionLifetime).Some? ==>
                activeDetails
                  == Some(old(activeDetails).value.(sessionExpiresAt := Some(now + old(sessionLifetime).value)))
    {
      if activeDetails.None? || sessionLifetime.None? { return; }
      var details := activeDetails.value.(sessionExpiresAt := Some(now + sessionLifetime.value));
      activeDetails := Some(details);
      if currentState.Connected? {
        currentState := Connected(details);
      }
    }

    method FinishTunnel(exitCode: int, lastError: Option<string>, privilegeDenied: bool)
      modifies this
      ensures View() == BridgeState.FinishTunnel(old(View()), exitCode, lastError, privilegeDenied)
      ensures tunnelRunner.None? && activeDetails.None?
      ensures old(disconnectRequested) ==> currentState == Disconnected
      ensures !old(disconnectRequested) && privilegeDenied && !old(currentState).Connected? ==>
                currentState == Failed("privilege denied")
      ensures !old(disconnectRequested) && (!privilegeDenied || old(currentState).Connected?) ==>
                && (exitCode == 0 ==> currentState == Disconnected)
                && (exitCode != 0 && lastError.Some? ==> currentState == Failed(lastError.value))
                && (exitCode != 0 && lastError.None? && old(currentState).Connected? ==>
                      currentState == Failed("tunnel dropped"))
                && (exitCode != 0 && lastError.None? && !old(currentState).Connected? ==>
                      currentState == Failed("exited before the tunnel came up"))
    {
      tunnelRunner := None;
      var wasConnected := currentState.Connected?;
      activeDetails := None;
      if disconnectRequested {
        currentState := Disconnected;
        return;
      }
      if privilegeDenied && !wasConnected {
        currentState := Failed("privilege denied");
        return;
      }
      if exitCode == 0 {
        currentState := Disconnected;
      } else {
        var reason := if lastError.Some? then lastError.value
                      else if wasConnected then "tunnel dropped" else "exited before the tunnel came up";
        currentState := Failed(reason);
      }
    }

    method StartTunnel(p: Profile, id: nat, now: int)
      modifies this
      ensures View() == BridgeState.StartTunnel(old(View()), p, id, now)
      ensures activeDetails
           == Some(Details(portal := p.portal, gatewayName := p.gatewayName, gatewayServer := p.gatewayServer,
                           cipher := Some(p.cipher), connectedAt := now, assignedIP := None, interfaceName := None,
                           sessionExpiresAt := None, allowExtendSession := false))
      ensures p.mode == Helper && p.helperUsable ==>
                currentState == Connecting("Connecting") && tunnelRunner == Some(id)
      ensures !(p.mode == Helper && p.helperUsable) && p.promptUsable ==>
                currentState == Connecting("Requesting administrator privileges") && tunnelRunner == Some(id)
      ensures !(p.mode == Helper && p.helperUsable) && !p.promptUsable ==>
                currentState == Failed("privilege denied") && tunnelRunner == old(tunnelRunner)
    {
      activeDetails := Some(NewDetails(p.portal, p.gatewayName, p.gatewayServer, Some(p.cipher), now));
      var mode := p.mode;
      var usable := if mode.Helper? then p.helperUsable else p.promptUsable;
      if !usable && mode.Helper? {
        mode := AdminPrompt;
        usable := p.promptUsable;
      }
      if !usable {
        currentState := Failed("privilege denied");
        return;
      }
      match mode {
        case Helper => currentState := Connecting("Connecting");
        case AdminPrompt => currentState := Connecting("Requesting administrator privileges");
      }
      tunnelRunner := Some(id);
    }

    /** `connect` up to its first suspension; `accepted` tells a throw from a start. */
    method Connect(p: Profile, id: nat, now: int) returns (accepted: bool)
      modifies this
      ensures accepted <==> p.portal != "" && p.binariesFound
                            && (old(currentState).Disconnected? || old(currentState).Failed?)
      ensures View() == BridgeState.Connect(old(View()), p, id, now)
      ensures !accepted ==> View() == old(View())
      ensures accepted ==> !disconnectRequested && sessionLifetime.None?
      ensures accepted && p.needsBrowser ==>
                currentState == Connecting("Signing in") && authRunner && activeDetails.None?
      ensures accepted && !p.needsBrowser ==> activeDetails.Some? && activeDetails.value.portal == p.portal
    {
      if p.portal == "" || currentState.IsBusy() || currentState.Connected? || !p.binariesFound {
        return false;
      }
      disconnectRequested := false;
      activeDetails := None;
      sessionLifetime := None;
      if p.needsBrowser {
        currentState := Connecting("Signing in");
        authRunner := true;
      } else {
        StartTunnel(p, id, now);
      }
      return true;
    }

    method ConnectResumed(p: Profile, failure: Option<string>, id: nat, now: int)
      modifies this
      ensures View() == BridgeState.ConnectResumed(old(View()), p, failure, id, now)
      ensures !authRunner
      ensures old(disconnectRequested) ==> currentState == Disconnected && tunnelRunner == old(tunnelRunner)
      ensures !old(disconnectRequested) && failure.Some? ==>
                currentState == Failed(failure.value) && tunnelRunner == old(tunnelRunner)
      ensures !old(disconnectRequested) && failure.None? ==>
                activeDetails.Some? && activeDetails.value.portal == p.portal && activeDetails.value.connectedAt == now
    {
      authRunner := false;
      if failure.Some? {
        if disconnectRequested {
          currentState := Disconnected;
          return;
        }
        currentState := Failed(failure.value);
        return;
      }
      if disconnectRequested {
        currentState := Disconnected;
        return;
      }
      StartTunnel(p, id, now);
    }

    /** `adoptOrphanedSession` with the lookup already answered. */
    method AdoptOrphanedSession(found: bool, portal: Option<string>, id: nat, now: int) returns (adopted: bool)
      modifies this
      ensures adopted <==> found && old(currentState).Disconnected? && old(tunnelRunner).None?
      ensures View() == if adopted then Attach(old(View()), portal, id, now) else old(View())
      ensures adopted ==> currentState == Connecting("Re-attaching") && tunnelRunner == Some(id)
      ensures adopted ==>
                && activeDetails.Some? && activeDetails.value.connectedAt == now
                && activeDetails.value.portal == (if portal.Some? then portal.value else "")
                && activeDetails.value.gatewayServer == (if portal.Some? then portal.value else "")
                && activeDetails.value.gatewayName == (if portal.Some? then portal.value else "the previous session")
    {
      if !currentState.Disconnected? || tunnelRunner.Some? || !found {
        return false;
      }
      disconnectRequested := false;
      sessionLifetime := None;
      var named := if portal.Some? then portal.value else "";
      var shown := if portal.Some? then portal.value else "the previous session";
      activeDetails := Some(NewDetails(named, shown, named, None, now));
      currentState := Connecting("Re-attaching");
      tunnelRunner := Some(id);
      return true;
    }

    method Disconnect()
      modifies this
      ensures View() == BridgeState.Disconnect(old(View()))
      ensures disconnectRequested
      ensures currentState == if old(authRunner) || old(tunnelRunner).Some? then Disconnecting else Disconnected
    {
      disconnectRequested := true;
      if authRunner {
        currentState := Disconnecting;
        return;
      }
      if tunnelRunner.None? {
        if !currentState.Disconnected? {
          currentState := Disconnected;
        }
        return;
      }
      currentState := Disconnecting;
    }

    /** `discoverGateways` up to its first suspension, with the state it will restore. */
    method DiscoverGateways(p: Profile) returns (accepted: bool, previous: VpnState)
      modifies this
      ensures accepted <==> p.portal != "" && p.binariesFound
                            && !old(currentState).Connecting? && !old(currentState).Disconnecting?
      ensures previous == old(currentState)
      ensures View() == Discover(old(View()), p)
      ensures accepted ==>
                && authRunner
                && currentState == Connecting(if p.needsBrowser then "Signing in" else "Discovering gateways")
    {
      previous := currentState;
      if p.portal == "" || currentState.IsBusy() || !p.binariesFound {
        return false, previous;
      }
      disconnectRequested := false;
      currentState := Connecting(if p.needsBrowser then "Signing in" else "Discovering gateways");
      authRunner := true;
      return true, previous;
    }

    method DiscoveryResumed(listing: bool, previous: VpnState, failed: bool) returns (ended: bool)
      modifies this
      ensures ended == (listing || failed || old(disconnectRequested))
      ensures View() == if listing then EndDiscovery(old(View()), previous)
                        else DiscoverAuthReturned(old(View()), previous, failed)
      ensures ended ==> currentState == if old(currentState).Connected? then old(currentState) else previous
      ensures !ended ==> currentState == Connecting("Discovering gateways") && authRunner
    {
      authRunner := false;
      if !listing && !failed && !disconnectRequested {
        currentState := Connecting("Discovering gateways");
        authRunner := true;
        return false;
      }
      if !currentState.Connected? {
        currentState := previous;
      }
      return true;
    }
  }
}

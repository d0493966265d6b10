/**
 * Auto-gateway mode: the loop of apps/gpclient/src/connect/mod.rs over `connect_gateway_with_fallback`,
 * `connect_gateway` and `classify_openconnect_result` of apps/gpclient/src/connect/gateway.rs.
 * What the network, the user and OpenConnect answer is part of the input.
 */
module AutoGateway {
  import opened Options

  const INTERRUPTED := -4

  datatype Stage = BeforeTunnel | AfterTunnel

  type Outcome = Result<(), Stage>

  /** The answers on the way to a gateway cookie. */
  datatype Login = Login(
    prelogin: bool,
    portalCookie: bool,             // the portal gave cookies a gateway accepts
    portalLogin: bool,
    credential: bool,
    gatewayLogin: bool)

  /** The answers while a tunnel is opened and run. */
  datatype Tunnel = Tunnel(
    uid: bool,
    built: bool,
    exitCode: int,
    established: bool,
    interrupted: bool,
    pidFile: bool,
    pidFileRemoved: bool)

  datatype Attempt = Attempt(login: Login, tunnel: Tunnel)

  function Classify(exitCode: int, established: bool, interrupted: bool): Outcome {
    if exitCode == 0 then Ok(())
    else if interrupted && exitCode == INTERRUPTED then Ok(())
    else Err(if established then AfterTunnel else BeforeTunnel)
  }

  function ConnectGateway(t: Tunnel, cookieOnly: bool): Outcome {
    if cookieOnly then Ok(())
    else if !t.uid || !t.built then Err(BeforeTunnel)
    else if t.pidFile && !t.pidFileRemoved then Err(AfterTunnel)
    else Classify(t.exitCode, t.established, t.interrupted)
  }

  /** Portal cookie first, then the gateway's own login. */
  function ConnectWithFallback(a: Attempt, cookieOnly: bool): Outcome {
    var l := a.login;
    if !l.prelogin then Err(BeforeTunnel)
    else if l.portalCookie && l.portalLogin then ConnectGateway(a.tunnel, cookieOnly)
    else if !l.credential || !l.gatewayLogin then Err(BeforeTunnel)
    else ConnectGateway(a.tunnel, cookieOnly)
  }

  predicate LoggedIn(l: Login) {
    l.prelogin && ((l.portalCookie && l.portalLogin) || (l.credential && l.gatewayLogin))
  }

  /** OpenConnect was run. */
  predicate Ran(a: Attempt, cookieOnly: bool) {
    LoggedIn(a.login) && !cookieOnly && a.tunnel.uid && a.tunnel.built
  }

  predicate TunnelCameUp(a: Attempt, cookieOnly: bool) {
    Ran(a, cookieOnly) && a.tunnel.established
  }

  predicate PidFileStuck(t: Tunnel) {
    t.pidFile && !t.pidFileRemoved
  }

  /** It ended well: a clean exit, or the exit the user asked for. */
  predicate EndedWell(t: Tunnel) {
    t.exitCode == 0 || (t.interrupted && t.exitCode == -4)
  }

  predicate Succeeds(a: Attempt, cookieOnly: bool) {
    LoggedIn(a.login) && (cookieOnly || (Ran(a, cookieOnly) && !PidFileStuck(a.tunnel) && EndedWell(a.tunnel)))
  }

  predicate FailsAfterTunnel(a: Attempt, cookieOnly: bool) {
    Ran(a, cookieOnly) && (PidFileStuck(a.tunnel) || (a.tunnel.established && !EndedWell(a.tunnel)))
  }

  lemma OutcomeMeans(a: Attempt, cookieOnly: bool)
    ensures ConnectWithFallback(a, cookieOnly).Ok? <==> Succeeds(a, cookieOnly)
    ensures ConnectWithFallback(a, cookieOnly) == Err(AfterTunnel) <==> FailsAfterTunnel(a, cookieOnly)
  {
  }

  /**
   * Main result: the loop over the gateways in order, how many it tried and whether it returned Ok,
   * in terms of what was answered. It stops at the first that succeeds or fails after its tunnel.
   */
  method TryGateways(attempts: seq<Attempt>, cookieOnly: bool) returns (tried: nat, ok: bool)
    ensures tried <= |attempts| && (tried == 0 <==> attempts == [])
    ensures ok <==> tried > 0 && Succeeds(attempts[tried - 1], cookieOnly)
    ensures forall k | 0 <= k < tried - 1 ::
              && ConnectWithFallback(attempts[k], cookieOnly) == Err(BeforeTunnel)
              && !Succeeds(attempts[k], cookieOnly) && !FailsAfterTunnel(attempts[k], cookieOnly)
              && !TunnelCameUp(attempts[k], cookieOnly)
    ensures 0 < tried < |attempts| ==>
              Succeeds(attempts[tried - 1], cookieOnly) || FailsAfterTunnel(attempts[tried - 1], cookieOnly)
  {
    if attempts == [] {
      return 0, false;
    }
    tried := 0;
    while tried < |attempts|
      invariant tried <= |attempts|
      invariant forall k | 0 <= k < tried ::
                  && ConnectWithFallback(attempts[k], cookieOnly) == Err(BeforeTunnel)
                  && !Succeeds(attempts[k], cookieOnly) && !FailsAfterTunnel(attempts[k], cookieOnly)
                  && !TunnelCameUp(attempts[k], cookieOnly)
    {
      OutcomeMeans(attempts[tried], cookieOnly);
      var outcome := ConnectWithFallback(attempts[tried], cookieOnly);
      tried := tried + 1;
      if outcome.Ok? {
        return tried, true;
      }
      if outcome.error != BeforeTunnel {
        return tried, false;
      }
    }
    ok := false;
  }

  /**
   * The stage is not quite whether the tunnel came up: a PID file that cannot be removed counts as
   * after the tunnel. Without one, the loop stops at a gateway exactly when its tunnel came up or
   * it ended well.
   */
  lemma LoopGoesOnIff(a: Attempt, cookieOnly: bool)
    requires Ran(a, cookieOnly)
    ensures ConnectWithFallback(a, cookieOnly) == Err(BeforeTunnel) <==>
              !PidFileStuck(a.tunnel) && !a.tunnel.established && !EndedWell(a.tunnel)
  {
  }

  /** An interrupt before the tunnel is up, answered with any other code, moves on to the next gateway. */
  lemma InterruptCanMoveOn() returns (a: Attempt)
    ensures Ran(a, false) && a.tunnel.interrupted && ConnectWithFallback(a, false) == Err(BeforeTunnel)
  {
    a := Attempt(Login(true, true, true, false, false), Tunnel(true, true, 1, false, true, false, false));
  }
}

/**
 * What a tunnel's handlers leave in the details, for every sequence of them: each field is said in
 * terms of the handlers delivered and the instants at which they ran.
 */
module BridgeReplay {
  import opened Options
  import opened BridgeState
  import opened BridgeRuns

  predicate Brings(h: Handler) {
    h.TunnelConnected? && h.iface.Some?
  }

  /** The last report of a tunnel that came up. */
  function LastUp(ds: seq<Delivery>): (r: Option<Delivery>)
    ensures r.Some? ==> r.value.handler.TunnelConnected?
  {
    if ds == [] then None
    else if ds[|ds| - 1].handler.TunnelConnected? then Some(ds[|ds| - 1])
    else LastUp(ds[..|ds| - 1])
  }

  /** The last interface reported. */
  function LastInterface(ds: seq<Delivery>): Option<Interface> {
    if ds == [] then None
    else if Brings(ds[|ds| - 1].handler) then ds[|ds| - 1].handler.iface
    else LastInterface(ds[..|ds| - 1])
  }

  /** The last lifetime reported. */
  function LastLifetime(ds: seq<Delivery>): Option<int> {
    if ds == [] then None
    else
      var h := ds[|ds| - 1].handler;
      if h.SessionInfo? && h.lifetime.Some? then h.lifetime else LastLifetime(ds[..|ds| - 1])
  }

  function Or<T>(a: Option<T>, b: Option<T>): Option<T> {
    if a.Some? then a else b
  }

  /** What one handler writes of the connection and the session. */
  lemma HandlerConnects(a: Actor, h: Handler, now: int)
    requires a.activeDetails.Some?
    ensures Handle(a, h, now).activeDetails.Some?
    ensures var d0, d := a.activeDetails.value, Handle(a, h, now).activeDetails.value;
            && d.connectedAt == (if h.TunnelConnected? then now else d0.connectedAt)
            && d.interfaceName == (if Brings(h) then Some(h.iface.value.name) else d0.interfaceName)
            && d.assignedIP == (if Brings(h) then h.iface.value.address else d0.assignedIP)
    ensures Handle(a, h, now).sessionLifetime
         == if h.SessionInfo? && h.lifetime.Some? then h.lifetime else a.sessionLifetime
    ensures (a.current.Connected? ==> a.current.details == a.activeDetails.value) ==>
              var b := Handle(a, h, now); b.current.Connected? ==> b.current.details == b.activeDetails.value
  {
  }

  /**
   * Main result. Interface and address are those of the last interface reported, the connection
   * time is the instant of the last report that the tunnel came up, the session lifetime is the last
   * one reported, and a connection is shown with the current details.
   */
  lemma {:induction false} ReplayRecoversConnection(a: Actor, ds: seq<Delivery>)
    requires a.activeDetails.Some?
    requires a.current.Connected? ==> a.current.details == a.activeDetails.value
    ensures DeliverAll(a, ds).activeDetails.Some?
    ensures var d0, d := a.activeDetails.value, DeliverAll(a, ds).activeDetails.value;
            var up, iface := LastUp(ds), LastInterface(ds);
            && d.connectedAt == (if up.Some? then up.value.now else d0.connectedAt)
            && d.interfaceName == (if iface.Some? then Some(iface.value.name) else d0.interfaceName)
            && d.assignedIP == (if iface.Some? then iface.value.address else d0.assignedIP)
    ensures DeliverAll(a, ds).sessionLifetime == Or(LastLifetime(ds), a.sessionLifetime)
    ensures var b := DeliverAll(a, ds); b.current.Connected? ==> b.current.details == b.activeDetails.value
    decreases |ds|
  {
    if ds != [] {
      var n := |ds| - 1;
      ReplayRecoversConnection(a, ds[..n]);
      HandlerConnects(DeliverAll(a, ds[..n]), ds[n].handler, ds[n].now);
    }
  }

  /** The lifetime known when the `i`-th handler runs. */
  function KnownLifetime(a: Actor, ds: seq<Delivery>, i: nat): Option<int>
    requires i <= |ds|
  {
    Or(LastLifetime(ds[..i]), a.sessionLifetime)
  }

  /** The `i`-th handler sets the expiry whatever it was: a report with an expiry or a lifetime, or an extension. */
  predicate Sets(a: Actor, ds: seq<Delivery>, i: nat)
    requires i < |ds|
  {
    var h := ds[i].handler;
    || (h.SessionInfo? && (h.expires.Some? || h.lifetime.Some?))
    || (h.SessionExtended? && KnownLifetime(a, ds, i).Some?)
  }

  function SetTo(a: Actor, ds: seq<Delivery>, i: nat): int
    requires i < |ds| && Sets(a, ds, i)
  {
    var h := ds[i].handler;
    if h.SessionExtended? then ds[i].now + KnownLifetime(a, ds, i).value
    else if h.expires.Some? then h.expires.value
    else ds[i].now + h.lifetime.value
  }

  function Expiry(a: Actor): Option<int> {
    if a.activeDetails.Some? then a.activeDetails.value.sessionExpiresAt else None
  }

  /** What one handler does to the expiry, given the lifetime known when it runs. */
  function NewExpiry(before: Option<int>, known: Option<int>, h: Handler, now: int): Option<int> {
    if h.SessionInfo? && h.expires.Some? then h.expires
    else if h.SessionInfo? && h.lifetime.Some? then Some(now + h.lifetime.value)
    else if h.SessionExtended? && known.Some? then Some(now + known.value)
    else if h.TunnelConnected? && before.None? && known.Some? then Some(now + known.value)
    else before
  }

  lemma HandlerExpires(a: Actor, h: Handler, now: int)
    requires a.activeDetails.Some?
    ensures Expiry(Handle(a, h, now)) == NewExpiry(Expiry(a), a.sessionLifetime, h, now)
  {
  }

  lemma SetsBefore(a: Actor, ds: seq<Delivery>, n: nat)
    requires n <= |ds|
    ensures forall i | 0 <= i < n :: Sets(a, ds[..n], i) <==> Sets(a, ds, i)
    ensures forall i | 0 <= i < n && Sets(a, ds, i) :: SetTo(a, ds[..n], i) == SetTo(a, ds, i)
  {
    assert forall i | 0 <= i < n :: ds[..n][..i] == ds[..i];
  }

  lemma LastHandlerExpires(a: Actor, ds: seq<Delivery>, n: nat)
    requires a.activeDetails.Some? && |ds| == n + 1
    requires a.current.Connected? ==> a.current.details == a.activeDetails.value
    ensures Expiry(DeliverAll(a, ds))
         == NewExpiry(Expiry(DeliverAll(a, ds[..n])), KnownLifetime(a, ds, n), ds[n].handler, ds[n].now)
  {
    ReplayRecoversConnection(a, ds[..n]);
    HandlerExpires(DeliverAll(a, ds[..n]), ds[n].handler, ds[n].now);
  }

  /** Main result. The last handler that sets the expiry decides it. */
  lemma {:induction false} LastSetterDecidesExpiry(a: Actor, ds: seq<Delivery>, i: nat)
    requires a.activeDetails.Some? && i < |ds| && Sets(a, ds, i)
    requires a.current.Connected? ==> a.current.details == a.activeDetails.value
    requires forall j | i < j < |ds| :: !Sets(a, ds, j)
    ensures Expiry(DeliverAll(a, ds)) == Some(SetTo(a, ds, i))
    decreases |ds|
  {
    var n := |ds| - 1;
    LastHandlerExpires(a, ds, n);
    if i < n {
      SetsBefore(a, ds, n);
      LastSetterDecidesExpiry(a, ds[..n], i);
      assert !Sets(a, ds, n);
    }
  }

  predicate FirstUp(ds: seq<Delivery>, u: nat) {
    && u < |ds| && ds[u].handler.TunnelConnected?
    && forall j | 0 <= j < u :: !ds[j].handler.TunnelConnected?
  }

  lemma {:induction false} NoLifetimeWithoutSetter(a: Actor, ds: seq<Delivery>)
    requires forall j | 0 <= j < |ds| :: !Sets(a, ds, j)
    ensures LastLifetime(ds).None?
    decreases |ds|
  {
    if ds != [] {
      var n := |ds| - 1;
      SetsBefore(a, ds, n);
      NoLifetimeWithoutSetter(a, ds[..n]);
      assert !Sets(a, ds, n);
    }
  }

  /** With no such handler, an expiry stands, and without a known lifetime or a tunnel that came up none appears. */
  lemma {:induction false} ExpiryStands(a: Actor, ds: seq<Delivery>)
    requires a.activeDetails.Some?
    requires a.current.Connected? ==> a.current.details == a.activeDetails.value
    requires forall j | 0 <= j < |ds| :: !Sets(a, ds, j)
    requires Expiry(a).Some? || a.sessionLifetime.None? || LastUp(ds).None?
    ensures Expiry(DeliverAll(a, ds)) == Expiry(a)
    decreases |ds|
  {
    if ds != [] {
      var n := |ds| - 1;
      SetsBefore(a, ds, n);
      NoLifetimeWithoutSetter(a, ds[..n]);
      ExpiryStands(a, ds[..n]);
      LastHandlerExpires(a, ds, n);
      assert !Sets(a, ds, n);
    }
  }

  lemma {:induction false} NoneUp(ds: seq<Delivery>)
    requires forall j | 0 <= j < |ds| :: !ds[j].handler.TunnelConnected?
    ensures LastUp(ds).None?
  {
    if ds != [] {
      NoneUp(ds[..|ds| - 1]);
    }
  }

  /**
   * Main result. With no such handler and no expiry at first, a known lifetime is counted from the
   * first report that the tunnel came up.
   */
  lemma {:induction false} FirstUpDecidesExpiry(a: Actor, ds: seq<Delivery>, u: nat)
    requires a.activeDetails.Some? && Expiry(a).None? && a.sessionLifetime.Some?
    requires a.current.Connected? ==> a.current.details == a.activeDetails.value
    requires forall j | 0 <= j < |ds| :: !Sets(a, ds, j)
    requires FirstUp(ds, u)
    ensures Expiry(DeliverAll(a, ds)) == Some(ds[u].now + a.sessionLifetime.value)
    decreases |ds|
  {
    var n := |ds| - 1;
    SetsBefore(a, ds, n);
    NoLifetimeWithoutSetter(a, ds[..n]);
    LastHandlerExpires(a, ds, n);
    assert !Sets(a, ds, n);
    if u < n {
      FirstUpDecidesExpiry(a, ds[..n], u);
    } else {
      NoneUp(ds[..n]);
      ExpiryStands(a, ds[..n]);
    }
  }
}

/**
 * Automatic session renewal: the loop of apps/gpclient/src/session.rs over the u32 arithmetic of
 * `build_session_warning_schedule` and `rescheduled_after_extension`. Instants are whole seconds
 * since the epoch on a clock that never stops; the program sees them as u32.
 */
module SessionRenewal {
  import opened Options
  import opened Decimal

  datatype SessionInfo = SessionInfo(
    lifetime: Option<nat>,
    expires: Option<nat>,
    prior: Option<nat>,             // of `lifetime_warning`
    allowExtend: bool)

  predicate IsU32(n: Option<nat>) {
    n.Some? ==> n.value <= U32_MAX
  }

  predicate Fits(info: SessionInfo) {
    IsU32(info.lifetime) && IsU32(info.expires) && IsU32(info.prior)
  }

  function SaturatingSub(a: nat, b: nat): nat {
    if a <= b then 0 else a - b
  }

  function SaturatingAdd(a: nat, b: nat): nat {
    if a + b <= U32_MAX then a + b else U32_MAX
  }

  /** `as_secs() as u32` keeps the low 32 bits. */
  function Clock(instant: nat): nat {
    instant % (U32_MAX + 1)
  }

  /** The delay of the next warning, if one can be scheduled. */
  function Delay(info: SessionInfo, instant: nat): Option<nat> {
    if info.prior.None? then None
    else if info.expires.Some? then
      Some(SaturatingSub(SaturatingSub(info.expires.value, info.prior.value), Clock(instant)))
    else if info.lifetime.Some? then Some(SaturatingSub(info.lifetime.value, info.prior.value))
    else None
  }

  function Rescheduled(info: SessionInfo, instant: nat): SessionInfo
    requires info.lifetime.Some?
  {
    info.(expires := Some(SaturatingAdd(Clock(instant), info.lifetime.value)))
  }

  /**
   * What one turn of the loop meets: when the schedule was computed, when the sleep ended, when
   * the gateway handled the request, and when the answer (`ok` or not) was in hand.
   */
  datatype Round = Round(read: nat, woke: nat, handled: nat, finished: nat, ok: bool)

  datatype End = NoSchedule | ExtensionNotAllowed | ExtensionFailed | NoLifetime | StillRunning

  predicate Renews(info: SessionInfo, round: Round) {
    Delay(info, round.read).Some? && info.allowExtend && round.ok && info.lifetime.Some?
  }

  function EndWith(info: SessionInfo, round: Round): End {
    if Delay(info, round.read).None? then NoSchedule
    else if !info.allowExtend then ExtensionNotAllowed
    else if !round.ok then ExtensionFailed
    else if info.lifetime.None? then NoLifetime
    else StillRunning
  }

  /** The session information after `i` renewals. */
  function InfoAfter(info: SessionInfo, rounds: seq<Round>, i: nat): (r: SessionInfo)
    requires info.lifetime.Some? && i <= |rounds|
    ensures i > 0 ==> r == Rescheduled(info, rounds[i - 1].finished)
  {
    if i == 0 then info else Rescheduled(InfoAfter(info, rounds, i - 1), rounds[i - 1].finished)
  }

  /** The first `n` rounds renewed the session. */
  predicate Renewed(info: SessionInfo, rounds: seq<Round>, n: nat) {
    n <= |rounds| && (n > 0 ==> info.lifetime.Some?)
    && forall i {:trigger InfoAfter(info, rounds, i)} | 0 <= i < n :: Renews(InfoAfter(info, rounds, i), rounds[i])
  }

  function Current(info: SessionInfo, rounds: seq<Round>, n: nat): SessionInfo
    requires Renewed(info, rounds, n)
  {
    if n == 0 then info else InfoAfter(info, rounds, n)
  }

  /** The program loop, as far as `rounds` goes. */
  method RunSession(start: SessionInfo, rounds: seq<Round>) returns (end: End, n: nat)
    ensures Renewed(start, rounds, n)
    ensures end.StillRunning? <==> n == |rounds|
    ensures n < |rounds| ==> end == EndWith(Current(start, rounds, n), rounds[n])
    // In terms of the session at the start: who is renewed, and which end is reported.
    ensures n <= |rounds| && (n > 0 ==> start.allowExtend && start.lifetime.Some? && start.prior.Some?)
    ensures forall k | 0 <= k < n :: rounds[k].ok
    ensures n < |rounds| ==>
              && (end == NoSchedule <==> start.prior.None? || (start.expires.None? && start.lifetime.None?))
              && (end == ExtensionNotAllowed <==>
                    start.prior.Some? && (start.expires.Some? || start.lifetime.Some?) && !start.allowExtend)
              && (end == ExtensionFailed <==>
                    start.prior.Some? && (start.expires.Some? || start.lifetime.Some?) && start.allowExtend
                    && !rounds[n].ok)
              && (end == NoLifetime <==>
                    start.prior.Some? && start.expires.Some? && start.lifetime.None? && start.allowExtend
                    && rounds[n].ok)
  {
    var info := start;
    n := 0;
    while n < |rounds|
      invariant Renewed(start, rounds, n)
      invariant info == Current(start, rounds, n)
      invariant forall k | 0 <= k < n :: rounds[k].ok
      invariant info.prior == start.prior && info.allowExtend == start.allowExtend && info.lifetime == start.lifetime
      invariant info.expires.Some? || info == start
      invariant n > 0 ==> start.allowExtend && start.lifetime.Some? && start.prior.Some?
    {
      var round := rounds[n];
      if Delay(info, round.read).None? {
        return NoSchedule, n;
      }
      if !info.allowExtend {
        return ExtensionNotAllowed, n;
      }
      if !round.ok {
        return ExtensionFailed, n;
      }
      if info.lifetime.None? {
        return NoLifetime, n;
      }
      info := Rescheduled(info, round.finished);
      n := n + 1;
    }
    end := StillRunning;
  }

  /** Time only moves on, and a sleep lasts at least its delay. */
  predicate Timed(info: SessionInfo, rounds: seq<Round>, n: nat)
    requires Renewed(info, rounds, n)
  {
    && (forall i {:trigger InfoAfter(info, rounds, i)} | 0 <= i < n ::
          rounds[i].read + Delay(InfoAfter(info, rounds, i), rounds[i].read).value <= rounds[i].woke
          <= rounds[i].handled <= rounds[i].finished)
    && (forall i {:trigger InfoAfter(info, rounds, i)} | 0 < i < n :: rounds[i - 1].finished <= rounds[i].read)
  }

  /** No u32 overflow: every renewed expiry, and every instant before it, is representable. */
  predicate NoOverflow(info: SessionInfo, rounds: seq<Round>, n: nat)
    requires Renewed(info, rounds, n)
  {
    forall i | 0 <= i < n :: rounds[i].finished + info.lifetime.value <= U32_MAX
  }

  lemma ClockIsExact(instant: nat)
    ensures Clock(instant) <= instant && Clock(instant) <= U32_MAX
    ensures instant <= U32_MAX ==> Clock(instant) == instant
  {
  }

  /** The warning is due `prior` seconds before the expiry, or at once when that has passed. */
  lemma WarningInstant(info: SessionInfo, instant: nat)
    requires instant <= U32_MAX
    ensures Delay(info, instant).Some? <==> info.prior.Some? && (info.expires.Some? || info.lifetime.Some?)
    ensures Delay(info, instant).Some? && info.expires.Some? ==>
              var due := info.expires.value - info.prior.value;
              instant + Delay(info, instant).value == if due <= instant then instant else due
    ensures Delay(info, instant).Some? && info.expires.None? ==>
              Delay(info, instant).value + info.prior.value
              == if info.lifetime.value <= info.prior.value then info.prior.value else info.lifetime.value
  {
    ClockIsExact(instant);
  }

  lemma WarningAfterRenewal(info: SessionInfo, instant: nat, read: nat)
    requires info.lifetime.Some? && info.prior.Some? && instant + info.lifetime.value <= U32_MAX
    ensures Delay(Rescheduled(info, instant), read).Some?
    ensures read + Delay(Rescheduled(info, instant), read).value
            >= instant + info.lifetime.value - info.prior.value
    ensures read <= instant + info.lifetime.value - info.prior.value ==>
              read + Delay(Rescheduled(info, instant), read).value
              == instant + info.lifetime.value - info.prior.value
  {
    ClockIsExact(instant);
    ClockIsExact(read);
  }

  /** The next warning is no earlier than lifetime - prior after the renewal. */
  lemma NextWarning(info: SessionInfo, rounds: seq<Round>, n: nat, i: nat)
    requires Renewed(info, rounds, n) && Timed(info, rounds, n) && NoOverflow(info, rounds, n) && 0 < i < n
    ensures info.prior.Some?
    ensures rounds[i].woke <= rounds[i].finished
    ensures rounds[i].woke >= rounds[i - 1].finished + info.lifetime.value - info.prior.value
  {
    var before := rounds[i - 1];
    var now := InfoAfter(info, rounds, i);
    assert Renews(now, rounds[i]);
    WarningAfterRenewal(info, before.finished, rounds[i].read);
  }

  lemma {:induction false} GapsAddUp(instants: seq<nat>, gap: int, i: nat, k: nat)
    requires i + k < |instants|
    requires forall m | 0 < m < |instants| :: instants[m] >= instants[m - 1] + gap
    ensures instants[i + k] >= instants[i] + k * gap
  {
    if k > 0 {
      GapsAddUp(instants, gap, i, k - 1);
      assert k * gap == (k - 1) * gap + gap;
    }
  }

  /** Renewals `i` and `i + k` are at least k times lifetime - prior apart. */
  lemma RenewalsAreSpaced(info: SessionInfo, rounds: seq<Round>, n: nat, i: nat, k: nat)
    requires Renewed(info, rounds, n) && Timed(info, rounds, n) && NoOverflow(info, rounds, n)
    requires i + k < n && info.prior.Some?
    ensures rounds[i + k].finished >= rounds[i].finished + k * (info.lifetime.value - info.prior.value)
  {
    var instants := seq(n, m requires 0 <= m < n => rounds[m].finished);
    forall m | 0 < m < n
      ensures instants[m] >= instants[m - 1] + (info.lifetime.value - info.prior.value) {
      NextWarning(info, rounds, n, m);
    }
    GapsAddUp(instants, info.lifetime.value - info.prior.value, i, k);
  }

  /** The scheduled warning of a round. */
  function Due(info: SessionInfo, round: Round): nat
    requires Delay(info, round.read).Some?
  {
    round.read + Delay(info, round.read).value
  }

  /** The schedule was computed no later than the warning is due. */
  predicate ReadInTime(info: SessionInfo, round: Round)
    requires info.expires.Some? && info.prior.Some?
  {
    round.read + info.prior.value <= info.expires.value
  }

  /**
   * In every round, the first included, the program has `prior` seconds from the warning to the
   * expiry it knows exactly when the schedule was read in time; so a renewal finished within
   * `prior` of its warning is not late. After a renewal that expiry is a lifetime later.
   */
  lemma NoLateRenewal(info: SessionInfo, rounds: seq<Round>, n: nat, i: nat)
    requires Renewed(info, rounds, n) && i < n && rounds[i].read <= U32_MAX
    requires InfoAfter(info, rounds, i).expires.Some?
    ensures info.prior.Some? && Delay(InfoAfter(info, rounds, i), rounds[i].read).Some?
    ensures var now := InfoAfter(info, rounds, i);
            && (Due(now, rounds[i]) + info.prior.value <= now.expires.value <==> ReadInTime(now, rounds[i]))
            && (ReadInTime(now, rounds[i]) ==>
                  (rounds[i].finished <= Due(now, rounds[i]) + info.prior.value
                   <==> rounds[i].finished <= now.expires.value))
    ensures i == 0 ==> InfoAfter(info, rounds, i).expires == info.expires
    ensures i > 0 && rounds[i - 1].finished + info.lifetime.value <= U32_MAX ==>
              InfoAfter(info, rounds, i).expires == Some(rounds[i - 1].finished + info.lifetime.value)
  {
    var now := InfoAfter(info, rounds, i);
    assert Renews(now, rounds[i]);
    WarningInstant(now, rounds[i].read);
    if i > 0 {
      ClockIsExact(rounds[i - 1].finished);
    }
  }

  /** How long after it was due a schedule was computed, if it was. */
  function Lateness(info: SessionInfo, round: Round): nat
    requires info.expires.Some? && info.prior.Some?
  {
    if ReadInTime(info, round) then 0 else round.read + info.prior.value - info.expires.value
  }

  /**
   * The gateway counts from when it handled the last renewal, the program from when it had the
   * answer. The gateway handles the next one before the session ends exactly when the delays add
   * up to `prior` at most: of this request, of the last answer, and of the schedule.
   */
  lemma LapsesIff(info: SessionInfo, rounds: seq<Round>, n: nat, i: nat)
    requires Renewed(info, rounds, n) && NoOverflow(info, rounds, n) && 0 < i < n && rounds[i].read <= U32_MAX
    ensures info.prior.Some? && Delay(InfoAfter(info, rounds, i), rounds[i].read).Some?
    ensures InfoAfter(info, rounds, i).expires.Some?
    ensures var now := InfoAfter(info, rounds, i);
            rounds[i].handled <= rounds[i - 1].handled + info.lifetime.value <==>
              (rounds[i].handled - Due(now, rounds[i])) + (rounds[i - 1].finished - rounds[i - 1].handled)
              + Lateness(now, rounds[i]) <= info.prior.value
  {
    NoLateRenewal(info, rounds, n, i);
    WarningInstant(InfoAfter(info, rounds, i), rounds[i].read);
  }

  /** Both requests finish within `prior` of their warning, and the second still comes after the session ended. */
  lemma SlowAnswerLapses() returns (info: SessionInfo, rounds: seq<Round>)
    ensures |rounds| == 2 && Renewed(info, rounds, 2) && Timed(info, rounds, 2) && NoOverflow(info, rounds, 2)
    ensures info.prior.Some? && info.prior.value < info.lifetime.value
    ensures forall i | 0 <= i < 2 ::
              rounds[i].finished
              <= rounds[i].read + Delay(InfoAfter(info, rounds, i), rounds[i].read).value + info.prior.value
    ensures rounds[1].handled > rounds[0].handled + info.lifetime.value
  {
    info := SessionInfo(Some(100), Some(200), Some(20), true);
    rounds := [Round(100, 180, 180, 190, true), Round(190, 270, 290, 290, true)];
    assert InfoAfter(info, rounds, 1) == Rescheduled(info, 190);
  }

  /** With answers at most `slack` late and every request done `slack` before the expiry, no session lapses. */
  predicate Punctual(info: SessionInfo, rounds: seq<Round>, n: nat, slack: nat)
    requires Renewed(info, rounds, n) && n > 0
  {
    && info.prior.Some? && slack <= info.prior.value < info.lifetime.value
    && (forall i | 0 <= i < n :: rounds[i].finished <= rounds[i].handled + slack)
    && (forall i {:trigger InfoAfter(info, rounds, i)} | 0 < i < n ::
          && rounds[i].read <= rounds[i - 1].finished + info.lifetime.value - info.prior.value
          && rounds[i].finished + slack
             <= rounds[i].read + Delay(InfoAfter(info, rounds, i), rounds[i].read).value + info.prior.value)
  }

  lemma PunctualNeverLapses(info: SessionInfo, rounds: seq<Round>, n: nat, slack: nat, i: nat)
    requires Renewed(info, rounds, n) && Timed(info, rounds, n) && NoOverflow(info, rounds, n) && 0 < i < n
    requires Punctual(info, rounds, n, slack)
    ensures rounds[i].handled <= rounds[i - 1].handled + info.lifetime.value
  {
    var now := InfoAfter(info, rounds, i);
    LapsesIff(info, rounds, n, i);
    NoLateRenewal(info, rounds, n, i);
    assert rounds[i - 1].finished <= rounds[i - 1].handled + slack;
  }

  /** Saturation shortens the wait: the spacing survives a renewal exactly when nothing overflows. */
  lemma SpacingIffNoOverflow(info: SessionInfo, instant: nat)
    requires Fits(info) && info.lifetime.Some? && info.prior.Some?
    ensures Delay(Rescheduled(info, instant), instant).Some?
    ensures Delay(Rescheduled(info, instant), instant).value >= info.lifetime.value - info.prior.value
            <==> Clock(instant) + info.lifetime.value <= U32_MAX || info.lifetime.value <= info.prior.value
  {
    assert Clock(instant) <= U32_MAX;
  }
}

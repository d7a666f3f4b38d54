/**
 * The circuit breaker and the per-IP limit of `/email/verify`
 * (src/device-auth/index.ts:863-906, src/device-auth/store.ts:253-267, 302-328).
 */
module Breaker {
  import opened Basics
  import opened PinCredential
  import opened Tables
  import opened Routes
  import opened Runs

  // ----- one request -----

  /** A request that carries an IP was counted on that IP's bucket, within its limit. */
  predicate PassedIp(cfg: Config, e: Entry) {
    e.r.input.ip.Some? ==>
      && e.t.ipHit.Some? && e.t.ipHit.value.bucket == PerIp(OtpVerify, e.r.input.ip.value)
      && e.t.ipHit.value.count <= cfg.verifiesPerIp
  }

  /** A finished verification was charged exactly when it compared a code, as failed exactly when it gave no login. */
  predicate ChargeMatches(cfg: Config, e: Entry, verified: bool) {
    cfg.breaker.Some? ==>
      && (e.t.charge.Some? <==> e.r.guess.Some?)
      && (e.t.charge.Some? ==> e.t.charge.value.failed == !verified)
  }

  predicate ChargeInv(cfg: Config, e: Entry) {
    && (e.t.charge.Some? ==> e.r.guess.Some? && PassedIp(cfg, e))
    && match e.r.pc
       case Gating(at) =>
         e.t.charge.None? && e.r.guess.None? && (if at.VerifyIp? then e.t.ipHit.None? else PassedIp(cfg, e))
       case Guessing(at) =>
         && e.t.charge.None? && PassedIp(cfg, e)
         && (if at.VerifyAttempt? || at.VerifyRefundUnused? then e.r.guess.None?
             else if at.VerifyCharge? then e.r.guess.Some? else e.r.guess == Some(true))
       case Entering(at) =>
         && PassedIp(cfg, e) && e.r.guess == Some(true)
         && (if at.VerifyPassed? then e.t.charge.None? else ChargeMatches(cfg, e, true))
       case Finished(Verified(_, _)) => ChargeMatches(cfg, e, true)
       case Finished(InvalidCode) => ChargeMatches(cfg, e, false)
       case Finished(_) => e.t.charge.None?
       case Crashed => true
       case _ => e.t.charge.None? && e.r.guess.None?
  }

  lemma ChargeInvBegins(cfg: Config, input: Input, now: Time)
    ensures ChargeInv(cfg, Entry(Begin(cfg, input, now), NoTrace))
  {}

  lemma ChargeInvDb(cfg: Config, e: Entry, st: Statement, result: Result, epoch: nat)
    requires ChargeInv(cfg, e) && Emit(cfg, e.r) == Db(st)
    ensures ChargeInv(cfg, Entry(ResumeDb(cfg, e.r.(retried := false), result), Record(e.t, st, result, epoch)))
    ensures ChargeInv(cfg, Entry(To(e.r.(retried := false), Crashed), Record(e.t, st, result, epoch)))
  {
    hide Record, EmitStart, EmitGate, EmitGuess, EmitEnter, EmitSetPin, EmitLogin, ResumeStart, ResumeGate,
         ResumeGuess, ResumeEnter, ResumeSetPin, ResumeLogin, ChargeInv;
    ChargeInvLost(cfg, e, st, result, epoch);
    match e.r.pc
    case Starting(at) => ChargeInvStart(cfg, e, at, st, result, epoch);
    case Gating(at) => ChargeInvGate(cfg, e, at, st, result, epoch);
    case Guessing(at) => ChargeInvGuess(cfg, e, at, st, result, epoch);
    case Entering(at) => ChargeInvEnter(cfg, e, at, st, result, epoch);
    case SettingPin(at) => ChargeInvSetPin(cfg, e, at, st, result, epoch);
    case LoggingIn(at) => ChargeInvLogin(cfg, e, at, st, result, epoch);
  }

  lemma ChargeInvLost(cfg: Config, e: Entry, st: Statement, result: Result, epoch: nat)
    requires ChargeInv(cfg, e) && Emit(cfg, e.r) == Db(st)
    ensures ChargeInv(cfg, Entry(To(e.r.(retried := false), Crashed), Record(e.t, st, result, epoch)))
  {
    hide NewDeviceRow, Enroll;
  }

  /** Three statements count: the hit on the per-IP limit of `/email/verify`, and the two on the breaker. */
  lemma Chargeless(cfg: Config, e: Entry, st: Statement, result: Result, epoch: nat)
    requires Emit(cfg, e.r) == Db(st)
    requires e.r.pc != Gating(VerifyIp) && e.r.pc != Guessing(VerifyCharge) && e.r.pc != Entering(VerifyPassed)
    ensures var t := Record(e.t, st, result, epoch); t.charge == e.t.charge && t.ipHit == e.t.ipHit
  {
    hide NewDeviceRow, Enroll;
  }

  lemma ChargeInvStart(cfg: Config, e: Entry, at: StartPc, st: Statement, result: Result, epoch: nat)
    requires ChargeInv(cfg, e) && e.r.pc == Starting(at) && EmitStart(cfg, e.r, at) == Db(st)
    ensures ChargeInv(cfg, Entry(ResumeStart(cfg, e.r.(retried := false), at, result), Record(e.t, st, result, epoch)))
  {
    hide RetryAfterSec, Presents, MaxFailures, FailureBucket;
    Chargeless(cfg, e, st, result, epoch);
    hide EmitStart, Record;
  }

  lemma ChargeInvGate(cfg: Config, e: Entry, at: GatePc, st: Statement, result: Result, epoch: nat)
    requires ChargeInv(cfg, e) && e.r.pc == Gating(at) && EmitGate(cfg, e.r, at) == Db(st)
    ensures ChargeInv(cfg, Entry(ResumeGate(cfg, e.r.(retried := false), at, result), Record(e.t, st, result, epoch)))
  {
    if at.VerifyIp? {
      ChargeInvIp(cfg, e, st, result, epoch);
    } else {
      Chargeless(cfg, e, st, result, epoch);
      ChargeInvGateMoves(cfg, e, at, result, Record(e.t, st, result, epoch));
    }
  }

  lemma ChargeInvIp(cfg: Config, e: Entry, st: Statement, result: Result, epoch: nat)
    requires ChargeInv(cfg, e) && e.r.pc == Gating(VerifyIp) && EmitGate(cfg, e.r, VerifyIp) == Db(st)
    ensures ChargeInv(cfg, Entry(ResumeGate(cfg, e.r.(retried := false), VerifyIp, result), Record(e.t, st, result, epoch)))
  {
    hide RetryAfterSec;
  }

  lemma ChargeInvGateMoves(cfg: Config, e: Entry, at: GatePc, result: Result, t: Trace)
    requires ChargeInv(cfg, e) && e.r.pc == Gating(at) && !at.VerifyIp? && t.charge == e.t.charge && t.ipHit == e.t.ipHit
    ensures ChargeInv(cfg, Entry(ResumeGate(cfg, e.r.(retried := false), at, result), t))
  {
    hide RetryAfterSec, BreakerOpen, PresentsDeviceOfAddress, MaxFailures, FailureBucket;
  }

  lemma ChargeInvGuess(cfg: Config, e: Entry, at: GuessPc, st: Statement, result: Result, epoch: nat)
    requires ChargeInv(cfg, e) && e.r.pc == Guessing(at) && EmitGuess(cfg, e.r, at) == Db(st)
    ensures ChargeInv(cfg, Entry(ResumeGuess(cfg, e.r.(retried := false), at, result), Record(e.t, st, result, epoch)))
  {
    if at.VerifyCharge? {
      ChargeInvFailed(cfg, e, st, result, epoch);
    } else {
      Chargeless(cfg, e, st, result, epoch);
      ChargeInvGuessMoves(cfg, e, at, result, Record(e.t, st, result, epoch));
    }
  }

  lemma ChargeInvFailed(cfg: Config, e: Entry, st: Statement, result: Result, epoch: nat)
    requires ChargeInv(cfg, e) && e.r.pc == Guessing(VerifyCharge) && EmitGuess(cfg, e.r, VerifyCharge) == Db(st)
    ensures ChargeInv(cfg, Entry(ResumeGuess(cfg, e.r.(retried := false), VerifyCharge, result), Record(e.t, st, result, epoch)))
  {}

  lemma ChargeInvGuessMoves(cfg: Config, e: Entry, at: GuessPc, result: Result, t: Trace)
    requires ChargeInv(cfg, e) && e.r.pc == Guessing(at) && !at.VerifyCharge? && t.charge == e.t.charge && t.ipHit == e.t.ipHit
    ensures ChargeInv(cfg, Entry(ResumeGuess(cfg, e.r.(retried := false), at, result), t))
  {
    hide CodeMatches;
  }

  lemma ChargeInvEnter(cfg: Config, e: Entry, at: EnterPc, st: Statement, result: Result, epoch: nat)
    requires ChargeInv(cfg, e) && e.r.pc == Entering(at) && EmitEnter(cfg, e.r, at) == Db(st)
    ensures ChargeInv(cfg, Entry(ResumeEnter(e.r.(retried := false), at, result), Record(e.t, st, result, epoch)))
  {
    if at.VerifyPassed? {
      ChargeInvPassed(cfg, e, st, result, epoch);
    } else {
      Chargeless(cfg, e, st, result, epoch);
      ChargeInvEnterMoves(cfg, e, at, result, Record(e.t, st, result, epoch));
    }
  }

  lemma ChargeInvPassed(cfg: Config, e: Entry, st: Statement, result: Result, epoch: nat)
    requires ChargeInv(cfg, e) && e.r.pc == Entering(VerifyPassed) && EmitEnter(cfg, e.r, VerifyPassed) == Db(st)
    ensures ChargeInv(cfg, Entry(ResumeEnter(e.r.(retried := false), VerifyPassed, result), Record(e.t, st, result, epoch)))
  {}

  lemma ChargeInvEnterMoves(cfg: Config, e: Entry, at: EnterPc, result: Result, t: Trace)
    requires ChargeInv(cfg, e) && e.r.pc == Entering(at) && !at.VerifyPassed? && t.charge == e.t.charge && t.ipHit == e.t.ipHit
    ensures ChargeInv(cfg, Entry(ResumeEnter(e.r.(retried := false), at, result), t))
  {
    hide Presents;
  }

  lemma ChargeInvSetPin(cfg: Config, e: Entry, at: PinPc, st: Statement, result: Result, epoch: nat)
    requires ChargeInv(cfg, e) && e.r.pc == SettingPin(at) && EmitSetPin(cfg, e.r, at) == Db(st)
    ensures ChargeInv(cfg, Entry(ResumeSetPin(cfg, e.r.(retried := false), at, result), Record(e.t, st, result, epoch)))
  {
    hide Enroll;
  }

  lemma ChargeInvLogin(cfg: Config, e: Entry, at: LoginPc, st: Statement, result: Result, epoch: nat)
    requires ChargeInv(cfg, e) && e.r.pc == LoggingIn(at) && EmitLogin(cfg, e.r, at) == Db(st)
    ensures ChargeInv(cfg, Entry(ResumeLogin(cfg, e.r.(retried := false), at, result), Record(e.t, st, result, epoch)))
  {
    hide RetryAfterSec, Verify, Enroll, DeviceLive, Presents;
    Chargeless(cfg, e, st, result, epoch);
    hide EmitLogin, Record;
  }

  lemma ChargeInvOther(cfg: Config, e: Entry, found: Option<Session>, told: bool)
    requires ChargeInv(cfg, e) && !Emit(cfg, e.r).Db?
    ensures ChargeInv(cfg, e.(r := AfterOther(cfg, e.r, Emit(cfg, e.r), found, told)))
  {
    hide NewDeviceRow, Enroll;
  }

  lemma ChargeInvRollBack(cfg: Config, e: Entry, retryable: bool)
    requires ChargeInv(cfg, e)
    ensures ChargeInv(cfg, RollBack(e, retryable))
  {}

  lemma ChargeCalls(cfg: Config, e: Entry, st: Statement)
    requires ChargeInv(cfg, e) && Emit(cfg, e.r) == Db(st)
    ensures st.HitCircuitBreaker? ==>
      && cfg.breaker.Some? && st.bucket == VerifyBreaker && st.windowMs == cfg.breaker.value.windowMs
      && st.now == e.r.now
      && e.t.charge.None?
    ensures st.HitRateLimit? && Counting(st.bucket) ==>
      st.bucket.PerIp? && st.windowMs == HOUR_MS && st.now == e.r.now && e.t.ipHit.None?
    ensures st.ReserveRateLimit? || st.RefundRateLimit? ==> !Counting(st.bucket)
    ensures !st.Cleanup?
  {}

  // ----- the breaker row -----

  /** Verifications counted on the breaker in the window that opened at `w`. */
  ghost function ChargesIn(reqs: map<nat, Entry>, w: Time): nat {
    Count(reqs, (e: Entry) => e.t.charge.Some? && e.t.charge.value.windowStart == w)
  }

  ghost function FailuresIn(reqs: map<nat, Entry>, w: Time): nat {
    Count(reqs, (e: Entry) => e.t.charge == Some(Charge(w, true)))
  }

  ghost predicate BreakerExact(reqs: map<nat, Entry>, limits: map<Bucket, LimitRow>) {
    && (forall id :: id in reqs && reqs[id].t.charge.Some? ==>
          VerifyBreaker in limits && reqs[id].t.charge.value.windowStart <= limits[VerifyBreaker].windowStart)
    && (VerifyBreaker in limits ==>
          var row := limits[VerifyBreaker];
          row.count == ChargesIn(reqs, row.windowStart) && row.failures == FailuresIn(reqs, row.windowStart))
  }

  lemma ChargedAfter(reqs: map<nat, Entry>, id: nat, e: Entry, w: Time)
    ensures ChargesIn(reqs[id := e], w) == ChargesIn(reqs, w)
      - (if id in reqs && reqs[id].t.charge.Some? && reqs[id].t.charge.value.windowStart == w then 1 else 0)
      + (if e.t.charge.Some? && e.t.charge.value.windowStart == w then 1 else 0)
    ensures FailuresIn(reqs[id := e], w) == FailuresIn(reqs, w)
      - (if id in reqs && reqs[id].t.charge == Some(Charge(w, true)) then 1 else 0)
      + (if e.t.charge == Some(Charge(w, true)) then 1 else 0)
  {
    CountUpdate(reqs, id, e, (e: Entry) => e.t.charge.Some? && e.t.charge.value.windowStart == w);
    CountUpdate(reqs, id, e, (e: Entry) => e.t.charge == Some(Charge(w, true)));
  }

  lemma SameCharge(reqs: map<nat, Entry>, limits: map<Bucket, LimitRow>, id: nat, e: Entry,
      limits': map<Bucket, LimitRow>)
    requires BreakerExact(reqs, limits) && e.t.charge == if id in reqs then reqs[id].t.charge else None
    requires SameBreakerRow(limits, limits')
    ensures BreakerExact(reqs[id := e], limits')
  {
    if VerifyBreaker in limits { ChargedAfter(reqs, id, e, limits[VerifyBreaker].windowStart); }
  }

  lemma NewCharge(reqs: map<nat, Entry>, limits: map<Bucket, LimitRow>, id: nat, e: Entry, windowMs: int, now: Time,
      failed: bool)
    requires BreakerExact(reqs, limits) && id in reqs && reqs[id].t.charge.None? && windowMs > 0
    requires e.t.charge == Some(Charge(BreakerRow(limits, VerifyBreaker, windowMs, now, failed).windowStart, failed))
    ensures BreakerExact(reqs[id := e], limits[VerifyBreaker := BreakerRow(limits, VerifyBreaker, windowMs, now, failed)])
  {
    var row := BreakerRow(limits, VerifyBreaker, windowMs, now, failed);
    ChargedAfter(reqs, id, e, row.windowStart);
    if VerifyBreaker !in limits || Lapsed(limits[VerifyBreaker], windowMs, now) {
      assert Matching(reqs, (e: Entry) => e.t.charge.Some? && e.t.charge.value.windowStart == now) == {};
      assert Matching(reqs, (e: Entry) => e.t.charge == Some(Charge(now, true))) == {};
    }
  }

  // ----- the per-IP rows -----

  predicate PassedHit(cfg: Config, e: Entry, key: string, w: Time) {
    e.t.ipHit.Some? && e.t.ipHit.value.bucket == PerIp(OtpVerify, key)
    && e.t.ipHit.value.windowStart == w && e.t.ipHit.value.count <= cfg.verifiesPerIp
  }

  /** Requests let through by one IP's limit in one of its windows. */
  ghost function PassedHits(cfg: Config, reqs: map<nat, Entry>, key: string, w: Time): nat {
    Count(reqs, (e: Entry) => PassedHit(cfg, e, key, w))
  }

  ghost predicate HitsPlaced(reqs: map<nat, Entry>, limits: map<Bucket, LimitRow>) {
    forall id :: id in reqs && reqs[id].t.ipHit.Some? ==>
      var h := reqs[id].t.ipHit.value;
      && h.bucket.PerIp? && h.bucket.action.OtpVerify? && h.bucket in limits
      && (h.windowStart == limits[h.bucket].windowStart || h.windowStart + HOUR_MS <= limits[h.bucket].windowStart)
  }

  ghost predicate HitsBounded(cfg: Config, reqs: map<nat, Entry>, limits: map<Bucket, LimitRow>) {
    && (forall key, w :: PassedHits(cfg, reqs, key, w) <= cfg.verifiesPerIp)
    && (forall key :: PerIp(OtpVerify, key) in limits ==>
          var row := limits[PerIp(OtpVerify, key)];
          PassedHits(cfg, reqs, key, row.windowStart) <= row.count)
  }

  predicate Counting(b: Bucket) { b.VerifyBreaker? || (b.PerIp? && b.action.OtpVerify?) }

  predicate SameBreakerRow(limits: map<Bucket, LimitRow>, limits': map<Bucket, LimitRow>) {
    (VerifyBreaker in limits <==> VerifyBreaker in limits')
    && (VerifyBreaker in limits ==> limits[VerifyBreaker] == limits'[VerifyBreaker])
  }

  predicate SameIpRows(limits: map<Bucket, LimitRow>, limits': map<Bucket, LimitRow>) {
    forall b :: b in limits.Keys + limits'.Keys && b.PerIp? && b.action.OtpVerify? ==>
      b in limits && b in limits' && limits[b] == limits'[b]
  }

  lemma PassedAfter(cfg: Config, reqs: map<nat, Entry>, id: nat, e: Entry, key: string, w: Time)
    ensures PassedHits(cfg, reqs[id := e], key, w) == PassedHits(cfg, reqs, key, w)
      - (if id in reqs && PassedHit(cfg, reqs[id], key, w) then 1 else 0) + (if PassedHit(cfg, e, key, w) then 1 else 0)
  {
    CountUpdate(reqs, id, e, (e: Entry) => PassedHit(cfg, e, key, w));
  }

  lemma SameHit(cfg: Config, reqs: map<nat, Entry>, limits: map<Bucket, LimitRow>, id: nat, e: Entry,
                limits': map<Bucket, LimitRow>)
    requires HitsPlaced(reqs, limits) && HitsBounded(cfg, reqs, limits) && SameIpRows(limits, limits')
    requires e.t.ipHit == if id in reqs then reqs[id].t.ipHit else None
    ensures HitsPlaced(reqs[id := e], limits') && HitsBounded(cfg, reqs[id := e], limits')
  {
    var reqs' := reqs[id := e];
    forall key, w ensures PassedHits(cfg, reqs', key, w) == PassedHits(cfg, reqs, key, w) {
      PassedAfter(cfg, reqs, id, e, key, w);
    }
    forall key, w ensures PassedHits(cfg, reqs', key, w) <= cfg.verifiesPerIp {
      assert PassedHits(cfg, reqs', key, w) == PassedHits(cfg, reqs, key, w);
    }
  }

  lemma NewHit(cfg: Config, reqs: map<nat, Entry>, limits: map<Bucket, LimitRow>, id: nat, e: Entry, key: string,
      now: Time)
    requires HitsPlaced(reqs, limits) && HitsBounded(cfg, reqs, limits) && id in reqs && reqs[id].t.ipHit.None?
    requires var b := PerIp(OtpVerify, key); var row := CountedRow(limits, b, HOUR_MS, now);
      e.t.ipHit == Some(IpHit(b, row.windowStart, row.count))
    ensures var b := PerIp(OtpVerify, key); var limits' := limits[b := CountedRow(limits, b, HOUR_MS, now)];
      HitsPlaced(reqs[id := e], limits') && HitsBounded(cfg, reqs[id := e], limits')
  {
    var b := PerIp(OtpVerify, key);
    var row := CountedRow(limits, b, HOUR_MS, now);
    var reqs' := reqs[id := e];
    if b !in limits || Lapsed(limits[b], HOUR_MS, now) {
      assert Matching(reqs, (e: Entry) => PassedHit(cfg, e, key, now)) == {};
    }
    forall k, w
      ensures PassedHits(cfg, reqs', k, w) == PassedHits(cfg, reqs, k, w)
        + (if k == key && w == row.windowStart && row.count <= cfg.verifiesPerIp then 1 else 0)
    {
      PassedAfter(cfg, reqs, id, e, k, w);
    }
    forall k, w ensures PassedHits(cfg, reqs', k, w) <= cfg.verifiesPerIp {
      assert PassedHits(cfg, reqs, k, w) <= cfg.verifiesPerIp;
      if k == key && w == row.windowStart { assert PassedHits(cfg, reqs', k, w) <= row.count; }
    }
  }

  // ----- runs -----

  ghost predicate BreakerOk(cfg: Config, s: State) {
    && (forall id :: id in s.reqs ==> ChargeInv(cfg, s.reqs[id]))
    && BreakerExact(s.reqs, s.tables.limits)
    && HitsPlaced(s.reqs, s.tables.limits) && HitsBounded(cfg, s.reqs, s.tables.limits)
  }

  /** Statements that count neither on the breaker nor on the verify route's IP limit. */
  predicate Uncounted(st: Statement) {
    !st.HitCircuitBreaker? && !st.Cleanup?
    && (st.HitRateLimit? || st.ReserveRateLimit? || st.RefundRateLimit? ==> !Counting(st.bucket))
  }

  lemma OtherStatements(t: Tables, st: Statement)
    requires Uncounted(st)
    ensures SameBreakerRow(t.limits, Exec(t, st).0.limits) && SameIpRows(t.limits, Exec(t, st).0.limits)
  {
    if !WritesLimits(st) {
      hide Exec;
      Frame(t, st);
    }
  }

  lemma RecordsOwnHit(trace: Trace, st: Statement, a: Result, epoch: nat)
    requires st.HitRateLimit? && !Counting(st.bucket)
    ensures Record(trace, st, a, epoch).ipHit == trace.ipHit
  {}

  lemma OtherRecords(t: Tables, st: Statement, trace: Trace, epoch: nat)
    requires Uncounted(st)
    ensures var trace' := Record(trace, st, Exec(t, st).1, epoch);
      trace'.charge == trace.charge && trace'.ipHit == trace.ipHit
  {
    hide Record, Exec;
    RecordWrites(trace, st, Exec(t, st).1, epoch);
    if st.HitRateLimit? { RecordsOwnHit(trace, st, Exec(t, st).1, epoch); }
  }
}

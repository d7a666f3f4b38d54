/**
 * The failure budgets of `/email/verify` (src/device-auth/index.ts:884-929):
 * reserve first, compare second, give back on some paths only.
 */
module Budgets {
  import opened Basics
  import opened PinCredential
  import opened Tables
  import opened Routes
  import opened Runs

  // ----- one request -----

  /** What a request's program counter says about its slot and its guess. */
  predicate SlotInv(e: Entry) {
    && (e.r.guess == Some(false) ==> e.t.slot.Some?)
    && (e.t.slot.Some? ==> e.t.slot.value.bucket == FailureBucket(e.r))
    && match e.r.pc
       case Guessing(at) =>
         && e.t.slot == Some(HeldSlot(FailureBucket(e.r), e.r.slotStart))
         && (if at.VerifyAttempt? || at.VerifyRefundUnused? then e.r.guess.None?
             else if at.VerifyConsume? || at.VerifyRefund? then e.r.guess == Some(true)
             else e.r.guess.Some?)
       case Entering(_) => e.t.slot.None? && e.r.guess == Some(true)
       case Finished(_) => true
       case Crashed => true
       case _ => e.t.slot.None? && e.r.guess.None?
  }

  lemma SlotInvBegins(cfg: Config, input: Input, now: Time)
    ensures SlotInv(Entry(Begin(cfg, input, now), NoTrace))
  {}

  /** Any answer to the statement a request sent keeps its bookkeeping. */
  lemma SlotInvDb(cfg: Config, e: Entry, st: Statement, result: Result, epoch: nat)
    requires SlotInv(e) && Emit(cfg, e.r) == Db(st)
    ensures SlotInv(Entry(ResumeDb(cfg, e.r.(retried := false), result), Record(e.t, st, result, epoch)))
    ensures SlotInv(Entry(To(e.r.(retried := false), Crashed), Record(e.t, st, result, epoch)))
  {
    hide Record, EmitStart, EmitGate, EmitGuess, EmitEnter, EmitSetPin, EmitLogin, ResumeStart, ResumeGate,
         ResumeGuess, ResumeEnter, ResumeSetPin, ResumeLogin, SlotInv;
    SlotInvLost(cfg, e, st, result, epoch);
    match e.r.pc
    case Starting(at) => SlotInvStart(cfg, e, at, st, result, epoch);
    case Gating(at) => SlotInvGate(cfg, e, at, st, result, epoch);
    case Guessing(at) => SlotInvGuess(cfg, e, at, st, result, epoch);
    case Entering(at) => SlotInvEnter(cfg, e, at, st, result, epoch);
    case SettingPin(at) => SlotInvSetPin(cfg, e, at, st, result, epoch);
    case LoggingIn(at) => SlotInvLogin(cfg, e, at, st, result, epoch);
  }

  /** A request that never hears back dies, but keeps the slot it took. */
  lemma SlotInvLost(cfg: Config, e: Entry, st: Statement, result: Result, epoch: nat)
    requires SlotInv(e) && Emit(cfg, e.r) == Db(st)
    ensures SlotInv(Entry(To(e.r.(retried := false), Crashed), Record(e.t, st, result, epoch)))
  {
    hide Emit, IsFailureBucket, MaxFailures;
    BudgetCalls(cfg, e, st);
    SlotCalls(cfg, e, st);
    if !st.ReserveRateLimit? && !st.RefundRateLimit? {
      hide Record;
      RecordWrites(e.t, st, result, epoch);
    }
  }

  /** A slot is taken from the request's own budget, and given back for no wrong guess. */
  lemma SlotCalls(cfg: Config, e: Entry, st: Statement)
    requires SlotInv(e) && Emit(cfg, e.r) == Db(st)
    ensures st.ReserveRateLimit? ==> st.bucket == FailureBucket(e.r)
    ensures st.RefundRateLimit? ==> e.r.guess != Some(false)
  {
    hide NewDeviceRow, Enroll;
  }

  lemma SlotInvStart(cfg: Config, e: Entry, at: StartPc, st: Statement, result: Result, epoch: nat)
    requires SlotInv(e) && e.r.pc == Starting(at) && EmitStart(cfg, e.r, at) == Db(st)
    ensures SlotInv(Entry(ResumeStart(cfg, e.r.(retried := false), at, result), Record(e.t, st, result, epoch)))
  {
    hide RetryAfterSec, Presents, FailureBucket, MaxFailures, Record;
    RecordWrites(e.t, st, result, epoch);
    assert !st.ReserveRateLimit? && !st.RefundRateLimit?;
    hide EmitStart;
  }

  lemma SlotInvGate(cfg: Config, e: Entry, at: GatePc, st: Statement, result: Result, epoch: nat)
    requires SlotInv(e) && e.r.pc == Gating(at) && EmitGate(cfg, e.r, at) == Db(st)
    ensures SlotInv(Entry(ResumeGate(cfg, e.r.(retried := false), at, result), Record(e.t, st, result, epoch)))
  {
    hide RetryAfterSec, BreakerOpen, DeviceLive;
  }

  lemma SlotInvGuess(cfg: Config, e: Entry, at: GuessPc, st: Statement, result: Result, epoch: nat)
    requires SlotInv(e) && e.r.pc == Guessing(at) && EmitGuess(cfg, e.r, at) == Db(st)
    ensures SlotInv(Entry(ResumeGuess(cfg, e.r.(retried := false), at, result), Record(e.t, st, result, epoch)))
  {
    if at.VerifyAttempt? || at.VerifyConsume? {
      SlotInvCompare(cfg, e, at, st, result, epoch);
    } else if at.VerifyCharge? {
      SlotInvCharge(cfg, e, st, result, epoch);
    } else {
      hide CodeMatches;
      assert st == RefundRateLimit(FailureBucket(e.r), e.r.slotStart);
    }
  }

  lemma SlotInvCharge(cfg: Config, e: Entry, st: Statement, result: Result, epoch: nat)
    requires SlotInv(e) && e.r.pc == Guessing(VerifyCharge) && EmitGuess(cfg, e.r, VerifyCharge) == Db(st)
    ensures SlotInv(Entry(ResumeGuess(cfg, e.r.(retried := false), VerifyCharge, result), Record(e.t, st, result, epoch)))
  {
    hide Record;
    RecordWrites(e.t, st, result, epoch);
  }

  lemma SlotInvCompare(cfg: Config, e: Entry, at: GuessPc, st: Statement, result: Result, epoch: nat)
    requires SlotInv(e) && e.r.pc == Guessing(at) && EmitGuess(cfg, e.r, at) == Db(st)
    requires at.VerifyAttempt? || at.VerifyConsume?
    ensures SlotInv(Entry(ResumeGuess(cfg, e.r.(retried := false), at, result), Record(e.t, st, result, epoch)))
  {
    hide CodeMatches, Record;
    RecordWrites(e.t, st, result, epoch);
    assert !st.ReserveRateLimit? && !st.RefundRateLimit?;
    hide EmitGuess;
  }

  lemma SlotInvEnter(cfg: Config, e: Entry, at: EnterPc, st: Statement, result: Result, epoch: nat)
    requires SlotInv(e) && e.r.pc == Entering(at) && EmitEnter(cfg, e.r, at) == Db(st)
    ensures SlotInv(Entry(ResumeEnter(e.r.(retried := false), at, result), Record(e.t, st, result, epoch)))
  {
    hide DeviceLive, NewDeviceRow;
  }

  lemma SlotInvSetPin(cfg: Config, e: Entry, at: PinPc, st: Statement, result: Result, epoch: nat)
    requires SlotInv(e) && e.r.pc == SettingPin(at) && EmitSetPin(cfg, e.r, at) == Db(st)
    ensures SlotInv(Entry(ResumeSetPin(cfg, e.r.(retried := false), at, result), Record(e.t, st, result, epoch)))
  {
    hide Enroll;
  }

  lemma SlotInvLogin(cfg: Config, e: Entry, at: LoginPc, st: Statement, result: Result, epoch: nat)
    requires SlotInv(e) && e.r.pc == LoggingIn(at) && EmitLogin(cfg, e.r, at) == Db(st)
    ensures SlotInv(Entry(ResumeLogin(cfg, e.r.(retried := false), at, result), Record(e.t, st, result, epoch)))
  {
    hide RetryAfterSec, Verify, Enroll, DeviceLive, Presents, Record;
    RecordWrites(e.t, st, result, epoch);
    assert !st.ReserveRateLimit? && !st.RefundRateLimit?;
    hide EmitLogin;
  }

  lemma SlotInvOther(cfg: Config, e: Entry, found: Option<Session>, told: bool)
    requires SlotInv(e) && !Emit(cfg, e.r).Db?
    ensures SlotInv(e.(r := AfterOther(cfg, e.r, Emit(cfg, e.r), found, told)))
  {
    hide NewDeviceRow, Enroll;
  }

  lemma SlotInvRollBack(e: Entry, retryable: bool)
    requires SlotInv(e)
    ensures SlotInv(RollBack(e, retryable))
  {}

  /** Which statements touch a failure budget, and what the request holds when it sends them. */
  lemma BudgetCalls(cfg: Config, e: Entry, st: Statement)
    requires SlotInv(e) && Emit(cfg, e.r) == Db(st)
    ensures st.ReserveRateLimit? ==>
      && IsFailureBucket(st.bucket) && st.windowMs == cfg.failureWindowMs && st.now == e.r.now
      && st.max == MaxFailures(cfg, st.bucket) && e.t.slot.None?
    ensures st.RefundRateLimit? ==> e.t.slot == Some(HeldSlot(st.bucket, st.windowStart))
    ensures st.HitRateLimit? || st.HitCircuitBreaker? ==> !IsFailureBucket(st.bucket)
    ensures !st.Cleanup?
  {}

  // ----- all requests -----

  /** Slots of bucket `b` taken in the window that opened at `w` and never given back. */
  ghost function Held(reqs: map<nat, Entry>, b: Bucket, w: Time): nat {
    Count(reqs, (e: Entry) => e.t.slot == Some(HeldSlot(b, w)))
  }

  ghost predicate AllSlotInv(reqs: map<nat, Entry>) {
    forall id :: id in reqs ==> SlotInv(reqs[id])
  }

  /** Every slot ever taken lies in the current window of its bucket or in one at least a window length older. */
  ghost predicate SlotsPlaced(cfg: Config, reqs: map<nat, Entry>, limits: map<Bucket, LimitRow>) {
    forall id :: id in reqs && reqs[id].t.slot.Some? ==>
      var h := reqs[id].t.slot.value;
      && IsFailureBucket(h.bucket) && h.bucket in limits
      && (h.windowStart == limits[h.bucket].windowStart
          || h.windowStart + cfg.failureWindowMs <= limits[h.bucket].windowStart)
  }

  ghost predicate RowsExact(reqs: map<nat, Entry>, limits: map<Bucket, LimitRow>) {
    forall b :: b in limits && IsFailureBucket(b) ==> limits[b].count == Held(reqs, b, limits[b].windowStart)
  }

  ghost predicate WithinMax(cfg: Config, reqs: map<nat, Entry>) {
    forall b, w :: IsFailureBucket(b) ==> Held(reqs, b, w) <= MaxFailures(cfg, b)
  }

  ghost predicate BudgetInv(cfg: Config, reqs: map<nat, Entry>, limits: map<Bucket, LimitRow>) {
    SlotsPlaced(cfg, reqs, limits) && RowsExact(reqs, limits) && WithinMax(cfg, reqs)
  }

  predicate SameBudgets(limits: map<Bucket, LimitRow>, limits': map<Bucket, LimitRow>) {
    forall b :: b in limits.Keys + limits'.Keys && IsFailureBucket(b) ==>
      b in limits && b in limits' && limits[b] == limits'[b]
  }

  lemma HeldAfter(reqs: map<nat, Entry>, id: nat, e: Entry, b: Bucket, w: Time)
    ensures Held(reqs[id := e], b, w) == Held(reqs, b, w)
      - (if id in reqs && reqs[id].t.slot == Some(HeldSlot(b, w)) then 1 else 0)
      + (if e.t.slot == Some(HeldSlot(b, w)) then 1 else 0)
  {
    CountUpdate(reqs, id, e, (e: Entry) => e.t.slot == Some(HeldSlot(b, w)));
  }

  /** A step that neither takes nor gives back a slot, nor touches a budget row. */
  lemma KeepSlot(cfg: Config, reqs: map<nat, Entry>, limits: map<Bucket, LimitRow>, id: nat, e: Entry,
                 limits': map<Bucket, LimitRow>)
    requires BudgetInv(cfg, reqs, limits) && SameBudgets(limits, limits')
    requires e.t.slot == if id in reqs then reqs[id].t.slot else None
    ensures BudgetInv(cfg, reqs[id := e], limits')
  {
    var reqs' := reqs[id := e];
    forall b, w ensures Held(reqs', b, w) == Held(reqs, b, w) { HeldAfter(reqs, id, e, b, w); }
    assert WithinMax(cfg, reqs') by {
      forall b, w | IsFailureBucket(b) ensures Held(reqs', b, w) <= MaxFailures(cfg, b) {
        assert Held(reqs', b, w) == Held(reqs, b, w);
      }
    }
  }

  lemma NoneHeld(cfg: Config, reqs: map<nat, Entry>, limits: map<Bucket, LimitRow>, b: Bucket, w: Time)
    requires SlotsPlaced(cfg, reqs, limits) && cfg.failureWindowMs > 0
    requires b in limits ==> limits[b].windowStart < w
    ensures Held(reqs, b, w) == 0
  {
    assert Matching(reqs, (e: Entry) => e.t.slot == Some(HeldSlot(b, w))) == {};
  }

  /** A reservation that found room. */
  lemma TakeSlot(cfg: Config, reqs: map<nat, Entry>, limits: map<Bucket, LimitRow>, id: nat, e: Entry, b: Bucket,
      now: Time)
    requires ValidConfig(cfg) && BudgetInv(cfg, reqs, limits) && IsFailureBucket(b)
    requires id in reqs && reqs[id].t.slot.None?
    requires HasRoom(limits, b, cfg.failureWindowMs, now, MaxFailures(cfg, b))
    requires e.t.slot == Some(HeldSlot(b, CountedRow(limits, b, cfg.failureWindowMs, now).windowStart))
    ensures BudgetInv(cfg, reqs[id := e], limits[b := CountedRow(limits, b, cfg.failureWindowMs, now)])
  {
    var row := CountedRow(limits, b, cfg.failureWindowMs, now);
    var reqs', limits' := reqs[id := e], limits[b := row];
    if b !in limits || Lapsed(limits[b], cfg.failureWindowMs, now) {
      NoneHeld(cfg, reqs, limits, b, now);
    }
    forall c, w ensures Held(reqs', c, w) == Held(reqs, c, w) + (if c == b && w == row.windowStart then 1 else 0) {
      HeldAfter(reqs, id, e, c, w);
    }
    assert RowsExact(reqs', limits');
    assert WithinMax(cfg, reqs') by {
      forall c, w | IsFailureBucket(c) ensures Held(reqs', c, w) <= MaxFailures(cfg, c) {
        if c == b && w == row.windowStart { assert Held(reqs', c, w) == row.count; }
      }
    }
  }

  /** The slot a request holds is really counted: the `count > 0` guard never blocks its refund. */
  lemma RefundNeverBlocked(cfg: Config, reqs: map<nat, Entry>, limits: map<Bucket, LimitRow>, id: nat)
    requires BudgetInv(cfg, reqs, limits) && id in reqs && reqs[id].t.slot.Some?
    ensures var h := reqs[id].t.slot.value;
      h.bucket in limits && (limits[h.bucket].windowStart == h.windowStart ==> limits[h.bucket].count > 0)
  {
    var h := reqs[id].t.slot.value;
    CountWitness(reqs, id, (e: Entry) => e.t.slot == Some(HeldSlot(h.bucket, h.windowStart)));
    assert Held(reqs, h.bucket, h.windowStart) >= 1;
  }

  lemma GiveBack(cfg: Config, reqs: map<nat, Entry>, limits: map<Bucket, LimitRow>, id: nat, e: Entry)
    requires BudgetInv(cfg, reqs, limits) && id in reqs && reqs[id].t.slot.Some? && e.t.slot.None?
    ensures var h := reqs[id].t.slot.value;
      BudgetInv(cfg, reqs[id := e], Refunded(limits, h.bucket, h.windowStart))
  {
    var h := reqs[id].t.slot.value;
    var reqs', limits' := reqs[id := e], Refunded(limits, h.bucket, h.windowStart);
    RefundNeverBlocked(cfg, reqs, limits, id);
    forall c, w ensures Held(reqs', c, w) == Held(reqs, c, w) - (if c == h.bucket && w == h.windowStart then 1 else 0) {
      HeldAfter(reqs, id, e, c, w);
    }
  }

  // ----- runs -----

  ghost predicate BudgetOk(cfg: Config, s: State) {
    AllSlotInv(s.reqs) && BudgetInv(cfg, s.reqs, s.tables.limits)
  }

  /** Only reservations, refunds and cleanup touch a budget row. */
  lemma OtherStatements(t: Tables, st: Statement, trace: Trace, epoch: nat)
    requires !st.ReserveRateLimit? && !st.RefundRateLimit? && !st.Cleanup?
    requires st.HitRateLimit? || st.HitCircuitBreaker? ==> !IsFailureBucket(st.bucket)
    ensures SameBudgets(t.limits, Exec(t, st).0.limits)
    ensures Record(trace, st, Exec(t, st).1, epoch).slot == trace.slot
  {
    RecordWrites(trace, st, Exec(t, st).1, epoch);
    if !WritesLimits(st) {
      hide Exec, Record;
      Frame(t, st);
    }
  }

  lemma BudgetDb(cfg: Config, s: State, id: nat, st: Statement, told: bool)
    requires ValidConfig(cfg) && BudgetOk(cfg, s) && id in s.reqs && Emit(cfg, s.reqs[id].r) == Db(st)
    ensures BudgetOk(cfg, LandDb(cfg, s, id, st, told))
  {
    var e, limits, s' := s.reqs[id], s.tables.limits, LandDb(cfg, s, id, st, told);
    var result, e' := Exec(s.tables, st).1, s'.reqs[id];
    BudgetCalls(cfg, e, st);
    SlotInvDb(cfg, e, st, result, EpochOf(s, e.r.input.email));
    if st.ReserveRateLimit? && HasRoom(limits, st.bucket, st.windowMs, st.now, st.max) {
      TakeSlot(cfg, s.reqs, limits, id, e', st.bucket, st.now);
    } else if st.RefundRateLimit? {
      GiveBack(cfg, s.reqs, limits, id, e');
    } else {
      if !st.ReserveRateLimit? { OtherStatements(s.tables, st, e.t, EpochOf(s, e.r.input.email)); }
      KeepSlot(cfg, s.reqs, limits, id, e', s'.tables.limits);
    }
  }

  lemma BudgetLand(cfg: Config, s: State, id: nat, fate: Fate, visible: bool)
    requires ValidConfig(cfg) && BudgetOk(cfg, s) && Waiting(s, id)
    ensures BudgetOk(cfg, Next(cfg, s, Land(id, fate, visible)))
  {
    assert SlotInv(s.reqs[id]);
    hide Exec, Emit, ResumeDb, AfterOther, SessionFound, SlotInv, BudgetInv, Record;
    var e, c, limits := s.reqs[id], Emit(cfg, s.reqs[id].r), s.tables.limits;
    if fate.RolledBack? {
      SlotInvRollBack(e, fate.retryable);
      KeepSlot(cfg, s.reqs, limits, id, RollBack(e, fate.retryable), limits);
    } else if c.Db? {
      BudgetDb(cfg, s, id, c.statement, fate.Committed?);
    } else {
      var found := SessionFound(s, c, visible);
      SlotInvOther(cfg, e, found, fate.Committed?);
      KeepSlot(cfg, s.reqs, limits, id, e.(r := AfterOther(cfg, e.r, c, found, fate.Committed?)), limits);
    }
  }

  lemma BudgetArrive(cfg: Config, s: State, id: nat, input: Input, now: Time)
    requires ValidConfig(cfg) && BudgetOk(cfg, s) && id !in s.reqs
    ensures BudgetOk(cfg, s.(reqs := s.reqs[id := Entry(Begin(cfg, input, now), NoTrace)]))
  {
    SlotInvBegins(cfg, input, now);
    KeepSlot(cfg, s.reqs, s.tables.limits, id, Entry(Begin(cfg, input, now), NoTrace), s.tables.limits);
  }

  lemma BudgetStep(cfg: Config, s: State, a: Action)
    requires ValidConfig(cfg) && BudgetOk(cfg, s) && Enabled(s, a) && !a.Sweep?
    ensures BudgetOk(cfg, Next(cfg, s, a))
  {
    hide BudgetOk, Exec, Emit, ResumeDb, Begin, LandCall, FreshIds;
    match a
    case Arrive(id, input, now) => BudgetArrive(cfg, s, id, input, now);
    case Land(id, fate, visible) => BudgetLand(cfg, s, id, fate, visible);
    case OwnerRevokes(st) =>
      Frame(s.tables, st);
      SameBudgeting(cfg, s, Next(cfg, s, a));
    case AppMints(_, _) => SameBudgeting(cfg, s, Next(cfg, s, a));
  }

  lemma SameBudgeting(cfg: Config, s: State, s': State)
    requires BudgetOk(cfg, s) && s'.reqs == s.reqs && s'.tables.limits == s.tables.limits
    ensures BudgetOk(cfg, s')
  {}

  /**
   * Any interleaving of any number of requests, any clock readings, lost
   * replies and retries, no cleanup: for every budget and every window, the
   * slots taken and not given back never exceed the budget's maximum, and the
   * row counts exactly those of its current window.
   */
  lemma {:induction false} BudgetsHold(cfg: Config, s: State, acts: seq<Action>)
    requires ValidConfig(cfg) && BudgetOk(cfg, s) && IsRun(cfg, s, acts) && NoSweep(acts)
    ensures BudgetOk(cfg, After(cfg, s, acts))
    decreases |acts|
  {
    if acts != [] {
      BudgetStep(cfg, s, acts[0]);
      BudgetsHold(cfg, Next(cfg, s, acts[0]), acts[1..]);
    }
  }

  lemma BudgetsBegin(cfg: Config)
    ensures BudgetOk(cfg, Init)
  {
    forall b, w ensures Held(Init.reqs, b, w) == 0 {
      assert Matching(Init.reqs, (e: Entry) => e.t.slot == Some(HeldSlot(b, w))) == {};
    }
  }
}

/** The PIN lockout (src/device-auth/index.ts:1063-1087, src/device-auth/store.ts:541-575). */
module LoginGuard {
  import opened Basics
  import opened PinCredential
  import opened Tables
  import opened Routes
  import opened Runs

  // ----- one request -----

  predicate AfterReserve(at: LoginPc) {
    at.LoginLock? || at.LoginReset? || at.LoginMark? || at.LoginTouch? || at.LoginMint?
  }

  /** Whether the request may still clear a guard. */
  predicate BeforeReset(pc: Pc) {
    match pc
    case Starting(_) => true
    case Gating(_) => true
    case Guessing(_) => true
    case Entering(at) => at.VerifyPassed? || at.VerifyUnlock?
    case SettingPin(at) => !at.PinEndSessions?
    case LoggingIn(at) => !(at.LoginMark? || at.LoginTouch? || at.LoginMint?)
    case _ => false
  }

  /** A PIN is compared only on an attempt reserved for that account; a guard is cleared at most once per request. */
  predicate GuardInv(e: Entry) {
    && (e.r.pinChecked.Some? ==> e.t.attempted == Some(e.r.account))
    && (BeforeReset(e.r.pc) ==> e.t.reset.None?)
    && (e.r.pc.LoggingIn? && !AfterReserve(e.r.pc.login) ==> e.t.attempted.None? && e.r.pinChecked.None?)
    && (e.r.pc.Starting? || e.r.pc.Gating? || e.r.pc.Guessing? || e.r.pc.Entering? || e.r.pc.SettingPin? ==>
          e.t.attempted.None? && e.r.pinChecked.None?)
    && (e.r.pc == LoggingIn(LoginReset) ==> e.r.pinChecked == Some(true))
  }

  lemma GuardInvBegins(cfg: Config, input: Input, now: Time)
    ensures GuardInv(Entry(Begin(cfg, input, now), NoTrace))
    ensures var r := Begin(cfg, input, now); r.pinChecked.None? && r.pc != LoggingIn(LoginReset)
  {}

  lemma GuardCalls(cfg: Config, e: Entry, st: Statement)
    requires GuardInv(e) && Emit(cfg, e.r) == Db(st)
    ensures st.ReserveLoginAttempt? ==>
      e.r.pc == LoggingIn(LoginReserve) && st.max == cfg.pinMaxAttempts && st.account == e.r.account && e.t.attempted.None?
    ensures st.LockAccount? ==> st.max == cfg.pinMaxAttempts
    ensures st.ResetLoginGuard? ==>
      && st.account == e.r.account && e.t.reset.None?
      && (e.r.pc == LoggingIn(LoginReset) || e.r.pc == Entering(VerifyUnlock))
    ensures st.ReplaceCredential? ==>
      e.r.pc == SettingPin(PinReplace) && st.pin.accountId == e.r.account && st.resetGuard && e.t.reset.None?
    ensures !st.Cleanup?
  {}

  lemma GuardInvDb(cfg: Config, e: Entry, st: Statement, t: Tables, epoch: nat)
    requires GuardInv(e) && Emit(cfg, e.r) == Db(st)
    ensures var result := Exec(t, st).1; var trace := Record(e.t, st, result, epoch);
      GuardInv(Entry(ResumeDb(cfg, e.r.(retried := false), result), trace))
      && GuardInv(Entry(To(e.r.(retried := false), Crashed), trace))
  {
    hide Record, EmitStart, EmitGate, EmitGuess, EmitEnter, EmitSetPin, EmitLogin, ResumeStart, ResumeGate,
         ResumeGuess, ResumeEnter, ResumeSetPin, ResumeLogin, GuardInv;
    var result := Exec(t, st).1;
    GuardInvLost(cfg, e, st, result, epoch);
    match e.r.pc
    case Starting(at) => GuardInvStart(cfg, e, at, st, result, epoch);
    case Gating(at) => GuardInvGate(cfg, e, at, st, result, epoch);
    case Guessing(at) => GuardInvGuess(cfg, e, at, st, result, epoch);
    case Entering(at) => GuardInvEnter(cfg, e, at, st, result, epoch);
    case SettingPin(at) => GuardInvSetPin(cfg, e, at, st, result, epoch);
    case LoggingIn(at) => GuardInvLogin(cfg, e, at, st, result, epoch);
  }

  lemma LostRecord(e: Entry, st: Statement, result: Result, epoch: nat)
    requires GuardInv(e) && (st.ReserveLoginAttempt? ==> e.r.pinChecked.None?)
    ensures GuardInv(Entry(To(e.r.(retried := false), Crashed), Record(e.t, st, result, epoch)))
  {}

  lemma GuardInvLost(cfg: Config, e: Entry, st: Statement, result: Result, epoch: nat)
    requires GuardInv(e) && Emit(cfg, e.r) == Db(st)
    ensures GuardInv(Entry(To(e.r.(retried := false), Crashed), Record(e.t, st, result, epoch)))
  {
    hide Record, NewDeviceRow, Enroll;
    GuardCalls(cfg, e, st);
    LostRecord(e, st, result, epoch);
  }

  lemma GuardInvStart(cfg: Config, e: Entry, at: StartPc, st: Statement, result: Result, epoch: nat)
    requires GuardInv(e) && e.r.pc == Starting(at) && EmitStart(cfg, e.r, at) == Db(st)
    ensures GuardInv(Entry(ResumeStart(cfg, e.r.(retried := false), at, result), Record(e.t, st, result, epoch)))
  {
    hide RetryAfterSec, DeviceLive;
  }

  lemma GuardInvGate(cfg: Config, e: Entry, at: GatePc, st: Statement, result: Result, epoch: nat)
    requires GuardInv(e) && e.r.pc == Gating(at) && EmitGate(cfg, e.r, at) == Db(st)
    ensures GuardInv(Entry(ResumeGate(cfg, e.r.(retried := false), at, result), Record(e.t, st, result, epoch)))
  {
    hide RetryAfterSec, BreakerOpen, DeviceLive;
  }

  lemma GuardInvGuess(cfg: Config, e: Entry, at: GuessPc, st: Statement, result: Result, epoch: nat)
    requires GuardInv(e) && e.r.pc == Guessing(at) && EmitGuess(cfg, e.r, at) == Db(st)
    ensures GuardInv(Entry(ResumeGuess(cfg, e.r.(retried := false), at, result), Record(e.t, st, result, epoch)))
  {
    hide CodeMatches;
  }

  lemma GuardInvEnter(cfg: Config, e: Entry, at: EnterPc, st: Statement, result: Result, epoch: nat)
    requires GuardInv(e) && e.r.pc == Entering(at) && EmitEnter(cfg, e.r, at) == Db(st)
    ensures GuardInv(Entry(ResumeEnter(e.r.(retried := false), at, result), Record(e.t, st, result, epoch)))
  {
    hide DeviceLive, NewDeviceRow;
  }

  lemma GuardInvSetPin(cfg: Config, e: Entry, at: PinPc, st: Statement, result: Result, epoch: nat)
    requires GuardInv(e) && e.r.pc == SettingPin(at) && EmitSetPin(cfg, e.r, at) == Db(st)
    ensures GuardInv(Entry(ResumeSetPin(cfg, e.r.(retried := false), at, result), Record(e.t, st, result, epoch)))
  {
    hide Enroll;
  }

  lemma GuardInvLogin(cfg: Config, e: Entry, at: LoginPc, st: Statement, result: Result, epoch: nat)
    requires GuardInv(e) && e.r.pc == LoggingIn(at) && EmitLogin(cfg, e.r, at) == Db(st)
    ensures GuardInv(Entry(ResumeLogin(cfg, e.r.(retried := false), at, result), Record(e.t, st, result, epoch)))
  {
    hide RetryAfterSec, Verify, Enroll, DeviceLive;
    if at.LoginReserve? {
      GuardInvCompare(cfg, e, st, result, epoch);
    } else {
      var r := ResumeLogin(cfg, e.r.(retried := false), at, result);
      assert Record(e.t, st, result, epoch).attempted == e.t.attempted;
      assert AfterReserve(at) ==> r.account == e.r.account;
    }
  }

  lemma GuardInvCompare(cfg: Config, e: Entry, st: Statement, result: Result, epoch: nat)
    requires GuardInv(e) && e.r.pc == LoggingIn(LoginReserve) && EmitLogin(cfg, e.r, LoginReserve) == Db(st)
    ensures GuardInv(Entry(ResumeLogin(cfg, e.r.(retried := false), LoginReserve, result), Record(e.t, st, result, epoch)))
  {}

  lemma GuardInvOther(cfg: Config, e: Entry, found: Option<Session>, told: bool)
    requires GuardInv(e) && !Emit(cfg, e.r).Db?
    ensures GuardInv(e.(r := AfterOther(cfg, e.r, Emit(cfg, e.r), found, told)))
  {
    hide NewDeviceRow, Enroll;
  }

  lemma GuardInvRollBack(e: Entry, retryable: bool)
    requires GuardInv(e)
    ensures GuardInv(RollBack(e, retryable))
  {}

  // ----- all requests -----

  ghost function Attempts(reqs: map<nat, Entry>, a: AccountId): nat {
    Count(reqs, (e: Entry) => e.t.attempted == Some(a))
  }

  ghost function Resets(reqs: map<nat, Entry>, a: AccountId): nat {
    Count(reqs, (e: Entry) => e.t.reset == Some(a))
  }

  /** PINs compared for the account, right or wrong. */
  ghost function PinsChecked(reqs: map<nat, Entry>, a: AccountId): nat {
    Count(reqs, (e: Entry) => e.r.pinChecked.Some? && e.r.account == a)
  }

  function FailedCount(guards: map<AccountId, GuardRow>, a: AccountId): nat {
    if a in guards then guards[a].failedCount else 0
  }

  predicate RowOk(max: nat, row: GuardRow) {
    row.failedCount <= max && (row.lockedAt.Some? ==> row.failedCount >= max)
  }

  /** Attempts are paid for by the row's count and by one full allowance per reset. */
  ghost predicate PaidFor(max: nat, reqs: map<nat, Entry>, guards: map<AccountId, GuardRow>, a: AccountId) {
    && (a in guards ==> RowOk(max, guards[a]))
    && Attempts(reqs, a) <= FailedCount(guards, a) + max * Resets(reqs, a)
  }

  ghost predicate GuardOk(cfg: Config, s: State) {
    && (forall id :: id in s.reqs ==> GuardInv(s.reqs[id]))
    && (forall a :: PaidFor(cfg.pinMaxAttempts, s.reqs, s.tables.guards, a))
  }

  lemma CountsAfter(reqs: map<nat, Entry>, id: nat, e: Entry, a: AccountId)
    ensures Attempts(reqs[id := e], a) == Attempts(reqs, a)
      - (if id in reqs && reqs[id].t.attempted == Some(a) then 1 else 0) + (if e.t.attempted == Some(a) then 1 else 0)
    ensures Resets(reqs[id := e], a) == Resets(reqs, a)
      - (if id in reqs && reqs[id].t.reset == Some(a) then 1 else 0) + (if e.t.reset == Some(a) then 1 else 0)
  {
    CountUpdate(reqs, id, e, (e: Entry) => e.t.attempted == Some(a));
    CountUpdate(reqs, id, e, (e: Entry) => e.t.reset == Some(a));
  }

  /** What a statement may do to one account's guard, seen next to what it adds to the request's trace. */
  predicate GuardMove(max: nat, e: Trace, e': Trace, guards: map<AccountId, GuardRow>,
      guards': map<AccountId, GuardRow>,
                      a: AccountId)
  {
    && (a in guards' ==> RowOk(max, guards'[a]))
    && (if e'.reset == Some(a) && e.reset != Some(a) then
          e'.attempted == e.attempted && e.reset.None? && FailedCount(guards', a) == 0 && FailedCount(guards, a) <= max
        else if e'.attempted == Some(a) && e.attempted != Some(a) then
          e'.reset == e.reset && e.attempted.None? && FailedCount(guards', a) == FailedCount(guards, a) + 1
        else
          && (e.reset == Some(a) <==> e'.reset == Some(a)) && (e.attempted == Some(a) <==> e'.attempted == Some(a))
          && FailedCount(guards', a) == FailedCount(guards, a))
  }

  lemma MoveKeepsPaid(max: nat, reqs: map<nat, Entry>, guards: map<AccountId, GuardRow>, id: nat, e: Entry,
                      guards': map<AccountId, GuardRow>, a: AccountId)
    requires PaidFor(max, reqs, guards, a)
    requires GuardMove(max, if id in reqs then reqs[id].t else NoTrace, e.t, guards, guards', a)
    ensures PaidFor(max, reqs[id := e], guards', a)
  {
    CountsAfter(reqs, id, e, a);
    var n := Resets(reqs, a);
    assert max * (n + 1) == max * n + max;
  }

  predicate TouchesGuard(st: Statement) {
    st.ReserveLoginAttempt? || st.LockAccount? || st.ResetLoginGuard? || st.ReplaceCredential? || st.Cleanup?
  }

  lemma OtherStatements(e: Trace, st: Statement, t: Tables, epoch: nat)
    requires !TouchesGuard(st)
    ensures Exec(t, st).0.guards == t.guards
    ensures var e' := Record(e, st, Exec(t, st).1, epoch); e'.attempted == e.attempted && e'.reset == e.reset
  {
    hide Exec, Record;
    Frame(t, st);
    RecordWrites(e, st, Exec(t, st).1, epoch);
  }

  lemma StatementMoves(cfg: Config, e: Entry, st: Statement, t: Tables, epoch: nat, a: AccountId)
    requires ValidConfig(cfg) && GuardInv(e) && Emit(cfg, e.r) == Db(st)
    requires a in t.guards ==> RowOk(cfg.pinMaxAttempts, t.guards[a])
    ensures GuardMove(cfg.pinMaxAttempts, e.t, Record(e.t, st, Exec(t, st).1, epoch), t.guards, Exec(t, st).0.guards, a)
  {
    GuardCalls(cfg, e, st);
    if st.ReplaceCredential? {
      ReplacementMoves(cfg, e.t, st, t, epoch, a);
    } else if TouchesGuard(st) {
      GuardStatementMoves(cfg, e.t, st, t, epoch, a);
    } else {
      OtherStatements(e.t, st, t, epoch);
    }
  }

  lemma AttemptMoves(cfg: Config, e: Trace, st: Statement, t: Tables, epoch: nat, a: AccountId)
    requires cfg.pinMaxAttempts >= 1 && st.ReserveLoginAttempt? && st.max == cfg.pinMaxAttempts && e.attempted.None?
    requires a in t.guards ==> RowOk(cfg.pinMaxAttempts, t.guards[a])
    ensures GuardMove(cfg.pinMaxAttempts, e, Record(e, st, Exec(t, st).1, epoch), t.guards, Exec(t, st).0.guards, a)
  {
    var t', e' := Exec(t, st).0, Record(e, st, Exec(t, st).1, epoch);
    assert e'.reset == e.reset;
    assert e'.attempted == if CanAttempt(t.guards, st.account, st.max) then Some(st.account) else None;
    assert t'.guards == if CanAttempt(t.guards, st.account, st.max)
      then t.guards[st.account := AttemptedRow(t.guards, st.account, st.now)] else t.guards;
    hide Exec, Record;
  }

  lemma LockMoves(cfg: Config, e: Trace, st: Statement, t: Tables, epoch: nat, a: AccountId)
    requires cfg.pinMaxAttempts >= 1 && st.LockAccount? && st.max == cfg.pinMaxAttempts
    requires a in t.guards ==> RowOk(cfg.pinMaxAttempts, t.guards[a])
    ensures GuardMove(cfg.pinMaxAttempts, e, Record(e, st, Exec(t, st).1, epoch), t.guards, Exec(t, st).0.guards, a)
  {
    hide Record;
    RecordWrites(e, st, Exec(t, st).1, epoch);
  }

  lemma ResetMoves(cfg: Config, e: Trace, st: Statement, t: Tables, epoch: nat, a: AccountId)
    requires cfg.pinMaxAttempts >= 1 && st.ResetLoginGuard? && e.reset.None?
    requires a in t.guards ==> RowOk(cfg.pinMaxAttempts, t.guards[a])
    ensures GuardMove(cfg.pinMaxAttempts, e, Record(e, st, Exec(t, st).1, epoch), t.guards, Exec(t, st).0.guards, a)
  {}

  lemma GuardStatementMoves(cfg: Config, e: Trace, st: Statement, t: Tables, epoch: nat, a: AccountId)
    requires cfg.pinMaxAttempts >= 1 && (st.ReserveLoginAttempt? || st.LockAccount? || st.ResetLoginGuard?)
    requires st.ReserveLoginAttempt? || st.LockAccount? ==> st.max == cfg.pinMaxAttempts
    requires st.ReserveLoginAttempt? ==> e.attempted.None?
    requires st.ResetLoginGuard? ==> e.reset.None?
    requires a in t.guards ==> RowOk(cfg.pinMaxAttempts, t.guards[a])
    ensures GuardMove(cfg.pinMaxAttempts, e, Record(e, st, Exec(t, st).1, epoch), t.guards, Exec(t, st).0.guards, a)
  {
    hide Exec, Record, GuardMove, RowOk;
    if st.ReserveLoginAttempt? {
      AttemptMoves(cfg, e, st, t, epoch, a);
    } else if st.LockAccount? {
      LockMoves(cfg, e, st, t, epoch, a);
    } else {
      ResetMoves(cfg, e, st, t, epoch, a);
    }
  }

  lemma ReplacementMoves(cfg: Config, e: Trace, st: Statement, t: Tables, epoch: nat, a: AccountId)
    requires st.ReplaceCredential? && st.resetGuard && e.reset.None?
    requires a in t.guards ==> RowOk(cfg.pinMaxAttempts, t.guards[a])
    ensures GuardMove(cfg.pinMaxAttempts, e, Record(e, st, Exec(t, st).1, epoch), t.guards, Exec(t, st).0.guards, a)
  {}

  // ----- runs -----

  lemma GuardDb(cfg: Config, s: State, id: nat, st: Statement, told: bool)
    requires ValidConfig(cfg) && GuardOk(cfg, s) && id in s.reqs && Emit(cfg, s.reqs[id].r) == Db(st)
    ensures GuardOk(cfg, LandDb(cfg, s, id, st, told))
  {
    var e, s' := s.reqs[id], LandDb(cfg, s, id, st, told);
    var epoch := EpochOf(s, e.r.input.email);
    GuardInvDb(cfg, e, st, s.tables, epoch);
    forall a ensures PaidFor(cfg.pinMaxAttempts, s'.reqs, s'.tables.guards, a) {
      assert PaidFor(cfg.pinMaxAttempts, s.reqs, s.tables.guards, a);
      StatementMoves(cfg, e, st, s.tables, epoch, a);
      MoveKeepsPaid(cfg.pinMaxAttempts, s.reqs, s.tables.guards, id, s'.reqs[id], s'.tables.guards, a);
    }
  }

  /** A request that moves on without touching the database. */
  lemma GuardQuiet(cfg: Config, s: State, id: nat, e: Entry, s': State)
    requires GuardOk(cfg, s) && GuardInv(e)
    requires s'.reqs == s.reqs[id := e] && s'.tables.guards == s.tables.guards
    requires e.t == if id in s.reqs then s.reqs[id].t else NoTrace
    ensures GuardOk(cfg, s')
  {
    forall a ensures PaidFor(cfg.pinMaxAttempts, s'.reqs, s'.tables.guards, a) {
      assert PaidFor(cfg.pinMaxAttempts, s.reqs, s.tables.guards, a);
      MoveKeepsPaid(cfg.pinMaxAttempts, s.reqs, s.tables.guards, id, e, s'.tables.guards, a);
    }
  }

  lemma GuardLand(cfg: Config, s: State, id: nat, fate: Fate, visible: bool)
    requires ValidConfig(cfg) && GuardOk(cfg, s) && Waiting(s, id)
    ensures GuardOk(cfg, Next(cfg, s, Land(id, fate, visible)))
  {
    var e, c := s.reqs[id], Emit(cfg, s.reqs[id].r);
    if fate.RolledBack? {
      GuardInvRollBack(e, fate.retryable);
      GuardQuiet(cfg, s, id, RollBack(e, fate.retryable), Next(cfg, s, Land(id, fate, visible)));
    } else if c.Db? {
      GuardDb(cfg, s, id, c.statement, fate.Committed?);
    } else {
      GuardInvOther(cfg, e, SessionFound(s, c, visible), fate.Committed?);
      GuardQuiet(cfg, s, id, e.(r := AfterOther(cfg, e.r, c, SessionFound(s, c, visible), fate.Committed?)),
                 Next(cfg, s, Land(id, fate, visible)));
    }
  }

  lemma GuardStep(cfg: Config, s: State, a: Action)
    requires ValidConfig(cfg) && GuardOk(cfg, s) && Enabled(s, a)
    ensures GuardOk(cfg, Next(cfg, s, a))
  {
    match a
    case Arrive(id, input, now) =>
      GuardInvBegins(cfg, input, now);
      GuardQuiet(cfg, s, id, Entry(Begin(cfg, input, now), NoTrace), Next(cfg, s, a));
    case Land(id, fate, visible) => GuardLand(cfg, s, id, fate, visible);
    case OwnerRevokes(st) =>
    case AppMints(_, _) =>
    case Sweep(_, _) =>
  }

  lemma {:induction false} GuardsHold(cfg: Config, s: State, acts: seq<Action>)
    requires ValidConfig(cfg) && GuardOk(cfg, s) && IsRun(cfg, s, acts)
    ensures GuardOk(cfg, After(cfg, s, acts))
    decreases |acts|
  {
    if acts != [] {
      GuardStep(cfg, s, acts[0]);
      GuardsHold(cfg, Next(cfg, s, acts[0]), acts[1..]);
    }
  }

  lemma GuardsBegin(cfg: Config)
    ensures GuardOk(cfg, Init)
  {
    forall a ensures PaidFor(cfg.pinMaxAttempts, Init.reqs, Init.tables.guards, a) {
      assert Matching(Init.reqs, (e: Entry) => e.t.attempted == Some(a)) == {};
    }
  }

  /**
   * Any interleaving, cleanup included: the PINs compared for an account never
   * exceed one allowance plus one per reset of its guard, the counter never
   * exceeds the allowance, and a lock is only ever set on a spent allowance.
   */
  lemma PinsPerAccount(cfg: Config, acts: seq<Action>, a: AccountId)
    requires ValidConfig(cfg) && IsRun(cfg, Init, acts)
    ensures var s := After(cfg, Init, acts);
      && PinsChecked(s.reqs, a) <= cfg.pinMaxAttempts * (1 + Resets(s.reqs, a))
      && (a in s.tables.guards ==> RowOk(cfg.pinMaxAttempts, s.tables.guards[a]))
  {
    GuardsBegin(cfg);
    GuardsHold(cfg, Init, acts);
    ComparedArePaid(cfg.pinMaxAttempts, After(cfg, Init, acts), a);
  }

  lemma ComparedArePaid(max: nat, s: State, a: AccountId)
    requires PaidFor(max, s.reqs, s.tables.guards, a) && (forall id :: id in s.reqs ==> GuardInv(s.reqs[id]))
    ensures PinsChecked(s.reqs, a) <= max * (1 + Resets(s.reqs, a))
  {
    CountMonotone(s.reqs, (e: Entry) => e.r.pinChecked.Some? && e.r.account == a, (e: Entry) => e.t.attempted == Some(a));
    var n := Resets(s.reqs, a);
    assert max * (1 + n) == max + max * n;
  }
}

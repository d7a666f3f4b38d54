/** How a lockout ends (src/device-auth/index.ts:934-935, 990-1010, 1069-1087). */
module Lockout {
  import opened Basics
  import opened PinCredential
  import opened Tables
  import opened Routes
  import opened Runs
  import opened LoginGuard

  /** The account's allowance is spent: nothing may be reserved, whether or not the lock was written yet. */
  predicate Spent(cfg: Config, s: State, a: AccountId) {
    a in s.tables.guards && s.tables.guards[a].failedCount >= cfg.pinMaxAttempts
  }

  /** No request of the account has compared a correct PIN and not yet cleared the guard. */
  ghost predicate NoneClearing(s: State, a: AccountId) {
    forall id :: id in s.reqs && s.reqs[id].r.pc == LoggingIn(LoginReset) ==> s.reqs[id].r.account != a
  }

  /** A verified email code, or a PIN replacement, landing on this account. */
  predicate Unlocks(s: State, act: Action, a: AccountId) {
    act.Land? && !act.fate.RolledBack? && act.id in s.reqs && s.reqs[act.id].r.account == a
    && (s.reqs[act.id].r.pc == Entering(VerifyUnlock) || s.reqs[act.id].r.pc == SettingPin(PinReplace))
  }

  ghost predicate NeverUnlocks(cfg: Config, s: State, acts: seq<Action>, a: AccountId)
    requires IsRun(cfg, s, acts)
    decreases |acts|
  {
    acts == [] || (!Unlocks(s, acts[0], a) && NeverUnlocks(cfg, Next(cfg, s, acts[0]), acts[1..], a))
  }

  predicate Checked(e: Entry, a: AccountId) { e.r.pinChecked.Some? && e.r.account == a }

  /** The lock, if set, is still the same lock. */
  predicate StillLocked(s: State, s': State, a: AccountId) {
    a in s.tables.guards && a in s'.tables.guards
    && s'.tables.guards[a].failedCount == s.tables.guards[a].failedCount
    && (s.tables.guards[a].lockedAt.Some? ==> s'.tables.guards[a].lockedAt == s.tables.guards[a].lockedAt)
  }

  /** What one statement of another kind of request leaves alone. */
  lemma SpentDb(cfg: Config, s: State, id: nat, st: Statement, told: bool, a: AccountId)
    requires id in s.reqs && GuardInv(s.reqs[id]) && Emit(cfg, s.reqs[id].r) == Db(st)
    requires Spent(cfg, s, a) && (s.reqs[id].r.pc == LoggingIn(LoginReset) ==> s.reqs[id].r.account != a)
    requires s.reqs[id].r.pc == Entering(VerifyUnlock) || s.reqs[id].r.pc == SettingPin(PinReplace) ==>
      s.reqs[id].r.account != a
    ensures StillLocked(s, LandDb(cfg, s, id, st, told), a)
  {
    GuardCalls(cfg, s.reqs[id], st);
    if !TouchesGuard(st) { OtherStatements(s.reqs[id].t, st, s.tables, EpochOf(s, s.reqs[id].r.input.email)); }
  }

  /** Only a granted attempt leads to a comparison, or to a request that will clear the guard. */
  lemma ComparesOnlyWhenGranted(cfg: Config, e: Entry, result: Result, a: AccountId)
    requires GuardInv(e)
    requires e.r.pc == LoggingIn(LoginReserve) && e.r.account == a ==> !result.LoginAttempt? || result.failedCount.None?
    ensures var r := ResumeDb(cfg, e.r.(retried := false), result);
      && (Checked(e.(r := r), a) <==> Checked(e, a))
      && (r.pc == LoggingIn(LoginReset) ==> e.r.pc == LoggingIn(LoginReset) || r.account != a)
  {
    hide ResumeStart, ResumeGate, ResumeGuess, ResumeEnter, ResumeSetPin, ResumeLogin, Verify;
    match e.r.pc
    case Starting(_) =>
    case Gating(_) =>
    case Guessing(_) =>
    case Entering(_) =>
    case SettingPin(_) =>
    case LoggingIn(at) => LoginComparesOnlyWhenGranted(cfg, e, at, result, a);
    case Finished(_) =>
    case Crashed =>
  }

  lemma LoginComparesOnlyWhenGranted(cfg: Config, e: Entry, at: LoginPc, result: Result, a: AccountId)
    requires GuardInv(e) && e.r.pc == LoggingIn(at)
    requires at.LoginReserve? && e.r.account == a ==> !result.LoginAttempt? || result.failedCount.None?
    ensures var r := ResumeLogin(cfg, e.r.(retried := false), at, result);
      && (Checked(e.(r := r), a) <==> Checked(e, a))
      && (r.pc == LoggingIn(LoginReset) ==> r.account != a)
  {}

  predicate ClearsOther(e: Entry, a: AccountId) { e.r.pc == LoggingIn(LoginReset) ==> e.r.account != a }

  lemma LockedDb(cfg: Config, s: State, id: nat, st: Statement, told: bool, a: AccountId)
    requires id in s.reqs && GuardInv(s.reqs[id]) && Emit(cfg, s.reqs[id].r) == Db(st)
    requires Spent(cfg, s, a) && ClearsOther(s.reqs[id], a)
    requires s.reqs[id].r.pc == Entering(VerifyUnlock) || s.reqs[id].r.pc == SettingPin(PinReplace) ==>
      s.reqs[id].r.account != a
    ensures var e' := LandDb(cfg, s, id, st, told).reqs[id];
      ClearsOther(e', a) && (Checked(e', a) <==> Checked(s.reqs[id], a))
  {
    var e, result := s.reqs[id], Exec(s.tables, st).1;
    GuardCalls(cfg, e, st);
    if st.ReserveLoginAttempt? && st.account == a { assert result == LoginAttempt(None); }
    ComparesOnlyWhenGranted(cfg, e, result, a);
  }

  /** A call outside the database neither compares a PIN nor leads to a reset. */
  lemma LockedOther(cfg: Config, e: Entry, found: Option<Session>, told: bool, a: AccountId)
    requires GuardInv(e) && !Emit(cfg, e.r).Db?
    ensures var e' := e.(r := AfterOther(cfg, e.r, Emit(cfg, e.r), found, told));
      ClearsOther(e', a) && (Checked(e', a) <==> Checked(e, a))
  {}

  predicate SameChecks(s: State, s': State, a: AccountId) {
    s.reqs.Keys <= s'.reqs.Keys
    && forall id :: id in s'.reqs ==> (Checked(s'.reqs[id], a) <==> id in s.reqs && Checked(s.reqs[id], a))
  }

  lemma OneEntryMoves(s: State, s': State, id: nat, a: AccountId)
    requires NoneClearing(s, a) && id in s'.reqs && s'.reqs == s.reqs[id := s'.reqs[id]]
    requires ClearsOther(s'.reqs[id], a) && (Checked(s'.reqs[id], a) <==> id in s.reqs && Checked(s.reqs[id], a))
    ensures NoneClearing(s', a) && SameChecks(s, s', a)
  {}

  lemma LockedLand(cfg: Config, s: State, id: nat, fate: Fate, visible: bool, a: AccountId)
    requires GuardOk(cfg, s) && Waiting(s, id)
    requires Spent(cfg, s, a) && NoneClearing(s, a) && !Unlocks(s, Land(id, fate, visible), a)
    ensures var s' := Next(cfg, s, Land(id, fate, visible));
      StillLocked(s, s', a) && NoneClearing(s', a) && SameChecks(s, s', a)
  {
    var e, c, s' := s.reqs[id], Emit(cfg, s.reqs[id].r), Next(cfg, s, Land(id, fate, visible));
    assert GuardInv(e) && ClearsOther(e, a);
    if fate.RolledBack? {
      OneEntryMoves(s, s', id, a);
    } else if c.Db? {
      SpentDb(cfg, s, id, c.statement, fate.Committed?, a);
      LockedDb(cfg, s, id, c.statement, fate.Committed?, a);
      OneEntryMoves(s, LandDb(cfg, s, id, c.statement, fate.Committed?), id, a);
    } else {
      LockedOther(cfg, e, SessionFound(s, c, visible), fate.Committed?, a);
      OneEntryMoves(s, s', id, a);
    }
  }

  lemma LockedStep(cfg: Config, s: State, act: Action, a: AccountId)
    requires GuardOk(cfg, s) && Enabled(s, act)
    requires Spent(cfg, s, a) && NoneClearing(s, a) && !Unlocks(s, act, a)
    ensures var s' := Next(cfg, s, act); StillLocked(s, s', a) && NoneClearing(s', a) && SameChecks(s, s', a)
  {
    match act
    case Arrive(id, input, now) => GuardInvBegins(cfg, input, now);
    case Land(id, fate, visible) => LockedLand(cfg, s, id, fate, visible, a);
    case OwnerRevokes(st) =>
    case AppMints(_, _) =>
    case Sweep(_, _) =>
  }

  /**
   * Once an account's allowance is spent and no correct PIN is between its
   * comparison and its reset, no PIN is compared and the lock stands, in any
   * interleaving, until a verified email code or a PIN replacement lands.
   */
  lemma {:induction false} LockStands(cfg: Config, s: State, acts: seq<Action>, a: AccountId)
    requires ValidConfig(cfg) && GuardOk(cfg, s) && IsRun(cfg, s, acts)
    requires Spent(cfg, s, a) && NoneClearing(s, a) && NeverUnlocks(cfg, s, acts, a)
    ensures var s' := After(cfg, s, acts); StillLocked(s, s', a) && SameChecks(s, s', a)
    decreases |acts|
  {
    if acts != [] {
      GuardStep(cfg, s, acts[0]);
      LockedStep(cfg, s, acts[0], a);
      LockStands(cfg, Next(cfg, s, acts[0]), acts[1..], a);
    }
  }

  // ----- what ends it -----

  /**
   * The landing of a request that clears the guard: by a verified email code,
   * by a new PIN, or by a correct PIN compared on an attempt reserved before
   * the allowance was spent.
   */
  predicate Clears(s: State, act: Action, a: AccountId) {
    act.Land? && !act.fate.RolledBack? && act.id in s.reqs && s.reqs[act.id].r.account == a
    && (|| s.reqs[act.id].r.pc == Entering(VerifyUnlock)
        || s.reqs[act.id].r.pc == LoggingIn(LoginReset)
        || (s.reqs[act.id].r.pc == SettingPin(PinReplace) && s.reqs[act.id].r.input.newCredential !in s.tables.credentials))
  }

  lemma StatementClears(cfg: Config, t: Tables, e: Entry, st: Statement, a: AccountId)
    requires ValidConfig(cfg) && GuardInv(e) && Emit(cfg, e.r) == Db(st)
    requires a in t.guards && t.guards[a].failedCount >= cfg.pinMaxAttempts
    ensures var guards := Exec(t, st).0.guards;
      var clears := e.r.account == a
        && (|| e.r.pc == Entering(VerifyUnlock) || e.r.pc == LoggingIn(LoginReset)
            || (e.r.pc == SettingPin(PinReplace) && e.r.input.newCredential !in t.credentials));
      && a in guards && (guards[a].failedCount < cfg.pinMaxAttempts <==> clears)
      && (clears ==> guards[a] == GuardRow(0, None, e.r.now))
  {
    hide GuardInv;
    GuardStatements(cfg, e, st);
    if !WritesGuards(st) { Frame(t, st); }
  }

  /** Which statements of which requests write a guard. */
  lemma GuardStatements(cfg: Config, e: Entry, st: Statement)
    requires Emit(cfg, e.r) == Db(st)
    ensures st.ResetLoginGuard? <==> e.r.pc == Entering(VerifyUnlock) || e.r.pc == LoggingIn(LoginReset)
    ensures st.ResetLoginGuard? ==> st == ResetLoginGuard(e.r.account, e.r.now)
    ensures st.ReplaceCredential? <==> e.r.pc == SettingPin(PinReplace)
    ensures st.ReplaceCredential? ==>
      && st.pin.accountId == e.r.account && st.pin.credentialId == e.r.input.newCredential
      && st.pin.updatedAt == e.r.now && st.resetGuard
    ensures (st.ReserveLoginAttempt? || st.LockAccount?) ==> st.max == cfg.pinMaxAttempts
  {}

  /**
   * Of a spent allowance: it is given back by exactly these landings, and then
   * whole. So a correct PIN in flight does clear a lock that landed after its
   * attempt was reserved; nothing else does but a verified code or a new PIN.
   */
  lemma LockEndsExactly(cfg: Config, s: State, act: Action, a: AccountId)
    requires ValidConfig(cfg) && GuardOk(cfg, s) && Enabled(s, act) && Spent(cfg, s, a)
    ensures !Spent(cfg, Next(cfg, s, act), a) <==> Clears(s, act, a)
    ensures a in Next(cfg, s, act).tables.guards
    ensures Clears(s, act, a) ==> Next(cfg, s, act).tables.guards[a] == GuardRow(0, None, s.reqs[act.id].r.now)
  {
    hide Exec, Emit, ResumeDb, GuardInv;
    if act.Land? {
      assert GuardInv(s.reqs[act.id]);
      if Clears(s, act, a) { ClearingCall(cfg, s.reqs[act.id]); }
      if !act.fate.RolledBack? && Emit(cfg, s.reqs[act.id].r).Db? {
        StatementClears(cfg, s.tables, s.reqs[act.id], Emit(cfg, s.reqs[act.id].r).statement, a);
      }
    } else if act.OwnerRevokes? {
      Frame(s.tables, act.statement);
    }
  }

  lemma ClearingCall(cfg: Config, e: Entry)
    requires e.r.pc == Entering(VerifyUnlock) || e.r.pc == LoggingIn(LoginReset) || e.r.pc == SettingPin(PinReplace)
    ensures Emit(cfg, e.r).Db?
  {}
}

/**
 * Two runs from the empty store that reach the exceptions: a lock cleared by
 * a PIN in flight (src/device-auth/index.ts:1063-1087), and a device brought
 * back by a stale touch (src/device-auth/store.ts:395-407).
 */
module Witnesses {
  import opened Basics
  import opened PinCredential
  import opened Tables
  import opened Routes
  import opened Runs
  import opened Lockout
  import opened DeviceSessions

  /** A configuration without a circuit breaker, whose ring verifies what it makes. */
  predicate Plain(cfg: Config) {
    ValidConfig(cfg) && cfg.breaker.None? && !cfg.requireClientIp && HoldsOwn(cfg.ring)
  }

  /** Whatever address, PIN and other digits the routes accept; ids, hashes and the code are free names. */
  datatype Cast = Cast(email: Email, right: string, wrong: string)

  function NameOf(id: nat): string {
    if id == 0 then "start" else if id == 1 then "verify" else if id == 2 then "pin" else if id == 3 then "slow" else "wrong"
  }

  /** Every request of the run: one address, one account, and a PIN; logins present the device request 1 registers. */
  function Ask(who: Cast, route: Route, id: nat, pin: string): Input {
    var presented := if route.PinLogin? then Some(Token("verify", "hash")) else None;
    Input(route, who.email, None, presented, "123456", true, Some("a"), pin, "salt", "verify",
          NameOf(id), NameOf(id), "hash", NameOf(id))
  }

  // ----- building a run -----

  ghost predicate Leads(cfg: Config, acts: seq<Action>, s: State) { IsRun(cfg, Init, acts) && After(cfg, Init, acts) == s }

  ghost predicate Reached(cfg: Config, s: State) { exists acts :: Leads(cfg, acts, s) }

  lemma {:induction false} RunOn(cfg: Config, s: State, acts: seq<Action>, a: Action)
    requires IsRun(cfg, s, acts) && Enabled(After(cfg, s, acts), a)
    ensures IsRun(cfg, s, acts + [a]) && After(cfg, s, acts + [a]) == Next(cfg, After(cfg, s, acts), a)
    decreases |acts|
  {
    hide Enabled, Next;
    if acts == [] {
      assert [] + [a] == [a] && [a][1..] == [];
      var next := Next(cfg, s, a);
      assert IsRun(cfg, next, []) && After(cfg, next, []) == next;
      assert IsRun(cfg, s, [a]);
    } else {
      RunOn(cfg, Next(cfg, s, acts[0]), acts[1..], a);
      assert (acts + [a])[1..] == acts[1..] + [a];
    }
  }

  lemma ReachesOn(cfg: Config, s: State, a: Action)
    requires Reached(cfg, s) && Enabled(s, a)
    ensures Reached(cfg, Next(cfg, s, a))
  {
    hide Enabled, Next;
    var acts :| Leads(cfg, acts, s);
    RunOn(cfg, Init, acts, a);
    assert Leads(cfg, acts + [a], Next(cfg, s, a));
  }

  lemma BeganReached(cfg: Config)
    ensures Reached(cfg, Init)
  {
    assert Leads(cfg, [], Init);
  }

  /** Each request draws ids after its own name. */
  predicate Named(s: State) {
    forall j :: j in s.reqs ==>
      && j <= 4 && s.reqs[j].r.input.newDevice == NameOf(j)
      && s.reqs[j].r.input.newSession == NameOf(j) && s.reqs[j].r.input.newCredential == NameOf(j)
  }

  lemma NamesApart(i: nat, j: nat)
    requires i <= 4 && j <= 4 && NameOf(i) == NameOf(j)
    ensures i == j
  {
    var names := ["start", "verify", "pin", "slow", "wrong"];
    assert |names[0]| == 5 && |names[1]| == 6 && |names[2]| == 3 && |names[3]| == 4 && |names[4]| == 5;
    assert names[0][0] != names[4][0];
  }

  /** Request `id` is here, asked this at this reading, and waits at this statement. */
  predicate At(who: Cast, s: State, id: nat, route: Route, pin: string, now: Time, pc: Pc) {
    id in s.reqs && s.reqs[id].r.input == Ask(who, route, id, pin) && s.reqs[id].r.now == now && s.reqs[id].r.pc == pc
    && !s.reqs[id].r.retried && s.reqs[id].r.budgetDevice.None?
  }

  /** Only request `id` has moved. */
  predicate Moved(s: State, s': State, id: nat) { id in s'.reqs && s'.reqs == s.reqs[id := s'.reqs[id]] }

  lemma Arrives(cfg: Config, who: Cast, s: State, id: nat, route: Route, pin: string, now: Time) returns (s': State)
    requires Reached(cfg, s) && Named(s) && id <= 4 && id !in s.reqs
    requires NameOf(id) !in s.tables.devices && NameOf(id) !in s.minted && NameOf(id) !in s.tables.credentials
    ensures Reached(cfg, s') && Named(s') && Moved(s, s', id) && s'.tables == s.tables && s'.minted == s.minted
    ensures s'.reqs[id].r == Begin(cfg, Ask(who, route, id, pin), now)
  {
    hide Reached;
    var input := Ask(who, route, id, pin);
    forall j | j in s.reqs ensures NameOf(j) != NameOf(id) {
      if NameOf(j) == NameOf(id) { NamesApart(j, id); }
    }
    ReachesOn(cfg, s, Arrive(id, input, now));
    s' := Next(cfg, s, Arrive(id, input, now));
    BeginsAs(cfg, input, now);
  }

  lemma BeginsAs(cfg: Config, input: Input, now: Time)
    ensures Begin(cfg, input, now).input == input
  {}

  /** A request answered by the database: where it stands next. */
  lemma Answered(cfg: Config, s: State, id: nat, st: Statement) returns (s': State)
    requires Reached(cfg, s) && Named(s) && Waiting(s, id) && !s.reqs[id].r.retried && Emit(cfg, s.reqs[id].r) == Db(st)
    ensures Reached(cfg, s') && Named(s') && s'.minted == s.minted && Moved(s, s', id)
    ensures s'.tables == Exec(s.tables, st).0 && s'.reqs[id].r == ResumeDb(cfg, s.reqs[id].r, Exec(s.tables, st).1)
  {
    hide Reached, Exec, Emit, ResumeDb;
    ReachesOn(cfg, s, Land(id, Committed, true));
    s' := Next(cfg, s, Land(id, Committed, true));
    assert s.reqs[id].r.(retried := false) == s.reqs[id].r;
  }

  /** Answered by the session store. */
  lemma AnsweredElsewhere(cfg: Config, s: State, id: nat, c: Call) returns (s': State)
    requires Reached(cfg, s) && Named(s) && Waiting(s, id) && Emit(cfg, s.reqs[id].r) == c && !c.Db?
    ensures Reached(cfg, s') && Named(s') && Moved(s, s', id) && s'.tables == s.tables
    ensures s'.minted == if c.MintSession? then s.minted[c.sid := c.session] else s.minted
    ensures s'.reqs[id].r == AfterOther(cfg, s.reqs[id].r, c, SessionFound(s, c, true), true)
  {
    hide Reached, Emit, AfterOther, SessionFound, LandDb, FreshIds;
    ReachesOn(cfg, s, Land(id, Committed, true));
    s' := Next(cfg, s, Land(id, Committed, true));
  }

  // ----- the code -----

  lemma CodeIsSent(cfg: Config, who: Cast) returns (s: State)
    requires Plain(cfg)
    ensures Reached(cfg, s) && Named(s) && s.reqs.Keys == {0} && s.minted == map[]
    ensures s.tables.codes == map[who.email := IssuedCode(cfg, who)] && FailuresOfEmail(who.email) !in s.tables.limits
    ensures s.tables.devices == map[] && s.tables.credentials == map[] && s.tables.guards == map[]
  {
    hide Reached, Named, Exec, Emit, Begin, At;
    BeganReached(cfg);
    assert Named(Init) by { NoneNamed(); }
    var s0 := Arrives(cfg, who, Init, 0, EmailStart, "", 0);
    StartsAt(cfg, who, s0);
    var s1 := BudgetRead(cfg, who, s0);
    var s2 := Cooled(cfg, who, s1);
    var s3 := Capped(cfg, who, s2);
    s := CodePut(cfg, who, s3);
  }

  lemma NoneNamed()
    ensures Named(Init)
  {}

  function IssuedCode(cfg: Config, who: Cast): CodeRow {
    var keys, ttl := cfg.ring.current, cfg.codeTtlMs;
    CodeRow(CodeHash(keys.secret, who.email, "123456"), keys.keyId, 0, ttl, ttl, 0)
  }

  lemma StartsAt(cfg: Config, who: Cast, s: State)
    requires Plain(cfg) && 0 in s.reqs && s.reqs[0].r == Begin(cfg, Ask(who, EmailStart, 0, ""), 0)
    ensures At(who, s, 0, EmailStart, "", 0, Starting(StartBudget))
  {}

  lemma BudgetRead(cfg: Config, who: Cast, s: State) returns (s': State)
    requires Plain(cfg) && Reached(cfg, s) && Named(s) && At(who, s, 0, EmailStart, "", 0, Starting(StartBudget))
    requires s.tables == EmptyTables
    ensures Reached(cfg, s') && Named(s') && s'.minted == s.minted && Moved(s, s', 0) && s'.tables == s.tables
    ensures At(who, s', 0, EmailStart, "", 0, Starting(StartCooldown))
  {
    hide Reached, Named;
    s' := Answered(cfg, s, 0, Statement.ReadRateLimit(FailuresOfEmail(who.email), cfg.failureWindowMs, 0));
  }

  lemma Cooled(cfg: Config, who: Cast, s: State) returns (s': State)
    requires Plain(cfg) && Reached(cfg, s) && Named(s) && At(who, s, 0, EmailStart, "", 0, Starting(StartCooldown))
    requires s.tables == EmptyTables
    ensures Reached(cfg, s') && Named(s') && s'.minted == s.minted && Moved(s, s', 0)
    ensures s'.tables.limits.Keys == {CooldownOfEmail(who.email)} && s'.tables == EmptyTables.(limits := s'.tables.limits)
    ensures At(who, s', 0, EmailStart, "", 0, Starting(StartHourly))
  {
    hide Reached, Named;
    s' := Answered(cfg, s, 0, Statement.HitRateLimit(CooldownOfEmail(who.email), cfg.cooldownMs, 0));
  }

  lemma Capped(cfg: Config, who: Cast, s: State) returns (s': State)
    requires Plain(cfg) && Reached(cfg, s) && Named(s) && At(who, s, 0, EmailStart, "", 0, Starting(StartHourly))
    requires s.tables.limits.Keys == {CooldownOfEmail(who.email)} && s.tables == EmptyTables.(limits := s.tables.limits)
    ensures Reached(cfg, s') && Named(s') && s'.minted == s.minted && Moved(s, s', 0)
    ensures FailuresOfEmail(who.email) !in s'.tables.limits && s'.tables == EmptyTables.(limits := s'.tables.limits)
    ensures At(who, s', 0, EmailStart, "", 0, Starting(StartPut))
  {
    hide Reached, Named;
    s' := Answered(cfg, s, 0, Statement.HitRateLimit(SendsToEmail(who.email), HOUR_MS, 0));
  }

  lemma CodePut(cfg: Config, who: Cast, s: State) returns (s': State)
    requires Plain(cfg) && Reached(cfg, s) && Named(s) && At(who, s, 0, EmailStart, "", 0, Starting(StartPut))
    requires s.tables == EmptyTables.(limits := s.tables.limits)
    ensures Reached(cfg, s') && Named(s') && s'.minted == s.minted && Moved(s, s', 0)
    ensures s'.tables == s.tables.(codes := map[who.email := IssuedCode(cfg, who)])
  {
    hide Reached, Named;
    var keys, ttl := cfg.ring.current, cfg.codeTtlMs;
    var hash := CodeHash(keys.secret, who.email, "123456");
    s' := Answered(cfg, s, 0, PutEmailCode(CodeIssue(who.email, hash, keys.keyId, ttl, 0, ttl)));
  }

  // ----- the device -----

  function DeviceOf(cfg: Config, who: Cast): DeviceRow {
    DeviceRow("a", who.email, "hash", 0, 0, cfg.deviceIdleMs, cfg.deviceAbsoluteMs, None)
  }

  const SESSION := Session("a", Some(0), Some("verify"))

  lemma DeviceIsTrusted(cfg: Config, who: Cast) returns (s: State)
    requires Plain(cfg)
    ensures Reached(cfg, s) && Named(s) && s.reqs.Keys == {0, 1} && s.minted == map["verify" := SESSION]
    ensures s.tables.devices == map["verify" := DeviceOf(cfg, who)]
    ensures s.tables.credentials == map[] && s.tables.guards == map[]
  {
    hide Reached, Named, Exec, Emit, Begin, At, IssuedCode, DeviceOf;
    var s0 := CodeIsSent(cfg, who);
    var s1 := Arrives(cfg, who, s0, 1, EmailVerify, "", 0);
    VerifiesAt(cfg, who, s1);
    var s2 := Reserved(cfg, who, s1);
    var s3 := Tried(cfg, who, s2);
    var s4 := Consumed(cfg, who, s3);
    var s5 := Refunds(cfg, who, s4);
    var s6 := Unlocked(cfg, who, s5);
    var s7 := Registered(cfg, who, s6);
    var s8 := Minted(cfg, who, s7);
    s := s8;
  }

  lemma VerifiesAt(cfg: Config, who: Cast, s: State)
    requires Plain(cfg) && 1 in s.reqs && s.reqs[1].r == Begin(cfg, Ask(who, EmailVerify, 1, ""), 0)
    ensures At(who, s, 1, EmailVerify, "", 0, Gating(VerifyReserve))
  {}

  /** The verification's tables but for the limits. */
  predicate SameBut(s: State, s': State) { s'.minted == s.minted && s'.tables == s.tables.(limits := s'.tables.limits) }

  lemma Reserved(cfg: Config, who: Cast, s: State) returns (s': State)
    requires Plain(cfg) && Reached(cfg, s) && Named(s) && At(who, s, 1, EmailVerify, "", 0, Gating(VerifyReserve))
    requires FailuresOfEmail(who.email) !in s.tables.limits
    ensures Reached(cfg, s') && Named(s') && Moved(s, s', 1) && SameBut(s, s')
    ensures At(who, s', 1, EmailVerify, "", 0, Guessing(VerifyAttempt))
  {
    hide Reached, Named;
    s' := Answered(cfg, s, 1,
      Statement.ReserveRateLimit(FailuresOfEmail(who.email), cfg.failureWindowMs, 0, cfg.maxFailuresPerEmail));
  }

  lemma Tried(cfg: Config, who: Cast, s: State) returns (s': State)
    requires Plain(cfg) && Reached(cfg, s) && Named(s) && At(who, s, 1, EmailVerify, "", 0, Guessing(VerifyAttempt))
    requires s.tables.codes == map[who.email := IssuedCode(cfg, who)]
    ensures Reached(cfg, s') && Named(s') && Moved(s, s', 1) && s'.minted == s.minted
    ensures s'.tables == s.tables.(codes := map[who.email := IssuedCode(cfg, who).(attempts := 1)])
    ensures At(who, s', 1, EmailVerify, "", 0, Guessing(VerifyConsume))
    ensures s'.reqs[1].r.matched == Some(IssuedCode(cfg, who).codeHash)
  {
    hide Reached, Named;
    s' := Answered(cfg, s, 1, ReserveEmailCodeAttempt(who.email, 0, cfg.codeMaxAttempts));
  }

  lemma Consumed(cfg: Config, who: Cast, s: State) returns (s': State)
    requires Plain(cfg) && Reached(cfg, s) && Named(s) && At(who, s, 1, EmailVerify, "", 0, Guessing(VerifyConsume))
    requires s.reqs[1].r.matched == Some(IssuedCode(cfg, who).codeHash)
    requires s.tables.codes == map[who.email := IssuedCode(cfg, who).(attempts := 1)]
    ensures Reached(cfg, s') && Named(s') && Moved(s, s', 1) && s'.minted == s.minted
    ensures s'.tables == s.tables.(codes := s'.tables.codes)
    ensures At(who, s', 1, EmailVerify, "", 0, Guessing(VerifyRefund)) && s'.reqs[1].r.account == "a"
  {
    hide Reached, Named;
    s' := Answered(cfg, s, 1, ConsumeEmailCode(who.email, IssuedCode(cfg, who).codeHash));
  }

  lemma Refunds(cfg: Config, who: Cast, s: State) returns (s': State)
    requires Plain(cfg) && Reached(cfg, s) && Named(s) && At(who, s, 1, EmailVerify, "", 0, Guessing(VerifyRefund))
    requires s.reqs[1].r.account == "a"
    ensures Reached(cfg, s') && Named(s') && Moved(s, s', 1) && SameBut(s, s')
    ensures At(who, s', 1, EmailVerify, "", 0, Entering(VerifyUnlock)) && s'.reqs[1].r.account == "a"
  {
    hide Reached, Named;
    s' := Answered(cfg, s, 1, Statement.RefundRateLimit(FailuresOfEmail(who.email), s.reqs[1].r.slotStart));
  }

  lemma Unlocked(cfg: Config, who: Cast, s: State) returns (s': State)
    requires Plain(cfg) && Reached(cfg, s) && Named(s) && At(who, s, 1, EmailVerify, "", 0, Entering(VerifyUnlock))
    requires s.reqs[1].r.account == "a" && s.tables.guards == map[]
    ensures Reached(cfg, s') && Named(s') && Moved(s, s', 1) && s'.minted == s.minted && s'.tables == s.tables
    ensures At(who, s', 1, EmailVerify, "", 0, Entering(VerifyRegister)) && s'.reqs[1].r.account == "a"
  {
    hide Reached, Named;
    s' := Answered(cfg, s, 1, ResetLoginGuard("a", 0));
  }

  lemma Registered(cfg: Config, who: Cast, s: State) returns (s': State)
    requires Plain(cfg) && Reached(cfg, s) && Named(s) && At(who, s, 1, EmailVerify, "", 0, Entering(VerifyRegister))
    requires s.reqs[1].r.account == "a" && s.tables.devices == map[]
    ensures Reached(cfg, s') && Named(s') && Moved(s, s', 1) && s'.minted == s.minted
    ensures s'.tables == s.tables.(devices := map["verify" := DeviceOf(cfg, who)])
    ensures At(who, s', 1, EmailVerify, "", 0, Entering(VerifyMint))
    ensures s'.reqs[1].r.account == "a" && s'.reqs[1].r.device == Some("verify")
  {
    hide Reached, Named;
    assert NewDeviceRow(cfg, s.reqs[1].r) == DeviceOf(cfg, who);
    s' := Answered(cfg, s, 1, CreateDevice("verify", DeviceOf(cfg, who)));
  }

  lemma Minted(cfg: Config, who: Cast, s: State) returns (s': State)
    requires Plain(cfg) && Reached(cfg, s) && Named(s) && At(who, s, 1, EmailVerify, "", 0, Entering(VerifyMint))
    requires s.reqs[1].r.account == "a" && s.reqs[1].r.device == Some("verify") && s.minted == map[]
    ensures Reached(cfg, s') && Named(s') && Moved(s, s', 1) && s'.tables == s.tables
    ensures s'.minted == map["verify" := SESSION]
  {
    hide Reached, Named;
    s' := AnsweredElsewhere(cfg, s, 1, MintSession("verify", SESSION));
  }

  // ----- the PIN -----

  function PinOf(cfg: Config, who: Cast): CredentialRow {
    NewPinRow(NewPin("pin", "a", Enroll(cfg.ring, cfg.pinIterations, who.right, "salt"), 0))
  }

  /** A trusted device, a PIN, and a session on the device. */
  predicate SetUp(cfg: Config, who: Cast, s: State) {
    && s.tables.devices == map["verify" := DeviceOf(cfg, who)] && s.tables.credentials == map["pin" := PinOf(cfg, who)]
    && s.minted == map["verify" := SESSION]
  }

  lemma PinIsSet(cfg: Config, who: Cast) returns (s: State)
    requires Plain(cfg)
    ensures Reached(cfg, s) && Named(s) && s.reqs.Keys == {0, 1, 2} && SetUp(cfg, who, s) && s.tables.guards == map[]
  {
    hide Reached, Named, Exec, Emit, Begin, At, DeviceOf, PinOf;
    var s0 := DeviceIsTrusted(cfg, who);
    assert NameOf(2) == "pin" && |"verify"| == 6 && |"pin"| == 3;
    var s1 := Arrives(cfg, who, s0, 2, Route.SetPin, who.right, 0);
    SetsAt(cfg, who, s1);
    var s2 := Gated(cfg, who, s1);
    s := Stored(cfg, who, s2);
  }

  lemma SetsAt(cfg: Config, who: Cast, s: State)
    requires Plain(cfg) && 2 in s.reqs && s.reqs[2].r == Begin(cfg, Ask(who, Route.SetPin, 2, who.right), 0)
    ensures At(who, s, 2, Route.SetPin, who.right, 0, SettingPin(PinSession))
  {}

  lemma Gated(cfg: Config, who: Cast, s: State) returns (s': State)
    requires Plain(cfg) && Reached(cfg, s) && Named(s)
    requires At(who, s, 2, Route.SetPin, who.right, 0, SettingPin(PinSession))
    requires s.minted == map["verify" := SESSION]
    ensures Reached(cfg, s') && Named(s') && Moved(s, s', 2) && s'.tables == s.tables && s'.minted == s.minted
    ensures At(who, s', 2, Route.SetPin, who.right, 0, SettingPin(PinReplace))
    ensures s'.reqs[2].r.account == "a" && s'.reqs[2].r.device == Some("verify")
  {
    hide Reached, Named;
    s' := AnsweredElsewhere(cfg, s, 2, ReadSession("verify"));
  }

  lemma Stored(cfg: Config, who: Cast, s: State) returns (s': State)
    requires Plain(cfg) && Reached(cfg, s) && Named(s)
    requires At(who, s, 2, Route.SetPin, who.right, 0, SettingPin(PinReplace))
    requires s.reqs[2].r.account == "a" && s.reqs[2].r.device == Some("verify")
    requires s.tables.credentials == map[] && s.tables.guards == map[]
    ensures Reached(cfg, s') && Named(s') && Moved(s, s', 2) && s'.minted == s.minted
    ensures s'.tables == s.tables.(credentials := map["pin" := PinOf(cfg, who)])
  {
    hide Reached, Named;
    var pin := NewPin("pin", "a", Enroll(cfg.ring, cfg.pinIterations, who.right, "salt"), 0);
    var others := if cfg.revokeOthersOnChange then Some(Some("verify")) else None;
    assert LivePins(s.tables.credentials, "a") == {};
    assert RevokePins(s.tables.credentials, "a", 0) == map[];
    s' := Answered(cfg, s, 2, ReplaceCredential(pin, true, others));
  }

  // ----- a login, up to its attempt -----

  function GuardsAfter(guards: map<AccountId, GuardRow>, now: Time): map<AccountId, GuardRow> {
    guards["a" := AttemptedRow(guards, "a", now)]
  }

  /** The attempt is taken and the digits compared. */
  lemma Attempts(cfg: Config, who: Cast, s: State, id: nat, pin: string, now: Time) returns (s': State)
    requires Plain(cfg) && Reached(cfg, s) && Named(s) && SetUp(cfg, who, s) && id !in s.reqs && id in {3, 4}
    requires 0 <= now < cfg.deviceIdleMs && CanAttempt(s.tables.guards, "a", cfg.pinMaxAttempts)
    ensures Reached(cfg, s') && Named(s') && SetUp(cfg, who, s') && Moved(s, s', id)
    ensures s'.tables.guards == GuardsAfter(s.tables.guards, now) && s'.reqs[id].r.account == "a"
    ensures pin == who.right ==> At(who, s', id, PinLogin, pin, now, LoggingIn(LoginReset))
    ensures pin != who.right && GuardsAfter(s.tables.guards, now)["a"].failedCount >= cfg.pinMaxAttempts ==>
      At(who, s', id, PinLogin, pin, now, LoggingIn(LoginLock))
  {
    hide Reached, Named, Exec, Emit, Begin, At, DeviceOf, PinOf, CanAttempt, GuardsAfter;
    var s1 := Presented(cfg, who, s, id, pin, now);
    s' := Compared(cfg, who, s1, id, pin, now);
  }

  /** The device and its PIN are read. */
  lemma Presented(cfg: Config, who: Cast, s: State, id: nat, pin: string, now: Time) returns (s': State)
    requires Plain(cfg) && Reached(cfg, s) && Named(s) && SetUp(cfg, who, s) && id !in s.reqs && id in {3, 4}
    requires 0 <= now < cfg.deviceIdleMs
    ensures Reached(cfg, s') && Named(s') && Moved(s, s', id) && s'.tables == s.tables && s'.minted == s.minted
    ensures At(who, s', id, PinLogin, pin, now, LoggingIn(LoginReserve))
    ensures s'.reqs[id].r.account == "a" && s'.reqs[id].r.stored == PinOf(cfg, who).material
  {
    hide Reached, Named, Exec, Emit, Begin, At, DeviceOf, PinOf;
    assert NameOf(id) !in {"verify", "pin"} by { LoginNames(id); }
    var s0 := Arrives(cfg, who, s, id, PinLogin, pin, now);
    LogsInAt(cfg, who, s0, id, pin, now);
    var s1 := DeviceRead(cfg, who, s0, id, pin, now);
    s' := PinRead(cfg, who, s1, id, pin, now);
  }

  lemma LoginNames(id: nat)
    requires id in {3, 4}
    ensures NameOf(id) != "verify" && NameOf(id) != "pin"
  {
    assert |"verify"| == 6 && |"pin"| == 3 && |NameOf(id)| < 6 && |NameOf(id)| > 3;
  }

  lemma LogsInAt(cfg: Config, who: Cast, s: State, id: nat, pin: string, now: Time)
    requires Plain(cfg) && id in s.reqs && s.reqs[id].r == Begin(cfg, Ask(who, PinLogin, id, pin), now)
    ensures At(who, s, id, PinLogin, pin, now, LoggingIn(LoginDevice))
  {}

  lemma DeviceRead(cfg: Config, who: Cast, s: State, id: nat, pin: string, now: Time) returns (s': State)
    requires Plain(cfg) && Reached(cfg, s) && Named(s) && At(who, s, id, PinLogin, pin, now, LoggingIn(LoginDevice))
    requires s.tables.devices == map["verify" := DeviceOf(cfg, who)] && 0 <= now < cfg.deviceIdleMs
    ensures Reached(cfg, s') && Named(s') && Moved(s, s', id) && s'.tables == s.tables && s'.minted == s.minted
    ensures At(who, s', id, PinLogin, pin, now, LoggingIn(LoginCredential)) && s'.reqs[id].r.account == "a"
  {
    hide Reached, Named;
    s' := Answered(cfg, s, id, FindDevice("verify"));
  }

  lemma PinRead(cfg: Config, who: Cast, s: State, id: nat, pin: string, now: Time) returns (s': State)
    requires Plain(cfg) && Reached(cfg, s) && Named(s) && At(who, s, id, PinLogin, pin, now, LoggingIn(LoginCredential))
    requires s.reqs[id].r.account == "a" && s.tables.credentials == map["pin" := PinOf(cfg, who)]
    ensures Reached(cfg, s') && Named(s') && Moved(s, s', id) && s'.tables == s.tables && s'.minted == s.minted
    ensures At(who, s', id, PinLogin, pin, now, LoggingIn(LoginReserve))
    ensures s'.reqs[id].r.account == "a" && s'.reqs[id].r.stored == PinOf(cfg, who).material
  {
    hide Reached, Named;
    assert "pin" in LivePins(s.tables.credentials, "a");
    s' := Answered(cfg, s, id, GetActivePin("a"));
  }

  lemma Compared(cfg: Config, who: Cast, s: State, id: nat, pin: string, now: Time) returns (s': State)
    requires Plain(cfg) && Reached(cfg, s) && Named(s) && At(who, s, id, PinLogin, pin, now, LoggingIn(LoginReserve))
    requires s.reqs[id].r.account == "a" && s.reqs[id].r.stored == PinOf(cfg, who).material
    requires CanAttempt(s.tables.guards, "a", cfg.pinMaxAttempts)
    ensures Reached(cfg, s') && Named(s') && Moved(s, s', id) && s'.minted == s.minted
    ensures s'.tables == s.tables.(guards := GuardsAfter(s.tables.guards, now)) && s'.reqs[id].r.account == "a"
    ensures pin == who.right ==> At(who, s', id, PinLogin, pin, now, LoggingIn(LoginReset))
    ensures pin != who.right && GuardsAfter(s.tables.guards, now)["a"].failedCount >= cfg.pinMaxAttempts ==>
      At(who, s', id, PinLogin, pin, now, LoggingIn(LoginLock))
  {
    hide Reached, Named;
    s' := Answered(cfg, s, id, ReserveLoginAttempt("a", cfg.pinMaxAttempts, now));
  }

  // ----- a lock cleared by a PIN in flight -----

  /**
   * Two attempts are allowed. The right digits take the first and are held up
   * before their reset; wrong ones take the second and lock the account; then
   * the reset lands.
   */
  lemma LockClearedInFlight(cfg: Config, who: Cast) returns (s: State)
    requires Plain(cfg) && cfg.pinMaxAttempts == 2 && who.right != who.wrong
    ensures Reached(cfg, s) && Enabled(s, Land(3, Committed, true))
    ensures "a" in s.tables.guards && s.tables.guards["a"] == GuardRow(2, Some(0), 0)
    ensures Spent(cfg, s, "a") && !NoneClearing(s, "a") && Clears(s, Land(3, Committed, true), "a")
    ensures var guards := Next(cfg, s, Land(3, Committed, true)).tables.guards;
      "a" in guards && guards["a"] == GuardRow(0, None, 0)
  {
    hide Reached, Named, SetUp;
    var s0 := PinIsSet(cfg, who);
    var s1 := Attempts(cfg, who, s0, 3, who.right, 0);
    var s2 := Attempts(cfg, who, s1, 4, who.wrong, 0);
    s := Locks(cfg, who, s2);
    ResetsHere(cfg, who, s, 3, 0);
  }

  lemma Locks(cfg: Config, who: Cast, s: State) returns (s': State)
    requires Plain(cfg) && cfg.pinMaxAttempts == 2 && Reached(cfg, s) && Named(s)
    requires At(who, s, 4, PinLogin, who.wrong, 0, LoggingIn(LoginLock)) && s.reqs[4].r.account == "a"
    requires "a" in s.tables.guards && s.tables.guards["a"] == GuardRow(2, None, 0)
    ensures Reached(cfg, s') && Named(s') && Moved(s, s', 4)
    ensures "a" in s'.tables.guards && s'.tables.guards["a"] == GuardRow(2, Some(0), 0)
  {
    hide Reached, Named;
    s' := Answered(cfg, s, 4, LockAccount("a", cfg.pinMaxAttempts, 0));
  }

  lemma ResetsHere(cfg: Config, who: Cast, s: State, id: nat, now: Time)
    requires At(who, s, id, PinLogin, who.right, now, LoggingIn(LoginReset))
    requires s.reqs[id].r.account == "a" && "a" in s.tables.guards
    ensures Enabled(s, Land(id, Committed, true)) && "a" in Next(cfg, s, Land(id, Committed, true)).tables.guards
    ensures Next(cfg, s, Land(id, Committed, true)).tables.guards["a"] == GuardRow(0, None, now)
  {
    assert Emit(cfg, s.reqs[id].r) == Db(ResetLoginGuard("a", now));
  }

  // ----- a device brought back -----

  /**
   * A login reads its clock one millisecond before the device's idle expiry
   * and is held up before its touch. At the expiry the device's session is
   * dead; the touch lands, and at that same moment it is alive.
   */
  lemma StaleTouchRevives(cfg: Config, who: Cast) returns (s: State)
    requires Plain(cfg) && 1 < cfg.deviceIdleMs < cfg.deviceAbsoluteMs
    ensures Reached(cfg, s) && Enabled(s, Land(3, Committed, true)) && "verify" in s.minted
    ensures var at := cfg.deviceIdleMs; var next := Next(cfg, s, Land(3, Committed, true));
      && EndedBy(s.tables.devices, "verify", at) && !OverAt(s.tables.devices, "verify", at)
      && BoundGet(Some(s.minted["verify"]), s.tables.devices, at) == BoundAnswer(None, true)
      && BoundGet(Some(next.minted["verify"]), next.tables.devices, at).session == Some(SESSION)
  {
    hide Reached, Named;
    var now := cfg.deviceIdleMs - 1;
    var s0 := PinIsSet(cfg, who);
    var s1 := Attempts(cfg, who, s0, 3, who.right, now);
    var s2 := Reset(cfg, who, s1, now);
    s := Marked(cfg, who, s2, now);
    Revived(cfg, who, s, now);
    hide Next, BoundGet;
    assert s.minted["verify"] == SESSION;
    assert Next(cfg, s, Land(3, Committed, true)).minted == s.minted;
  }

  lemma Reset(cfg: Config, who: Cast, s: State, now: Time) returns (s': State)
    requires Plain(cfg) && Reached(cfg, s) && Named(s) && At(who, s, 3, PinLogin, who.right, now, LoggingIn(LoginReset))
    requires s.reqs[3].r.account == "a"
    ensures Reached(cfg, s') && Named(s') && Moved(s, s', 3) && s'.minted == s.minted
    ensures s'.tables == s.tables.(guards := s'.tables.guards)
    ensures At(who, s', 3, PinLogin, who.right, now, LoggingIn(LoginMark)) && s'.reqs[3].r.account == "a"
  {
    hide Reached, Named;
    s' := Answered(cfg, s, 3, ResetLoginGuard("a", now));
  }

  lemma Marked(cfg: Config, who: Cast, s: State, now: Time) returns (s': State)
    requires Plain(cfg) && Reached(cfg, s) && Named(s) && At(who, s, 3, PinLogin, who.right, now, LoggingIn(LoginMark))
    requires s.reqs[3].r.account == "a"
    ensures Reached(cfg, s') && Named(s') && Moved(s, s', 3) && s'.minted == s.minted
    ensures s'.tables == s.tables.(credentials := s'.tables.credentials)
    ensures At(who, s', 3, PinLogin, who.right, now, LoggingIn(LoginTouch)) && s'.reqs[3].r.account == "a"
  {
    hide Reached, Named;
    s' := Answered(cfg, s, 3, MarkCredentialUsed(s.reqs[3].r.credential, now, s.reqs[3].r.upgraded));
  }

  lemma Revived(cfg: Config, who: Cast, s: State, now: Time)
    requires ValidConfig(cfg) && now == cfg.deviceIdleMs - 1 && 1 < cfg.deviceIdleMs < cfg.deviceAbsoluteMs
    requires At(who, s, 3, PinLogin, who.right, now, LoggingIn(LoginTouch))
    requires s.tables.devices == map["verify" := DeviceOf(cfg, who)] && s.minted == map["verify" := SESSION]
    ensures Enabled(s, Land(3, Committed, true))
    ensures var at := cfg.deviceIdleMs; var next := Next(cfg, s, Land(3, Committed, true));
      && next.minted == s.minted
      && EndedBy(s.tables.devices, "verify", at) && !OverAt(s.tables.devices, "verify", at)
      && BoundGet(Some(SESSION), s.tables.devices, at) == BoundAnswer(None, true)
      && BoundGet(Some(SESSION), next.tables.devices, at).session == Some(SESSION)
  {
    var st := Statement.TouchDevice("verify", now, now + cfg.deviceIdleMs);
    assert Emit(cfg, s.reqs[3].r) == Db(st);
    hide Emit, ResumeDb, Record;
    assert DeviceLive(DeviceOf(cfg, who), now);
    assert Exec(s.tables, st).0.devices["verify"].idleExpiresAt > cfg.deviceIdleMs;
    assert Next(cfg, s, Land(3, Committed, true)).tables == Exec(s.tables, st).0;
  }
}

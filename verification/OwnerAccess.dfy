/**
 * The owner of a live device gets through while the address is under siege:
 * `/email/start` and `/email/verify` draw on the device's own budgets
 * (src/device-auth/index.ts:790-824, 882-935).
 */
module OwnerAccess {
  import opened Basics
  import opened PinCredential
  import opened Tables
  import opened Routes
  import opened Runs
  import opened Provenance
  import opened Devices
  import opened DeviceRuns
  import opened Isolation

  /** The device's failure budget has a slot left at the request's reading. */
  predicate RoomLeft(cfg: Config, t: Tables, now: Time, d: DeviceId) {
    HasRoom(t.limits, FailuresOfDevice(d), cfg.failureWindowMs, now, cfg.maxFailuresPerDevice)
  }

  /** The device's cooldown and hourly limit let one more code be sent. */
  predicate MayCool(cfg: Config, t: Tables, now: Time, d: DeviceId) {
    CountedRow(t.limits, CooldownOfDevice(d), cfg.cooldownMs, now).count <= 1
  }

  predicate MayCount(cfg: Config, t: Tables, now: Time, d: DeviceId) {
    CountedRow(t.limits, SendsToDevice(d), HOUR_MS, now).count <= cfg.sendsPerHour
  }

  /** A code sent now would have attempts left: a resend inherits those used before the deadline. */
  predicate AttemptsLeft(cfg: Config, t: Tables, email: Email, now: Time) {
    KeepsAttempts(t.codes, email, now) ==> t.codes[email].attempts < cfg.codeMaxAttempts
  }

  /** The live code of the address has attempts left and is the one the request submits. */
  predicate MayGuess(cfg: Config, t: Tables, r: Request) {
    && r.input.resolved.Some? && CanTry(t.codes, r.input.email, r.now, cfg.codeMaxAttempts)
    && var row := t.codes[r.input.email]; CodeMatches(cfg, r, ReservedCode(row.codeHash, row.keyId, row.attempts))
  }

  predicate OnDevice(r: Request, d: DeviceId) { r.budgetDevice == Some(d) }

  /** What the owner needs, stage by stage, of the rows outsiders cannot touch. */
  predicate Ready(cfg: Config, t: Tables, e: Entry, d: DeviceId) {
    var r := e.r;
    r.input.presented.Some? && PresentedId(r) == d
    && match r.pc
       case Starting(at) =>
         && (at.StartIp? || at.StartDevice? || OnDevice(r, d))
         && RoomLeft(cfg, t, r.now, d) && AttemptsLeft(cfg, t, r.input.email, r.now)
         && (at.StartPut? || MayCount(cfg, t, r.now, d))
         && (at.StartPut? || at.StartHourly? || MayCool(cfg, t, r.now, d))
       case Gating(at) =>
         && (!at.VerifyReserve? || OnDevice(r, d)) && !at.VerifyFull? && (at.VerifyBreakerRead? ==> cfg.breaker.Some?)
         && RoomLeft(cfg, t, r.now, d) && MayGuess(cfg, t, r)
       case Guessing(at) =>
         && OnDevice(r, d) && r.input.resolved.Some?
         && (match at case VerifyAttempt => MayGuess(cfg, t, r)
                      case VerifyConsume =>
                        r.input.email in t.codes && r.matched == Some(t.codes[r.input.email].codeHash)
                      case VerifyRefund => r.input.resolved == Some(r.account)
                      case _ => false)
       case Entering(at) => r.input.resolved == Some(r.account) && (at.VerifyPassed? ==> cfg.breaker.Some?)
       case Finished(response) => response.CodeSent? && Sent(cfg, t, r) && RoomLeft(cfg, t, r.now, d)
       case _ => false
  }

  /** The code the request drew is the live one, with attempts left and its whole life from the request's reading. */
  predicate Sent(cfg: Config, t: Tables, r: Request) {
    r.input.email in t.codes
    && var row := t.codes[r.input.email];
       && row.codeHash == CodeHash(cfg.ring.current.secret, r.input.email, r.input.code)
       && row.keyId == cfg.ring.current.keyId && row.attempts < cfg.codeMaxAttempts
       && row.expiresAt == r.now + cfg.codeTtlMs
  }

  /** Statements still to answer before the code is sent, or the account unlocked. */
  function Remaining(pc: Pc): nat {
    match pc
    case Starting(at) =>
      (match at case StartIp => 6 case StartDevice => 5 case StartBudget => 4 case StartCooldown => 3
                case StartHourly => 2 case StartPut => 1)
    case Gating(at) => (match at case VerifyIp => 9 case VerifyBreakerRead => 8 case VerifyDevice => 7 case _ => 6)
    case Guessing(at) => (match at case VerifyAttempt => 5 case VerifyConsume => 4 case _ => 3)
    case Entering(at) => (match at case VerifyPassed => 2 case VerifyUnlock => 1 case _ => 0)
    case _ => 0
  }

  /**
   * What the theorem does not promise: the IP limit and the breaker let the
   * owner by, and the device is live when it is looked up.
   */
  predicate Served(cfg: Config, t: Tables, r: Request) {
    match r.pc
    case Starting(at) =>
      && (at.StartIp? ==> IpRoom(t, r, OtpStart, cfg.startsPerIp))
      && (at.StartDevice? ==> PresentsDeviceOfAddress(r, Lookup(t.devices, PresentedId(r))))
    case Gating(at) =>
      && (at.VerifyIp? ==> IpRoom(t, r, OtpVerify, cfg.verifiesPerIp))
      && (at.VerifyBreakerRead? && cfg.breaker.Some? ==>
            !BreakerOpen(cfg.breaker.value, LiveCounts(t.limits, VerifyBreaker, cfg.breaker.value.windowMs, r.now)))
      && (at.VerifyDevice? ==> PresentsDeviceOfAddress(r, Lookup(t.devices, PresentedId(r))))
    case _ => true
  }

  predicate IpRoom(t: Tables, r: Request, action: IpAction, max: nat) {
    CountedRow(t.limits, PerIp(action, if r.input.ip.Some? then r.input.ip.value else ""), HOUR_MS, r.now).count <= max
  }

  // ----- the owner's own steps -----

  /** Each answered statement takes the owner one stage nearer, and spends nothing the next stages need. */
  lemma OwnerAnswer(cfg: Config, t: Tables, e: Entry, st: Statement, d: DeviceId, epoch: nat)
    requires ValidConfig(cfg) && Ready(cfg, t, e, d) && Remaining(e.r.pc) > 0 && Served(cfg, t, e.r)
    requires Emit(cfg, e.r) == Db(st)
    ensures var (t', result) := Exec(t, st);
      var e' := Entry(ResumeDb(cfg, e.r, result), Record(e.t, st, result, epoch));
      && Ready(cfg, t', e', d) && Remaining(e'.r.pc) < Remaining(e.r.pc)
      && (!e.r.pc.Starting? && e.r.pc != Entering(VerifyUnlock) ==> Remaining(e'.r.pc) > 0)
  {
    match e.r.pc
    case Starting(at) => OwnerStart(cfg, t, e, at, st, d, epoch);
    case Gating(at) => OwnerGate(cfg, t, e, at, st, d, epoch);
    case Guessing(at) => OwnerGuess(cfg, t, e, at, st, d, epoch);
    case Entering(at) => OwnerEnter(cfg, t, e, at, st, d, epoch);
  }

  lemma OwnerStart(cfg: Config, t: Tables, e: Entry, at: StartPc, st: Statement, d: DeviceId, epoch: nat)
    requires ValidConfig(cfg) && Ready(cfg, t, e, d) && Served(cfg, t, e.r)
    requires e.r.pc == Starting(at) && EmitStart(cfg, e.r, at) == Db(st)
    ensures var (t', result) := Exec(t, st);
      var e' := Entry(ResumeStart(cfg, e.r, at, result), Record(e.t, st, result, epoch));
      Ready(cfg, t', e', d) && Remaining(e'.r.pc) < Remaining(e.r.pc)
  {}

  lemma OwnerGate(cfg: Config, t: Tables, e: Entry, at: GatePc, st: Statement, d: DeviceId, epoch: nat)
    requires Ready(cfg, t, e, d) && Served(cfg, t, e.r) && e.r.pc == Gating(at) && EmitGate(cfg, e.r, at) == Db(st)
    ensures var (t', result) := Exec(t, st);
      var e' := Entry(ResumeGate(cfg, e.r, at, result), Record(e.t, st, result, epoch));
      Ready(cfg, t', e', d) && 0 < Remaining(e'.r.pc) < Remaining(e.r.pc)
  {}

  lemma OwnerGuess(cfg: Config, t: Tables, e: Entry, at: GuessPc, st: Statement, d: DeviceId, epoch: nat)
    requires Ready(cfg, t, e, d) && e.r.pc == Guessing(at) && EmitGuess(cfg, e.r, at) == Db(st)
    ensures var (t', result) := Exec(t, st);
      var e' := Entry(ResumeGuess(cfg, e.r, at, result), Record(e.t, st, result, epoch));
      Ready(cfg, t', e', d) && 0 < Remaining(e'.r.pc) < Remaining(e.r.pc)
  {}

  lemma OwnerEnter(cfg: Config, t: Tables, e: Entry, at: EnterPc, st: Statement, d: DeviceId, epoch: nat)
    requires Ready(cfg, t, e, d) && e.r.pc == Entering(at) && Remaining(e.r.pc) > 0 && EmitEnter(cfg, e.r, at) == Db(st)
    ensures var (t', result) := Exec(t, st);
      var e' := Entry(ResumeEnter(e.r, at, result), Record(e.t, st, result, epoch));
      Ready(cfg, t', e', d) && Remaining(e'.r.pc) < Remaining(e.r.pc) && (at.VerifyPassed? ==> Remaining(e'.r.pc) > 0)
  {}

  /** A statement that does not count on `b`. */
  predicate LeavesRow(st: Statement, b: Bucket) {
    match st
    case HitRateLimit(c, _, _) => c != b
    case ReserveRateLimit(c, _, _, _) => c != b
    case RefundRateLimit(c, _) => c != b
    case HitCircuitBreaker(c, _, _, _) => c != b
    case Cleanup(_, _) => false
    case _ => true
  }

  lemma RowLeft(t: Tables, st: Statement, b: Bucket)
    requires LeavesRow(st, b)
    ensures SameAt(t.limits, Exec(t, st).0.limits, b)
  {}

  /** The owner always has a statement to send, and it is not for the address's own budget. */
  lemma OwnerCalls(cfg: Config, t: Tables, e: Entry, d: DeviceId)
    requires Ready(cfg, t, e, d) && Remaining(e.r.pc) > 0
    ensures Emit(cfg, e.r).Db? && !e.r.pc.Finished? && !e.r.pc.Crashed?
    ensures LeavesRow(Emit(cfg, e.r).statement, FailuresOfEmail(e.r.input.email))
  {}

  lemma ReadyStays(cfg: Config, t: Tables, t': Tables, e: Entry, d: DeviceId)
    requires Ready(cfg, t, e, d) && Undisturbed(t, t', e.r.input.email, d)
    ensures Ready(cfg, t', e, d)
  {}

  lemma ReadyRetried(cfg: Config, t: Tables, e: Entry, d: DeviceId)
    requires Ready(cfg, t, e, d)
    ensures Ready(cfg, t, e.(r := e.r.(retried := false)), d)
    ensures Served(cfg, t, e.r) ==> Served(cfg, t, e.r.(retried := false))
  {}

  lemma OwnerLand(cfg: Config, s: State, owner: nat, visible: bool, d: DeviceId)
    requires ValidConfig(cfg) && owner in s.reqs && Ready(cfg, s.tables, s.reqs[owner], d)
    requires Remaining(s.reqs[owner].r.pc) > 0 && Served(cfg, s.tables, s.reqs[owner].r)
    ensures Waiting(s, owner)
    ensures var pc := s.reqs[owner].r.pc; var s' := Next(cfg, s, Land(owner, Committed, visible));
      && owner in s'.reqs && Ready(cfg, s'.tables, s'.reqs[owner], d)
      && Remaining(s'.reqs[owner].r.pc) < Remaining(pc)
      && (!pc.Starting? && pc != Entering(VerifyUnlock) ==> Remaining(s'.reqs[owner].r.pc) > 0)
  {
    var e := s.reqs[owner];
    OwnerCalls(cfg, s.tables, e, d);
    ReadyRetried(cfg, s.tables, e, d);
    SameCall(cfg, e.r);
    OwnerAnswer(cfg, s.tables, e.(r := e.r.(retried := false)), Emit(cfg, e.r).statement, d, EpochOf(s, e.r.input.email));
  }

  lemma OwnerSpares(cfg: Config, s: State, owner: nat, visible: bool, d: DeviceId, w: Time)
    requires owner in s.reqs && Ready(cfg, s.tables, s.reqs[owner], d) && Remaining(s.reqs[owner].r.pc) > 0
    requires BudgetSpent(cfg, s.tables, s.reqs[owner].r.input.email, w)
    ensures var s' := Next(cfg, s, Land(owner, Committed, visible));
      && BudgetSpent(cfg, s'.tables, s.reqs[owner].r.input.email, w)
      && owner in s'.reqs && s'.reqs == s.reqs[owner := s'.reqs[owner]]
      && s'.reqs[owner].r.input == s.reqs[owner].r.input
  {
    OwnerCalls(cfg, s.tables, s.reqs[owner], d);
    RowLeft(s.tables, Emit(cfg, s.reqs[owner].r).statement, FailuresOfEmail(s.reqs[owner].r.input.email));
  }

  /** A run of strangers' steps and of the owner's landings, each answered and served, until the owner is done. */
  ghost predicate Siege(cfg: Config, s: State, acts: seq<Action>, owner: nat, email: Email, w: Time)
    requires IsRun(cfg, s, acts)
    decreases |acts|
  {
    acts == [] || (SiegeStep(cfg, s, acts[0], owner, email, w)
                   && Siege(cfg, Next(cfg, s, acts[0]), acts[1..], owner, email, w))
  }

  predicate OwnerMoves(a: Action, owner: nat) { a.Land? && a.id == owner }

  predicate SiegeStep(cfg: Config, s: State, a: Action, owner: nat, email: Email, w: Time) {
    if OwnerMoves(a, owner) then
      a.fate.Committed? && owner in s.reqs && Served(cfg, s.tables, s.reqs[owner].r) && Remaining(s.reqs[owner].r.pc) > 0
    else Stranger(cfg, s, a, email, w) && (a.Arrive? ==> a.id != owner)
  }

  function Landings(acts: seq<Action>, owner: nat): nat {
    if acts == [] then 0 else (if OwnerMoves(acts[0], owner) then 1 else 0) + Landings(acts[1..], owner)
  }

  ghost predicate OwnerOn(cfg: Config, s: State, owner: nat, email: Email, d: DeviceId, w: Time) {
    && Besieged(cfg, s, owner, email, d, w)
    && owner in s.reqs && s.reqs[owner].r.input.email == email && Ready(cfg, s.tables, s.reqs[owner], d)
  }

  lemma OwnerTurn(cfg: Config, s: State, a: Action, owner: nat, email: Email, d: DeviceId, w: Time)
    requires ValidConfig(cfg) && OwnerOn(cfg, s, owner, email, d, w) && Enabled(s, a)
    requires OwnerMoves(a, owner) && SiegeStep(cfg, s, a, owner, email, w)
    ensures OwnerOn(cfg, Next(cfg, s, a), owner, email, d, w)
    ensures var pc, pc' := s.reqs[owner].r.pc, Next(cfg, s, a).reqs[owner].r.pc;
      Remaining(pc') < Remaining(pc) && (!pc.Starting? && pc != Entering(VerifyUnlock) ==> Remaining(pc') > 0)
  {
    var s' := Next(cfg, s, a);
    OwnerLand(cfg, s, owner, a.visible, d);
    OwnerSpares(cfg, s, owner, a.visible, d, w);
    DevStep(cfg, s, a);
    KnownStays(cfg, s, a, d, email);
    OneMovesOwner(cfg, s.reqs, owner, s'.reqs[owner], email, w);
  }

  lemma OneMovesOwner(cfg: Config, reqs: map<nat, Entry>, owner: nat, e: Entry, email: Email, w: Time)
    requires OthersOutside(cfg, reqs, owner, email, w)
    ensures OthersOutside(cfg, reqs[owner := e], owner, email, w)
  {}

  /**
   * However strangers' statements interleave with the owner's, the owner stays
   * one served answer away from the next stage: after at most `Remaining`
   * landings the code is sent, or the account is unlocked, and until then the
   * owner is never stuck.
   */
  lemma {:induction false} OwnerGetsThrough(cfg: Config, s: State, acts: seq<Action>, owner: nat, email: Email,
      d: DeviceId, w: Time)
    requires ValidConfig(cfg) && OwnerOn(cfg, s, owner, email, d, w) && IsRun(cfg, s, acts)
    requires Siege(cfg, s, acts, owner, email, w)
    ensures var s' := After(cfg, s, acts);
      && OwnerOn(cfg, s', owner, email, d, w)
      && Remaining(s'.reqs[owner].r.pc) + Landings(acts, owner) <= Remaining(s.reqs[owner].r.pc)
      && (Remaining(s'.reqs[owner].r.pc) > 0 ==> Waiting(s', owner))
    decreases |acts|
  {
    if acts == [] {
      if Remaining(s.reqs[owner].r.pc) > 0 { OwnerCalls(cfg, s.tables, s.reqs[owner], d); }
    } else {
      var next := Next(cfg, s, acts[0]);
      if OwnerMoves(acts[0], owner) {
        OwnerTurn(cfg, s, acts[0], owner, email, d, w);
      } else {
        StrangerStep(cfg, s, acts[0], owner, email, d, w);
        ReadyStays(cfg, s.tables, next.tables, s.reqs[owner], d);
      }
      OwnerGetsThrough(cfg, next, acts[1..], owner, email, d, w);
    }
  }

  // ----- what being done means -----

  /** Right after one of the owner's landings, the account's guard is clear. */
  ghost predicate UnlockedIn(cfg: Config, s: State, acts: seq<Action>, owner: nat, account: AccountId, now: Time)
    requires IsRun(cfg, s, acts)
    decreases |acts|
  {
    acts != [] && ((OwnerMoves(acts[0], owner) && GuardClear(Next(cfg, s, acts[0]).tables, account, now))
                   || UnlockedIn(cfg, Next(cfg, s, acts[0]), acts[1..], owner, account, now))
  }

  predicate GuardClear(t: Tables, account: AccountId, now: Time) {
    account in t.guards ==> t.guards[account] == GuardRow(0, None, now)
  }

  lemma UnlockLands(cfg: Config, s: State, owner: nat, visible: bool)
    requires Waiting(s, owner) && s.reqs[owner].r.pc == Entering(VerifyUnlock)
    requires s.reqs[owner].r.input.resolved == Some(s.reqs[owner].r.account)
    ensures GuardClear(Next(cfg, s, Land(owner, Committed, visible)).tables, s.reqs[owner].r.account, s.reqs[owner].r.now)
  {
    assert Emit(cfg, s.reqs[owner].r) == Db(ResetLoginGuard(s.reqs[owner].r.account, s.reqs[owner].r.now));
  }

  /** A request keeps its kind and its reading. */
  predicate Verifying(s: State, owner: nat, account: AccountId, now: Time) {
    owner in s.reqs && s.reqs[owner].r.input.route.EmailVerify? && s.reqs[owner].r.input.resolved == Some(account)
    && s.reqs[owner].r.now == now
  }

  lemma StaysVerifying(cfg: Config, s: State, a: Action, owner: nat, account: AccountId, now: Time)
    requires Enabled(s, a) && Verifying(s, owner, account, now)
    ensures Verifying(Next(cfg, s, a), owner, account, now)
  {
    hide Exec, Emit, ResumeDb, Begin, Record, AfterOther, SessionFound, EpochsAfter, Swept, FreshIds;
  }

  /** The verifying owner's last landing clears the guard, in the table itself. */
  lemma {:induction false} VerifiedMeansUnlocked(cfg: Config, s: State, acts: seq<Action>, owner: nat, email: Email,
      d: DeviceId, w: Time, account: AccountId, now: Time)
    requires ValidConfig(cfg) && OwnerOn(cfg, s, owner, email, d, w) && IsRun(cfg, s, acts)
    requires Siege(cfg, s, acts, owner, email, w) && Verifying(s, owner, account, now)
    requires Remaining(s.reqs[owner].r.pc) > 0
    requires owner in After(cfg, s, acts).reqs && Remaining(After(cfg, s, acts).reqs[owner].r.pc) == 0
    ensures UnlockedIn(cfg, s, acts, owner, account, now)
    decreases |acts|
  {
    hide Next, Enabled, Ready, Besieged, Remaining, GuardClear, Verifying, Stranger, Served;
    if acts != [] {
      var next := Next(cfg, s, acts[0]);
      SiegeKeeps(cfg, s, acts[0], owner, email, d, w);
      StaysVerifying(cfg, s, acts[0], owner, account, now);
      if Remaining(next.reqs[owner].r.pc) > 0 {
        VerifiedMeansUnlocked(cfg, next, acts[1..], owner, email, d, w, account, now);
      } else {
        LastLanding(cfg, s, acts[0], owner, email, d, w, account, now);
      }
    }
  }

  /** One step of the siege, whoever takes it. */
  lemma SiegeKeeps(cfg: Config, s: State, a: Action, owner: nat, email: Email, d: DeviceId, w: Time)
    requires ValidConfig(cfg) && OwnerOn(cfg, s, owner, email, d, w)
    requires Enabled(s, a) && SiegeStep(cfg, s, a, owner, email, w)
    ensures OwnerOn(cfg, Next(cfg, s, a), owner, email, d, w)
  {
    if OwnerMoves(a, owner) {
      OwnerTurn(cfg, s, a, owner, email, d, w);
    } else {
      StrangerStep(cfg, s, a, owner, email, d, w);
      ReadyStays(cfg, s.tables, Next(cfg, s, a).tables, s.reqs[owner], d);
    }
  }

  lemma LastLanding(cfg: Config, s: State, a: Action, owner: nat, email: Email, d: DeviceId, w: Time,
      account: AccountId, now: Time)
    requires ValidConfig(cfg) && OwnerOn(cfg, s, owner, email, d, w) && Enabled(s, a)
    requires SiegeStep(cfg, s, a, owner, email, w) && Verifying(s, owner, account, now)
    requires Remaining(s.reqs[owner].r.pc) > 0
    requires owner in Next(cfg, s, a).reqs && Remaining(Next(cfg, s, a).reqs[owner].r.pc) == 0
    ensures OwnerMoves(a, owner) && GuardClear(Next(cfg, s, a).tables, account, now)
  {
    hide Next, Besieged, Remaining, GuardClear, Stranger, Served;
    if OwnerMoves(a, owner) {
      OwnerTurn(cfg, s, a, owner, email, d, w);
      OwnVerifies(cfg, s, owner, email, d, w);
      UnlockLands(cfg, s, owner, a.visible);
    } else {
      StrangerStep(cfg, s, a, owner, email, d, w);
    }
  }

  lemma OwnVerifies(cfg: Config, s: State, owner: nat, email: Email, d: DeviceId, w: Time)
    requires OwnerOn(cfg, s, owner, email, d, w) && s.reqs[owner].r.input.route.EmailVerify?
    ensures !s.reqs[owner].r.pc.Starting?
    ensures s.reqs[owner].r.pc.Entering? ==> s.reqs[owner].r.input.resolved == Some(s.reqs[owner].r.account)
  {
    assert ProvInv(cfg, s.reqs[owner]);
  }

  // ----- start, verify, unlocked -----

  /** What a caller can check before asking for a code. */
  predicate MayStart(cfg: Config, t: Tables, input: Input, now: Time, email: Email, d: DeviceId) {
    && input.route.EmailStart? && input.email == email && input.presented.Some? && input.presented.value.deviceId == d
    && (input.ip.Some? || !cfg.requireClientIp)
    && RoomLeft(cfg, t, now, d) && MayCool(cfg, t, now, d) && MayCount(cfg, t, now, d) && AttemptsLeft(cfg, t, email, now)
  }

  /** And before submitting it: the digits that were sent, within their life, for a known user. */
  predicate MayVerify(cfg: Config, start: Request, input: Input, now: Time, email: Email, d: DeviceId) {
    && input.route.EmailVerify? && input.email == email && input.presented.Some? && input.presented.value.deviceId == d
    && (input.ip.Some? || !cfg.requireClientIp)
    && input.code == start.input.code && input.resolved.Some? && start.now <= now < start.now + cfg.codeTtlMs
  }

  lemma StartBeginsReady(cfg: Config, t: Tables, input: Input, now: Time, email: Email, d: DeviceId)
    requires MayStart(cfg, t, input, now, email, d)
    ensures var r := Begin(cfg, input, now); Ready(cfg, t, Entry(r, NoTrace), d) && 0 < Remaining(r.pc) <= 6
    ensures Begin(cfg, input, now).input == input && Begin(cfg, input, now).now == now
  {}

  lemma VerifyBeginsReady(cfg: Config, t: Tables, start: Request, input: Input, now: Time, email: Email, d: DeviceId)
    requires ValidConfig(cfg) && HoldsOwn(cfg.ring) && MayVerify(cfg, start, input, now, email, d)
    requires start.input.email == email && Sent(cfg, t, start) && RoomLeft(cfg, t, start.now, d)
    ensures var r := Begin(cfg, input, now); Ready(cfg, t, Entry(r, NoTrace), d) && 0 < Remaining(r.pc) <= 9
    ensures Begin(cfg, input, now).input == input && Begin(cfg, input, now).now == now
  {}

  /** The owner's own request arrives among the strangers'. */
  lemma OwnerArrives(cfg: Config, s: State, owner: nat, input: Input, now: Time, email: Email, d: DeviceId, w: Time)
    requires ValidConfig(cfg) && Besieged(cfg, s, owner, email, d, w) && Enabled(s, Arrive(owner, input, now))
    requires input.email == email && Begin(cfg, input, now).input == input
    requires Ready(cfg, s.tables, Entry(Begin(cfg, input, now), NoTrace), d)
    ensures OwnerOn(cfg, Next(cfg, s, Arrive(owner, input, now)), owner, email, d, w)
  {
    hide Begin, Ready, DevicesOk, Outside;
    DevStep(cfg, s, Arrive(owner, input, now));
    KnownStays(cfg, s, Arrive(owner, input, now), d, email);
    OneMovesOwner(cfg, s.reqs, owner, Entry(Begin(cfg, input, now), NoTrace), email, w);
  }

  /** A finished request is an outsider like any other. */
  lemma NextOwner(cfg: Config, s: State, first: nat, second: nat, email: Email, d: DeviceId, w: Time)
    requires Besieged(cfg, s, first, email, d, w) && first in s.reqs && s.reqs[first].r.pc.Finished? && second !in s.reqs
    ensures Besieged(cfg, s, second, email, d, w)
  {}

  lemma StartDone(cfg: Config, s: State, owner: nat, email: Email, d: DeviceId, w: Time)
    requires OwnerOn(cfg, s, owner, email, d, w) && s.reqs[owner].r.input.route.EmailStart?
    requires Remaining(s.reqs[owner].r.pc) == 0
    ensures s.reqs[owner].r.pc == Finished(CodeSent) && Sent(cfg, s.tables, s.reqs[owner].r)
    ensures RoomLeft(cfg, s.tables, s.reqs[owner].r.now, d)
  {
    assert ProvInv(cfg, s.reqs[owner]);
  }

  /** Asking for the code: at most six answers, whatever strangers do in between. */
  lemma OwnerIsSent(cfg: Config, s: State, id: nat, input: Input, now: Time, acts: seq<Action>, email: Email,
      d: DeviceId, w: Time)
    requires ValidConfig(cfg) && Besieged(cfg, s, id, email, d, w) && Enabled(s, Arrive(id, input, now))
    requires MayStart(cfg, s.tables, input, now, email, d)
    requires var s1 := Next(cfg, s, Arrive(id, input, now)); IsRun(cfg, s1, acts) && Siege(cfg, s1, acts, id, email, w)
    ensures var s2 := After(cfg, Next(cfg, s, Arrive(id, input, now)), acts);
      && OwnerOn(cfg, s2, id, email, d, w) && s2.reqs[id].r.input == input && s2.reqs[id].r.now == now
      && Remaining(s2.reqs[id].r.pc) + Landings(acts, id) <= 6
      && (Remaining(s2.reqs[id].r.pc) > 0 ==> Waiting(s2, id))
      && (Remaining(s2.reqs[id].r.pc) == 0 ==> s2.reqs[id].r.pc == Finished(CodeSent) && Sent(cfg, s2.tables, s2.reqs[id].r))
  {
    hide Ready, Besieged, Remaining, MayStart, Siege, IsRun, After, Enabled, Begin, Sent;
    StartBeginsReady(cfg, s.tables, input, now, email, d);
    assert input.email == email && input.route.EmailStart? by { AsksForCode(cfg, s.tables, input, now, email, d); }
    var s1 := Next(cfg, s, Arrive(id, input, now));
    OwnerArrives(cfg, s, id, input, now, email, d, w);
    OwnerGetsThrough(cfg, s1, acts, id, email, d, w);
    KeepsInput(cfg, s1, acts, id);
    var s2 := After(cfg, s1, acts);
    if Remaining(s2.reqs[id].r.pc) == 0 { StartDone(cfg, s2, id, email, d, w); }
  }

  lemma AsksForCode(cfg: Config, t: Tables, input: Input, now: Time, email: Email, d: DeviceId)
    requires MayStart(cfg, t, input, now, email, d)
    ensures input.email == email && input.route.EmailStart?
  {}

  lemma {:induction false} KeepsInput(cfg: Config, s: State, acts: seq<Action>, id: nat)
    requires IsRun(cfg, s, acts) && id in s.reqs
    ensures var s' := After(cfg, s, acts);
      id in s'.reqs && s'.reqs[id].r.input == s.reqs[id].r.input && s'.reqs[id].r.now == s.reqs[id].r.now
    decreases |acts|
  {
    hide Next, Enabled;
    if acts != [] {
      StepKeepsInput(cfg, s, acts[0], id);
      KeepsInput(cfg, Next(cfg, s, acts[0]), acts[1..], id);
    }
  }

  lemma StepKeepsInput(cfg: Config, s: State, a: Action, id: nat)
    requires Enabled(s, a) && id in s.reqs
    ensures var s' := Next(cfg, s, a);
      id in s'.reqs && s'.reqs[id].r.input == s.reqs[id].r.input && s'.reqs[id].r.now == s.reqs[id].r.now
  {
    hide Exec, Emit, ResumeDb, Begin, Record, AfterOther, SessionFound, EpochsAfter, Swept, FreshIds;
  }

  /**
   * Start, verify, unlocked. While the address is besieged, its owner asks for
   * a code on a live device and, once it is sent, submits it: however
   * strangers interleave, the second request is never stuck, needs at most
   * nine answers, and when it is done its account's guard has been cleared in
   * the table by one of its own landings.
   */
  lemma OwnerUnlocks(cfg: Config, s: State, first: nat, input1: Input, now1: Time, acts1: seq<Action>,
                     second: nat, input2: Input, now2: Time, acts2: seq<Action>, email: Email, d: DeviceId, w: Time)
    requires ValidConfig(cfg) && HoldsOwn(cfg.ring) && Besieged(cfg, s, first, email, d, w)
    requires Enabled(s, Arrive(first, input1, now1)) && MayStart(cfg, s.tables, input1, now1, email, d)
    requires var s1 := Next(cfg, s, Arrive(first, input1, now1));
      && IsRun(cfg, s1, acts1) && Siege(cfg, s1, acts1, first, email, w)
      && var s2 := After(cfg, s1, acts1);
         && first in s2.reqs && Remaining(s2.reqs[first].r.pc) == 0
         && Enabled(s2, Arrive(second, input2, now2)) && MayVerify(cfg, s2.reqs[first].r, input2, now2, email, d)
         && var s3 := Next(cfg, s2, Arrive(second, input2, now2));
            IsRun(cfg, s3, acts2) && Siege(cfg, s3, acts2, second, email, w)
    ensures var s2 := After(cfg, Next(cfg, s, Arrive(first, input1, now1)), acts1);
      var s3 := Next(cfg, s2, Arrive(second, input2, now2));
      var s4 := After(cfg, s3, acts2);
      && s2.reqs[first].r.pc == Finished(CodeSent) && second in s4.reqs
      && Remaining(s4.reqs[second].r.pc) + Landings(acts2, second) <= 9
      && (Remaining(s4.reqs[second].r.pc) > 0 ==> Waiting(s4, second))
      && (Remaining(s4.reqs[second].r.pc) == 0 ==>
            UnlockedIn(cfg, s3, acts2, second, input2.resolved.value, now2))
  {
    hide Ready, Besieged, Remaining, MayStart, Siege, IsRun, After, Begin, Sent, RoomLeft, UnlockedIn, FreshIds;
    OwnerIsSent(cfg, s, first, input1, now1, acts1, email, d, w);
    var s2 := After(cfg, Next(cfg, s, Arrive(first, input1, now1)), acts1);
    AsksForCode(cfg, s.tables, input1, now1, email, d);
    StartDone(cfg, s2, first, email, d, w);
    VerifyBeginsReady(cfg, s2.tables, s2.reqs[first].r, input2, now2, email, d);
    NextOwner(cfg, s2, first, second, email, d, w);
    OwnerArrives(cfg, s2, second, input2, now2, email, d, w);
    var s3 := Next(cfg, s2, Arrive(second, input2, now2));
    OwnerGetsThrough(cfg, s3, acts2, second, email, d, w);
    if Remaining(After(cfg, s3, acts2).reqs[second].r.pc) == 0 {
      VerifiedMeansUnlocked(cfg, s3, acts2, second, email, d, w, input2.resolved.value, now2);
    }
  }
}

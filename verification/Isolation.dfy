/**
 * Spending an address's failure budget locks out strangers, not the owner
 * (src/device-auth/index.ts:739-824, 882-898; README.md:863-905).
 */
module Isolation {
  import opened Basics
  import opened PinCredential
  import opened Tables
  import opened Routes
  import opened Runs
  import opened Provenance
  import opened Devices
  import opened DeviceRuns

  predicate SameAt<K, V(==)>(m: map<K, V>, m': map<K, V>, k: K) {
    (k in m <==> k in m') && (k in m ==> m[k] == m'[k])
  }

  /** The address's code and failure budget, and the three budgets of its device `d`, are as they were. */
  predicate Undisturbed(t: Tables, t': Tables, email: Email, d: DeviceId) {
    && SameAt(t.codes, t'.codes, email) && SameAt(t.limits, t'.limits, FailuresOfEmail(email))
    && SameAt(t.limits, t'.limits, FailuresOfDevice(d)) && SameAt(t.limits, t'.limits, CooldownOfDevice(d))
    && SameAt(t.limits, t'.limits, SendsToDevice(d))
  }

  predicate OfOwner(b: Bucket, email: Email, d: DeviceId) {
    b == FailuresOfEmail(email) || b == FailuresOfDevice(d) || b == CooldownOfDevice(d) || b == SendsToDevice(d)
  }

  /** The address budget's window, opened at `w`, is used up. */
  predicate BudgetSpent(cfg: Config, t: Tables, email: Email, w: Time) {
    FailuresOfEmail(email) in t.limits && t.limits[FailuresOfEmail(email)].windowStart == w
    && t.limits[FailuresOfEmail(email)].count >= cfg.maxFailuresPerEmail
  }

  /**
   * A statement that stays clear of everything in `Undisturbed`, or a reservation that finds the
   * address budget spent.
   */
  predicate Avoids(cfg: Config, st: Statement, email: Email, d: DeviceId, w: Time) {
    match st
    case HitRateLimit(b, _, _) => !OfOwner(b, email, d)
    case ReserveRateLimit(b, windowMs, now, max) =>
      !OfOwner(b, email, d)
      || (b == FailuresOfEmail(email) && windowMs == cfg.failureWindowMs && max == cfg.maxFailuresPerEmail
          && now < w + cfg.failureWindowMs)
    case RefundRateLimit(b, _) => !OfOwner(b, email, d)
    case HitCircuitBreaker(b, _, _, _) => !OfOwner(b, email, d)
    case PutEmailCode(issue) => issue.email != email
    case ReserveEmailCodeAttempt(to, _, _) => to != email
    case ConsumeEmailCode(to, _) => to != email
    case Cleanup(_, _) => false
    case _ => true
  }

  lemma AvoidingStatement(cfg: Config, t: Tables, st: Statement, email: Email, d: DeviceId, w: Time)
    requires Avoids(cfg, st, email, d, w) && BudgetSpent(cfg, t, email, w)
    ensures Undisturbed(t, Exec(t, st).0, email, d)
  {}

  // ----- outsiders -----

  predicate Concerns(r: Request, email: Email) {
    r.input.email == email && (r.input.route.EmailStart? || r.input.route.EmailVerify?)
  }

  /** Against the address, not on a device of it, read inside the window, and not past its budget check. */
  predicate Outside(cfg: Config, r: Request, email: Email, w: Time) {
    match r.pc
    case Starting(at) =>
      (at.StartIp? || at.StartDevice? || at.StartBudget?) && r.budgetDevice.None? && r.now < w + cfg.failureWindowMs
    case Gating(at) => r.budgetDevice.None? && r.now < w + cfg.failureWindowMs
    case Guessing(_) => false
    case _ => true
  }

  /** Every request but the owner's that concerns the address is an outsider. */
  ghost predicate OthersOutside(cfg: Config, reqs: map<nat, Entry>, owner: nat, email: Email, w: Time) {
    forall id :: id in reqs && id != owner && Concerns(reqs[id].r, email) ==> Outside(cfg, reqs[id].r, email, w)
  }

  /** The state an outsider meets: the address budget is spent, `d` is a device of the address. */
  ghost predicate Besieged(cfg: Config, s: State, owner: nat, email: Email, d: DeviceId, w: Time) {
    && DevicesOk(cfg, s) && (d, email) in KnownOf(s.reqs).emails
    && BudgetSpent(cfg, s.tables, email, w) && OthersOutside(cfg, s.reqs, owner, email, w)
  }

  /**
   * No outsider shows a live device of the address when it is looked up, or arrives after the
   * window; nothing is swept.
   */
  predicate Stranger(cfg: Config, s: State, a: Action, email: Email, w: Time) {
    match a
    case Arrive(_, input, now) =>
      input.email == email && (input.route.EmailStart? || input.route.EmailVerify?) ==> now < w + cfg.failureWindowMs
    case Land(id, _, _) => id in s.reqs ==> LooksUpNone(s.tables, s.reqs[id].r, email)
    case Sweep(_, _) => false
    case _ => true
  }

  /** If the request is about to look its device up for the address, it will find none. */
  predicate LooksUpNone(t: Tables, r: Request, email: Email) {
    Concerns(r, email) && (r.pc == Starting(StartDevice) || r.pc == Gating(VerifyDevice)) ==>
      !PresentsDeviceOfAddress(r, Lookup(t.devices, PresentedId(r)))
  }

  /** A device belongs to one address. */
  lemma OneAddress(cfg: Config, s: State, d: DeviceId, email: Email, other: Email)
    requires DevicesOk(cfg, s) && (d, email) in KnownOf(s.reqs).emails && (d, other) in KnownOf(s.reqs).emails
    ensures email == other
  {
    var j :| j in s.reqs && s.reqs[j].t.registered == Some(d) && s.reqs[j].r.input.email == email;
    var k :| k in s.reqs && s.reqs[k].t.registered == Some(d) && s.reqs[k].r.input.email == other;
    assert DevInv(KnownOf(s.reqs), s.reqs[j]) && DevInv(KnownOf(s.reqs), s.reqs[k]);
  }

  predicate Safe(cfg: Config, r: Request, email: Email, d: DeviceId, w: Time) {
    && (Concerns(r, email) ==> Outside(cfg, r, email, w))
    && (r.budgetDevice == Some(d) ==> r.input.email == email)
    && RouteOfPc(r.input.route, r.pc)
  }

  lemma SafeCalls(cfg: Config, r: Request, st: Statement, email: Email, d: DeviceId, w: Time)
    requires Safe(cfg, r, email, d, w) && Emit(cfg, r) == Db(st)
    ensures Avoids(cfg, st, email, d, w)
  {
    match r.pc
    case Starting(at) => SafeStart(cfg, r, at, st, email, d, w);
    case Gating(at) =>
    case Guessing(at) => SafeGuess(cfg, r, at, st, email, d, w);
    case Entering(at) =>
    case SettingPin(at) =>
    case LoggingIn(at) =>
  }

  lemma SafeStart(cfg: Config, r: Request, at: StartPc, st: Statement, email: Email, d: DeviceId, w: Time)
    requires Safe(cfg, r, email, d, w) && r.pc == Starting(at) && EmitStart(cfg, r, at) == Db(st)
    ensures Avoids(cfg, st, email, d, w)
  {}

  lemma SafeGuess(cfg: Config, r: Request, at: GuessPc, st: Statement, email: Email, d: DeviceId, w: Time)
    requires Safe(cfg, r, email, d, w) && r.pc == Guessing(at) && EmitGuess(cfg, r, at) == Db(st)
    ensures Avoids(cfg, st, email, d, w)
  {}

  /** Answers turn an outsider away at its check. */
  lemma StaysOutside(cfg: Config, t: Tables, r: Request, st: Statement, email: Email, w: Time)
    requires Concerns(r, email) && Outside(cfg, r, email, w) && RouteOfPc(r.input.route, r.pc)
    requires BudgetSpent(cfg, t, email, w) && Emit(cfg, r) == Db(st)
    requires LooksUpNone(t, r, email)
    ensures Outside(cfg, ResumeDb(cfg, r, Exec(t, st).1), email, w)
  {
    match r.pc
    case Starting(at) => StaysOutsideStart(cfg, t, r, at, st, email, w);
    case Gating(at) => StaysOutsideGate(cfg, t, r, at, st, email, w);
    case Entering(at) =>
  }

  lemma StaysOutsideStart(cfg: Config, t: Tables, r: Request, at: StartPc, st: Statement, email: Email, w: Time)
    requires Concerns(r, email) && Outside(cfg, r, email, w) && r.pc == Starting(at)
    requires BudgetSpent(cfg, t, email, w) && EmitStart(cfg, r, at) == Db(st)
    requires at.StartDevice? ==> !PresentsDeviceOfAddress(r, Lookup(t.devices, PresentedId(r)))
    ensures Outside(cfg, ResumeStart(cfg, r, at, Exec(t, st).1), email, w)
  {}

  lemma StaysOutsideGate(cfg: Config, t: Tables, r: Request, at: GatePc, st: Statement, email: Email, w: Time)
    requires Concerns(r, email) && Outside(cfg, r, email, w) && r.pc == Gating(at)
    requires BudgetSpent(cfg, t, email, w) && EmitGate(cfg, r, at) == Db(st)
    requires at.VerifyDevice? ==> !PresentsDeviceOfAddress(r, Lookup(t.devices, PresentedId(r)))
    ensures Outside(cfg, ResumeGate(cfg, r, at, Exec(t, st).1), email, w)
  {}

  lemma SafeRequest(cfg: Config, s: State, owner: nat, id: nat, email: Email, d: DeviceId, w: Time)
    requires Besieged(cfg, s, owner, email, d, w) && id in s.reqs && id != owner
    ensures Safe(cfg, s.reqs[id].r, email, d, w)
  {
    var r := s.reqs[id].r;
    assert ProvInv(cfg, s.reqs[id]) && DevInv(KnownOf(s.reqs), s.reqs[id]);
    if r.budgetDevice == Some(d) { OneAddress(cfg, s, d, email, r.input.email); }
  }

  /** The answer, or its loss, leaves a safe request outside. */
  lemma OutsideAnswer(cfg: Config, t: Tables, r: Request, st: Statement, told: bool, email: Email, d: DeviceId, w: Time)
    requires Safe(cfg, r, email, d, w) && BudgetSpent(cfg, t, email, w) && Emit(cfg, r) == Db(st)
    requires LooksUpNone(t, r, email)
    ensures var r' := if told then ResumeDb(cfg, r, Exec(t, st).1) else To(r, Crashed);
      Concerns(r', email) ==> Outside(cfg, r', email, w)
  {
    if told && Concerns(r, email) { StaysOutside(cfg, t, r, st, email, w); }
  }

  lemma OutsideDb(cfg: Config, s: State, owner: nat, id: nat, st: Statement, told: bool, email: Email, d: DeviceId,
      w: Time)
    requires id in s.reqs && Safe(cfg, s.reqs[id].r, email, d, w) && Emit(cfg, s.reqs[id].r) == Db(st)
    requires BudgetSpent(cfg, s.tables, email, w) && OthersOutside(cfg, s.reqs, owner, email, w)
    requires LooksUpNone(s.tables, s.reqs[id].r, email)
    ensures var s' := LandDb(cfg, s, id, st, told);
      Undisturbed(s.tables, s'.tables, email, d) && OthersOutside(cfg, s'.reqs, owner, email, w)
  {
    var r := s.reqs[id].r;
    SafeCalls(cfg, r, st, email, d, w);
    AvoidingStatement(cfg, s.tables, st, email, d, w);
    SameCall(cfg, r);
    OutsideAnswer(cfg, s.tables, r.(retried := false), st, told, email, d, w);
    OneMoves(cfg, s.reqs, owner, id, LandDb(cfg, s, id, st, told).reqs[id], email, w);
  }

  /** One outside landing: what it leaves alone, and that it stays outside. */
  lemma OutsideLand(cfg: Config, s: State, owner: nat, id: nat, fate: Fate, visible: bool, email: Email, d: DeviceId,
      w: Time)
    requires Waiting(s, id) && Safe(cfg, s.reqs[id].r, email, d, w)
    requires BudgetSpent(cfg, s.tables, email, w) && OthersOutside(cfg, s.reqs, owner, email, w)
    requires LooksUpNone(s.tables, s.reqs[id].r, email)
    ensures var s' := Next(cfg, s, Land(id, fate, visible));
      && Undisturbed(s.tables, s'.tables, email, d) && OthersOutside(cfg, s'.reqs, owner, email, w)
      && s'.reqs == s.reqs[id := s'.reqs[id]]
  {
    var e, c := s.reqs[id], Emit(cfg, s.reqs[id].r);
    if fate.RolledBack? {
      OneMoves(cfg, s.reqs, owner, id, RollBack(e, fate.retryable), email, w);
    } else if c.Db? {
      OutsideDb(cfg, s, owner, id, c.statement, fate.Committed?, email, d, w);
    } else {
      var found := SessionFound(s, c, visible);
      OutsideOther(cfg, e.r, found, fate.Committed?, email, w);
      OneMoves(cfg, s.reqs, owner, id, e.(r := AfterOther(cfg, e.r, c, found, fate.Committed?)), email, w);
    }
  }

  lemma OneMoves(cfg: Config, reqs: map<nat, Entry>, owner: nat, id: nat, e: Entry, email: Email, w: Time)
    requires OthersOutside(cfg, reqs, owner, email, w) && (Concerns(e.r, email) ==> Outside(cfg, e.r, email, w))
    ensures OthersOutside(cfg, reqs[id := e], owner, email, w)
  {}

  lemma OutsideOther(cfg: Config, r: Request, found: Option<Session>, told: bool, email: Email, w: Time)
    requires !Emit(cfg, r).Db? && (Concerns(r, email) ==> Outside(cfg, r, email, w))
    ensures var r' := AfterOther(cfg, r, Emit(cfg, r), found, told); Concerns(r', email) ==> Outside(cfg, r', email, w)
  {}

  lemma OutsideArrives(cfg: Config, input: Input, now: Time, email: Email, w: Time)
    requires input.email == email && (input.route.EmailStart? || input.route.EmailVerify?) ==> now < w + cfg.failureWindowMs
    ensures Concerns(Begin(cfg, input, now), email) ==> Outside(cfg, Begin(cfg, input, now), email, w)
  {}

  lemma KnownStays(cfg: Config, s: State, a: Action, d: DeviceId, email: Email)
    requires DevicesOk(cfg, s) && Enabled(s, a) && (d, email) in KnownOf(s.reqs).emails
    ensures (d, email) in KnownOf(Next(cfg, s, a).reqs).emails
  {
    var s' := Next(cfg, s, a);
    match a
    case Arrive(id, input, now) => KnownGrows(s.reqs, id, s'.reqs[id]);
    case Land(id, fate, visible) => KnownStaysLand(cfg, s, id, fate, visible, d, email);
    case _ =>
  }

  lemma KnownStaysLand(cfg: Config, s: State, id: nat, fate: Fate, visible: bool, d: DeviceId, email: Email)
    requires DevicesOk(cfg, s) && Waiting(s, id) && (d, email) in KnownOf(s.reqs).emails
    ensures (d, email) in KnownOf(Next(cfg, s, Land(id, fate, visible)).reqs).emails
  {
    var c, s' := Emit(cfg, s.reqs[id].r), Next(cfg, s, Land(id, fate, visible));
    if !fate.RolledBack? && c.Db? { DevDbEntry(cfg, s, id, c.statement, fate.Committed?); }
    KnownGrows(s.reqs, id, s'.reqs[id]);
  }

  /** A step of the tables that leaves the address alone, by a request other than the owner's. */
  lemma StaysBesieged(cfg: Config, s: State, s': State, owner: nat, email: Email, d: DeviceId, w: Time)
    requires Besieged(cfg, s, owner, email, d, w) && Undisturbed(s.tables, s'.tables, email, d)
    requires DevicesOk(cfg, s') && (d, email) in KnownOf(s'.reqs).emails && OthersOutside(cfg, s'.reqs, owner, email, w)
    ensures Besieged(cfg, s', owner, email, d, w)
  {}

  /** Anyone's step but the owner's. */
  lemma StrangerStep(cfg: Config, s: State, a: Action, owner: nat, email: Email, d: DeviceId, w: Time)
    requires ValidConfig(cfg) && Besieged(cfg, s, owner, email, d, w) && Enabled(s, a)
    requires Stranger(cfg, s, a, email, w) && (a.Land? ==> a.id != owner) && (a.Arrive? ==> a.id != owner)
    ensures Besieged(cfg, Next(cfg, s, a), owner, email, d, w)
    ensures Undisturbed(s.tables, Next(cfg, s, a).tables, email, d)
    ensures owner in s.reqs ==> owner in Next(cfg, s, a).reqs && Next(cfg, s, a).reqs[owner] == s.reqs[owner]
  {
    var s' := Next(cfg, s, a);
    DevStep(cfg, s, a);
    KnownStays(cfg, s, a, d, email);
    StrangerMoves(cfg, s, a, owner, email, d, w);
    StaysBesieged(cfg, s, s', owner, email, d, w);
  }

  lemma StrangerMoves(cfg: Config, s: State, a: Action, owner: nat, email: Email, d: DeviceId, w: Time)
    requires Besieged(cfg, s, owner, email, d, w) && Enabled(s, a)
    requires Stranger(cfg, s, a, email, w) && (a.Land? ==> a.id != owner) && (a.Arrive? ==> a.id != owner)
    ensures var s' := Next(cfg, s, a);
      && Undisturbed(s.tables, s'.tables, email, d) && OthersOutside(cfg, s'.reqs, owner, email, w)
      && (owner in s.reqs ==> owner in s'.reqs && s'.reqs[owner] == s.reqs[owner])
  {
    hide Exec, Emit, ResumeDb, DevicesOk;
    match a
    case Arrive(id, input, now) =>
      OutsideArrives(cfg, input, now, email, w);
      OneMoves(cfg, s.reqs, owner, id, Entry(Begin(cfg, input, now), NoTrace), email, w);
    case Land(id, fate, visible) =>
      SafeRequest(cfg, s, owner, id, email, d, w);
      OutsideLand(cfg, s, owner, id, fate, visible, email, d, w);
    case OwnerRevokes(st) => AvoidingStatement(cfg, s.tables, st, email, d, w);
    case AppMints(_, _) =>
  }

  /** All actions of the run come from others, none of them with a live device of the address. */
  ghost predicate Strangers(cfg: Config, s: State, acts: seq<Action>, owner: nat, email: Email, w: Time)
    requires IsRun(cfg, s, acts)
    decreases |acts|
  {
    acts == [] || (Stranger(cfg, s, acts[0], email, w)
                   && (acts[0].Land? || acts[0].Arrive? ==> acts[0].id != owner)
                   && Strangers(cfg, Next(cfg, s, acts[0]), acts[1..], owner, email, w))
  }

  lemma UndisturbedTrans(t: Tables, mid: Tables, t': Tables, email: Email, d: DeviceId)
    requires Undisturbed(t, mid, email, d) && Undisturbed(mid, t', email, d)
    ensures Undisturbed(t, t', email, d)
  {}

  /**
   * Once an address's budget is spent and the requests that hold its slots are
   * settled, any interleaving of any other requests, with readings inside the
   * window and no live device of the address, leaves the address's code, its
   * budget, and every budget of each of its devices exactly as they were.
   */
  lemma {:induction false} StrangersCannotTouch(cfg: Config, s: State, acts: seq<Action>, owner: nat, email: Email,
      d: DeviceId, w: Time)
    requires ValidConfig(cfg) && Besieged(cfg, s, owner, email, d, w) && IsRun(cfg, s, acts)
    requires Strangers(cfg, s, acts, owner, email, w)
    ensures Besieged(cfg, After(cfg, s, acts), owner, email, d, w)
    ensures Undisturbed(s.tables, After(cfg, s, acts).tables, email, d)
    decreases |acts|
  {
    if acts != [] {
      var next := Next(cfg, s, acts[0]);
      StrangerStep(cfg, s, acts[0], owner, email, d, w);
      StrangersCannotTouch(cfg, next, acts[1..], owner, email, d, w);
      UndisturbedTrans(s.tables, next.tables, After(cfg, next, acts[1..]).tables, email, d);
    }
  }
}

/** Cleanup in whole runs: removing every sweep changes nothing any request is told, does or mints. */
module CleanupRuns {
  import opened Basics
  import opened PinCredential
  import opened Tables
  import opened Routes
  import opened Runs
  import opened Provenance
  import opened Devices
  import opened DeviceRuns
  import opened DeviceSessions
  import opened Cleanup
  import BudgetWindows

  /** The longest window any route counts in. */
  function LongestWindow(cfg: Config): int {
    Max(Max(cfg.failureWindowMs, cfg.cooldownMs), Max(HOUR_MS, if cfg.breaker.Some? then cfg.breaker.value.windowMs else 0))
  }

  function Unswept(acts: seq<Action>): seq<Action> {
    if acts == [] then [] else (if acts[0].Sweep? then [] else [acts[0]]) + Unswept(acts[1..])
  }

  /** Readings do not go back, not even behind a sweep, and every sweep's horizon covers every window. */
  ghost predicate TimeForward(cfg: Config, s: State, acts: seq<Action>, swept: Time)
    requires IsRun(cfg, s, acts)
    decreases |acts|
  {
    acts == [] ||
    (ForwardStep(cfg, s, acts[0], swept) && TimeForward(cfg, Next(cfg, s, acts[0]), acts[1..], SweptAfter(acts[0], swept)))
  }

  predicate ForwardStep(cfg: Config, s: State, a: Action, swept: Time) {
    match a
    case Land(id, _, _) => id in s.reqs && s.reqs[id].r.now >= s.clock && s.reqs[id].r.now >= swept
    case Sweep(_, horizon) => horizon >= LongestWindow(cfg)
    case _ => true
  }

  function SweptAfter(a: Action, swept: Time): Time { if a.Sweep? then Max(swept, a.now) else swept }

  // ----- what the unswept run keeps -----

  /** Every credential row was written by a request that drew its id. */
  ghost predicate PinsBorn(reqs: map<nat, Entry>, credentials: map<CredentialId, CredentialRow>) {
    forall c :: c in credentials ==> exists j :: j in reqs && Wrote(reqs[j], c)
  }

  predicate Wrote(e: Entry, c: CredentialId) { e.t.replaced.Some? && e.r.input.newCredential == c }

  ghost predicate OwnPinIds(reqs: map<nat, Entry>) {
    forall i, j :: i in reqs && j in reqs && reqs[i].r.input.newCredential == reqs[j].r.input.newCredential ==> i == j
  }

  /** A code compared and matched is not yet past its expiry at the request's reading. */
  predicate Matched(s: State, e: Entry) {
    e.r.pc == Guessing(VerifyConsume) ==>
      && e.r.now <= s.clock && e.r.matched.Some?
      && (e.r.input.email in s.tables.codes ==> e.r.now < s.tables.codes[e.r.input.email].expiresAt)
  }

  ghost predicate Steady(cfg: Config, s: State) {
    && DevicesOk(cfg, s) && PinsBorn(s.reqs, s.tables.credentials) && OwnPinIds(s.reqs)
    && CodesTimed(s.tables.codes, cfg.codeTtlMs, s.clock)
    && (forall id :: id in s.reqs ==> Matched(s, s.reqs[id]))
  }

  /** `b` is `a` with sweeps. */
  ghost predicate Alike(cfg: Config, a: State, b: State, swept: Time) {
    && b.reqs == a.reqs && b.minted == a.minted && b.epochs == a.epochs && b.clock == a.clock
    && Agree(a.tables, b.tables, LongestWindow(cfg), swept)
  }

  // ----- statements the routes send -----

  lemma CallsFit(cfg: Config, r: Request, st: Statement)
    requires ValidConfig(cfg) && Emit(cfg, r) == Db(st)
    ensures Windowed(st, LongestWindow(cfg)) && !st.Cleanup? && !st.RevokeDevice? && !st.RevokeAllDevices?
    ensures ReadingOf(st).Some? ==> ReadingOf(st).value == r.now
    ensures st.PutEmailCode? ==>
      st.issue.createdAt == r.now && st.issue.expiresAt == r.now + cfg.codeTtlMs && st.issue.attemptsResetAt == r.now + cfg.codeTtlMs
    ensures st.ConsumeEmailCode? ==> r.pc == Guessing(VerifyConsume) && st.email == r.input.email
    ensures st.ReplaceCredential? ==> r.pc == SettingPin(PinReplace) && st.pin.credentialId == r.input.newCredential
  {}

  lemma CallsNamed(cfg: Config, a: State, b: State, id: nat, st: Statement, swept: Time)
    requires ValidConfig(cfg) && Steady(cfg, a) && Alike(cfg, a, b, swept) && id in a.reqs
    requires Emit(cfg, a.reqs[id].r) == Db(st)
    requires a.reqs[id].r.now >= swept
    ensures Named(a.tables, b.tables, st)
  {
    var e := a.reqs[id];
    CallsFit(cfg, e.r, st);
    assert ProvInv(cfg, e) && Matched(a, e);
    match st
    case CreateDevice(d, _) => DeviceIsNew(cfg, a, id, d, st);
    case ReplaceCredential(pin, _, _) => PinIsNew(cfg, a, id, pin.credentialId);
    case _ =>
  }

  lemma DeviceIsNew(cfg: Config, s: State, id: nat, d: DeviceId, st: Statement)
    requires DevicesOk(cfg, s) && id in s.reqs && Emit(cfg, s.reqs[id].r) == Db(st) && st.CreateDevice?
    requires st.deviceId == d
    ensures d !in s.tables.devices
  {
    if d in s.tables.devices {
      var j :| j in s.reqs && Bore(cfg, s.reqs[j], d, s.tables.devices[d]);
      NotRecreated(cfg, s, id, st, d);
    }
  }

  lemma PinIsNew(cfg: Config, s: State, id: nat, c: CredentialId)
    requires Steady(cfg, s) && id in s.reqs && s.reqs[id].r.pc == SettingPin(PinReplace)
    requires s.reqs[id].r.input.newCredential == c
    ensures c !in s.tables.credentials
  {
    assert ProvInv(cfg, s.reqs[id]);
  }

  /** What two answers that count as the same lead to. */
  lemma SameResume(cfg: Config, r: Request, st: Statement, x: Result, y: Result, swept: Time)
    requires ValidConfig(cfg) && Emit(cfg, r) == Db(st) && SameAnswer(st, x, y, swept) && swept <= r.now
    requires !st.RevokeDevice? && !st.RevokeAllDevices?
    ensures ResumeDb(cfg, r, x) == ResumeDb(cfg, r, y)
  {
    hide Emit, ResumeDb;
    if st.FindDevice? {
      SameLookup(cfg, r, st, x, y, swept);
    } else if st.ReplaceCredential? {
      SameReplacement(cfg, r, st, x, y);
    }
  }

  lemma SameReplacement(cfg: Config, r: Request, st: Statement, x: Result, y: Result)
    requires ValidConfig(cfg) && Emit(cfg, r) == Db(st) && SameAnswer(st, x, y, 0) && st.ReplaceCredential?
    ensures ResumeDb(cfg, r, x) == ResumeDb(cfg, r, y)
  {
    CallsFit(cfg, r, st);
  }

  lemma SameLookup(cfg: Config, r: Request, st: Statement, x: Result, y: Result, swept: Time)
    requires Emit(cfg, r) == Db(st) && SameAnswer(st, x, y, swept) && swept <= r.now && st.FindDevice?
    ensures ResumeDb(cfg, r, x) == ResumeDb(cfg, r, y)
  {
    assert Presents(r, x.device) == Presents(r, y.device);
    assert PresentsDeviceOfAddress(r, x.device) == PresentsDeviceOfAddress(r, y.device);
    assert Presents(r, x.device) ==> x == y;
  }

  lemma SameRecord(t: Trace, st: Statement, x: Result, y: Result, swept: Time, epoch: nat)
    requires SameAnswer(st, x, y, swept) && !st.RevokeDevice? && !st.RevokeAllDevices?
    ensures Record(t, st, x, epoch) == Record(t, st, y, epoch)
  {}

  // ----- steps -----

  /** The same statement, sent by the same request, to the swept and the unswept store. */
  lemma AlikeDb(cfg: Config, a: State, b: State, id: nat, st: Statement, told: bool, swept: Time)
    requires ValidConfig(cfg) && Steady(cfg, a) && Alike(cfg, a, b, swept) && id in a.reqs
    requires Emit(cfg, a.reqs[id].r) == Db(st)
    requires a.reqs[id].r.now >= swept
    ensures Alike(cfg, LandDb(cfg, a, id, st, told), LandDb(cfg, b, id, st, told), swept)
  {
    hide Exec, Agree, ResumeDb, Emit, Record, SameAnswer, EpochsAfter, DevicesOk, CodesTimed, PinsBorn, Named, Windowed;
    var e, longest := a.reqs[id], LongestWindow(cfg);
    var r, epoch := e.r.(retried := false), EpochOf(a, e.r.input.email);
    var x, y := Exec(a.tables, st).1, Exec(b.tables, st).1;
    CallsFit(cfg, e.r, st);
    CallsNamed(cfg, a, b, id, st, swept);
    AgreeStep(a.tables, b.tables, st, longest, swept, cfg.codeTtlMs, a.clock);
    SameAnswers(a.tables, b.tables, st, longest, swept);
    SameCall(cfg, e.r);
    SameResume(cfg, r, st, x, y, swept);
    SameRecord(e.t, st, x, y, swept, epoch);
    SameEpochs(cfg, a, b, st, swept);
  }

  lemma SameEpochs(cfg: Config, a: State, b: State, st: Statement, swept: Time)
    requires Alike(cfg, a, b, swept) && CodesTimed(a.tables.codes, cfg.codeTtlMs, a.clock) && InTime(st, swept)
    ensures EpochsAfter(a, st) == EpochsAfter(b, st)
  {}

  lemma AlikeLand(cfg: Config, a: State, b: State, id: nat, fate: Fate, visible: bool, swept: Time)
    requires ValidConfig(cfg) && Steady(cfg, a) && Alike(cfg, a, b, swept) && Waiting(b, id)
    requires a.reqs[id].r.now >= swept
    ensures Waiting(a, id)
    ensures Alike(cfg, Next(cfg, a, Land(id, fate, visible)), Next(cfg, b, Land(id, fate, visible)), swept)
  {
    hide Exec, ResumeDb, Emit, Agree, DevicesOk, CodesTimed;
    var c := Emit(cfg, a.reqs[id].r);
    if !fate.RolledBack? && c.Db? { AlikeDb(cfg, a, b, id, c.statement, fate.Committed?, swept); }
  }

  lemma FreshHereToo(cfg: Config, a: State, b: State, input: Input, swept: Time)
    requires Steady(cfg, a) && Alike(cfg, a, b, swept) && FreshIds(b, input)
    ensures FreshIds(a, input)
  {
    forall d | d in a.tables.devices ensures d != input.newDevice {
      var j :| j in a.reqs && Bore(cfg, a.reqs[j], d, a.tables.devices[d]);
      assert DevInv(KnownOf(a.reqs), a.reqs[j]);
    }
    forall c | c in a.tables.credentials ensures c != input.newCredential {
      var j :| j in a.reqs && Wrote(a.reqs[j], c);
    }
  }

  lemma AlikeStep(cfg: Config, a: State, b: State, act: Action, swept: Time)
    requires ValidConfig(cfg) && Steady(cfg, a) && Alike(cfg, a, b, swept) && Enabled(b, act) && !act.Sweep?
    requires ForwardStep(cfg, b, act, swept)
    ensures Enabled(a, act) && Alike(cfg, Next(cfg, a, act), Next(cfg, b, act), swept)
  {
    match act
    case Arrive(id, input, now) => FreshHereToo(cfg, a, b, input, swept);
    case Land(id, fate, visible) => AlikeLand(cfg, a, b, id, fate, visible, swept);
    case OwnerRevokes(st) => AgreeStep(a.tables, b.tables, st, LongestWindow(cfg), swept, cfg.codeTtlMs, a.clock);
    case AppMints(_, _) =>
  }

  // ----- the unswept run stays steady -----

  /** A request moves without writing codes or credentials. */
  lemma SteadyMoves(cfg: Config, s: State, id: nat, e: Entry, s': State)
    requires Steady(cfg, s) && DevicesOk(cfg, s') && s'.reqs == s.reqs[id := e] && s'.clock >= s.clock
    requires if id in s.reqs then Keeps(s.reqs[id], e) && KeepsReplaced(s.reqs[id].t, e.t) else FreshPin(s.reqs, e)
    requires forall c :: c in s'.tables.credentials ==> c in s.tables.credentials || (c == e.r.input.newCredential && e.t.replaced.Some?)
    requires CodesTimed(s'.tables.codes, cfg.codeTtlMs, s'.clock) && Matched(s', e)
    requires CodesOutlive(s, s')
    ensures Steady(cfg, s')
  {
    PinsBornMove(s.reqs, s.tables.credentials, id, e, s'.tables.credentials);
    forall j | j in s.reqs && j != id ensures Matched(s', s.reqs[j]) { assert Matched(s, s.reqs[j]); }
  }

  lemma PinsBornMove(reqs: map<nat, Entry>, pins: map<CredentialId, CredentialRow>, id: nat, e: Entry,
                     pins': map<CredentialId, CredentialRow>)
    requires PinsBorn(reqs, pins) && (id in reqs ==> e.r.input == reqs[id].r.input && KeepsReplaced(reqs[id].t, e.t))
    requires forall c :: c in pins' ==> c in pins || (c == e.r.input.newCredential && e.t.replaced.Some?)
    ensures PinsBorn(reqs[id := e], pins')
  {
    var reqs' := reqs[id := e];
    forall c | c in pins' ensures exists j :: j in reqs' && Wrote(reqs'[j], c) {
      if c in pins {
        var j :| j in reqs && Wrote(reqs[j], c);
        assert Wrote(reqs'[j], c);
      } else {
        assert Wrote(reqs'[id], c);
      }
    }
  }

  predicate KeepsReplaced(t: Trace, t': Trace) { t.replaced.Some? ==> t'.replaced.Some? }

  ghost predicate FreshPin(reqs: map<nat, Entry>, e: Entry) {
    forall j :: j in reqs ==> reqs[j].r.input.newCredential != e.r.input.newCredential
  }

  /** A code that is new, or replaced, expires after every reading so far. */
  predicate CodesOutlive(s: State, s': State) {
    forall k :: k in s'.tables.codes ==>
      (k in s.tables.codes && s'.tables.codes[k].expiresAt == s.tables.codes[k].expiresAt)
      || s'.tables.codes[k].expiresAt > s.clock
  }

  lemma CodesOutliveDb(cfg: Config, s: State, id: nat, st: Statement, told: bool)
    requires ValidConfig(cfg) && id in s.reqs && Emit(cfg, s.reqs[id].r) == Db(st) && s.reqs[id].r.now >= s.clock
    ensures CodesOutlive(s, LandDb(cfg, s, id, st, told))
  {
    CallsFit(cfg, s.reqs[id].r, st);
    if !WritesCodes(st) { Frame(s.tables, st); }
  }

  /** Whatever was answered, a request about to consume has just compared a live code. */
  lemma MatchedDb(cfg: Config, s: State, id: nat, st: Statement, told: bool)
    requires ValidConfig(cfg) && id in s.reqs && Emit(cfg, s.reqs[id].r) == Db(st)
    ensures Matched(LandDb(cfg, s, id, st, told), LandDb(cfg, s, id, st, told).reqs[id])
  {
    var e, result := s.reqs[id], Exec(s.tables, st).1;
    var r' := ResumeDb(cfg, e.r.(retried := false), result);
    if told && r'.pc == Guessing(VerifyConsume) {
      ComesFromAttempt(cfg, e.r.(retried := false), result);
      assert st == ReserveEmailCodeAttempt(e.r.input.email, e.r.now, cfg.codeMaxAttempts);
    }
  }

  /** The other stretches never lead to a consumption. */
  lemma NeverConsumes(cfg: Config, r: Request, result: Result)
    requires !r.pc.Guessing? && Emit(cfg, r).Db?
    ensures ResumeDb(cfg, r, result).pc != Guessing(VerifyConsume)
  {
    hide Emit, RetryAfterSec, Verify, BreakerOpen, Presents, DeviceLive;
    if r.pc.LoggingIn? {
      hide ResumeStart, ResumeGate, ResumeGuess, ResumeEnter, ResumeSetPin;
    } else {
      hide ResumeLogin, ResumeGuess;
    }
  }

  lemma ComesFromAttempt(cfg: Config, r: Request, result: Result)
    requires ResumeDb(cfg, r, result).pc == Guessing(VerifyConsume) && Emit(cfg, r).Db?
    ensures r.pc == Guessing(VerifyAttempt) && result.Attempt? && result.reserved.Some?
    ensures ResumeDb(cfg, r, result).matched.Some?
  {
    hide ResumeStart, ResumeGate, ResumeEnter, ResumeSetPin, ResumeLogin, CodeMatches;
    if !r.pc.Guessing? { NeverConsumes(cfg, r, result); }
  }

  /** The only credential a statement can add is the one it sets. */
  lemma PinsAdded(t: Tables, st: Statement, c: CredentialId)
    requires c in Exec(t, st).0.credentials && c !in t.credentials
    ensures st.ReplaceCredential? && c == st.pin.credentialId && Exec(t, st).1.Replaced?
  {
    if !WritesPins(st) {
      hide Exec;
      Frame(t, st);
    }
  }

  lemma PinsWritten(cfg: Config, s: State, id: nat, st: Statement, told: bool)
    requires ValidConfig(cfg) && id in s.reqs && Emit(cfg, s.reqs[id].r) == Db(st)
    ensures var e, s' := s.reqs[id], LandDb(cfg, s, id, st, told); var e' := s'.reqs[id];
      && KeepsReplaced(e.t, e'.t)
      && forall c :: c in s'.tables.credentials ==>
           c in s.tables.credentials || (c == e.r.input.newCredential && e'.t.replaced.Some?)
  {
    hide Exec, Emit, ResumeDb;
    CallsFit(cfg, s.reqs[id].r, st);
    forall c | c in Exec(s.tables, st).0.credentials && c !in s.tables.credentials
      ensures st.ReplaceCredential? && c == st.pin.credentialId && Exec(s.tables, st).1.Replaced?
    {
      PinsAdded(s.tables, st, c);
    }
  }

  lemma SteadyDb(cfg: Config, s: State, id: nat, st: Statement, told: bool)
    requires ValidConfig(cfg) && Steady(cfg, s) && id in s.reqs && Emit(cfg, s.reqs[id].r) == Db(st)
    requires s.reqs[id].r.now >= s.clock
    ensures Steady(cfg, LandDb(cfg, s, id, st, told))
  {
    var e, s' := s.reqs[id], LandDb(cfg, s, id, st, told);
    CallsFit(cfg, e.r, st);
    TimedStep(s.tables, st, cfg.codeTtlMs, s.clock, e.r.now);
    DevDb(cfg, s, id, st, told);
    DevDbEntry(cfg, s, id, st, told);
    CodesOutliveDb(cfg, s, id, st, told);
    MatchedDb(cfg, s, id, st, told);
    PinsWritten(cfg, s, id, st, told);
    SteadyMoves(cfg, s, id, s'.reqs[id], s');
  }

  /** Away from the database nothing becomes about to consume. */
  lemma OtherUnmatched(cfg: Config, r: Request, found: Option<Session>, told: bool)
    requires !Emit(cfg, r).Db?
    ensures AfterOther(cfg, r, Emit(cfg, r), found, told).pc != Guessing(VerifyConsume)
  {}

  lemma BeginsUnmatched(cfg: Config, input: Input, now: Time)
    ensures Begin(cfg, input, now).pc != Guessing(VerifyConsume)
  {}

  /** A request moves and no table does. */
  lemma SteadyQuiet(cfg: Config, s: State, id: nat, e: Entry, s': State)
    requires Steady(cfg, s) && DevicesOk(cfg, s') && s'.reqs == s.reqs[id := e] && s'.clock == s.clock
    requires s'.tables == s.tables
    requires if id in s.reqs then Keeps(s.reqs[id], e) && KeepsReplaced(s.reqs[id].t, e.t) else FreshPin(s.reqs, e)
    requires Matched(s, e)
    ensures Steady(cfg, s')
  {
    SteadyMoves(cfg, s, id, e, s');
  }

  lemma SteadyLand(cfg: Config, s: State, id: nat, fate: Fate, visible: bool)
    requires ValidConfig(cfg) && Steady(cfg, s) && Waiting(s, id) && s.reqs[id].r.now >= s.clock
    ensures Steady(cfg, Next(cfg, s, Land(id, fate, visible)))
  {
    hide Exec, ResumeDb, Emit, Agree, DevicesOk, CodesTimed;
    var e, c, s' := s.reqs[id], Emit(cfg, s.reqs[id].r), Next(cfg, s, Land(id, fate, visible));
    assert Matched(s, e);
    if fate.RolledBack? {
      DevLand(cfg, s, id, fate, visible);
      SteadyQuiet(cfg, s, id, RollBack(e, fate.retryable), s');
    } else if c.Db? {
      SteadyDb(cfg, s, id, c.statement, fate.Committed?);
    } else {
      SteadyOther(cfg, s, id, fate, visible);
    }
  }

  lemma SteadyOther(cfg: Config, s: State, id: nat, fate: Fate, visible: bool)
    requires ValidConfig(cfg) && Steady(cfg, s) && Waiting(s, id) && !fate.RolledBack? && !Emit(cfg, s.reqs[id].r).Db?
    ensures Steady(cfg, Next(cfg, s, Land(id, fate, visible)))
  {
    var e, c, s' := s.reqs[id], Emit(cfg, s.reqs[id].r), Next(cfg, s, Land(id, fate, visible));
    var found := SessionFound(s, c, visible);
    DevLand(cfg, s, id, fate, visible);
    OtherUnmatched(cfg, e.r, found, fate.Committed?);
    SteadyQuiet(cfg, s, id, e.(r := AfterOther(cfg, e.r, c, found, fate.Committed?)), s');
  }

  lemma SteadyStep(cfg: Config, s: State, a: Action)
    requires ValidConfig(cfg) && Steady(cfg, s) && Enabled(s, a) && !a.Sweep?
    requires a.Land? ==> s.reqs[a.id].r.now >= s.clock
    ensures Steady(cfg, Next(cfg, s, a))
  {
    hide Exec, ResumeDb, Emit, Agree, DevicesOk, CodesTimed;
    match a
    case Arrive(id, input, now) =>
      DevStep(cfg, s, a);
      BeginsUnmatched(cfg, input, now);
      SteadyQuiet(cfg, s, id, Entry(Begin(cfg, input, now), NoTrace), Next(cfg, s, a));
    case Land(id, fate, visible) => SteadyLand(cfg, s, id, fate, visible);
    case OwnerRevokes(st) => SteadyRevokes(cfg, s, st);
    case AppMints(_, _) => DevStep(cfg, s, a);
  }

  lemma SteadyRevokes(cfg: Config, s: State, st: Statement)
    requires ValidConfig(cfg) && Steady(cfg, s) && (st.RevokeDevice? || st.RevokeAllDevices?)
    ensures Steady(cfg, Next(cfg, s, OwnerRevokes(st)))
  {
    DevStep(cfg, s, OwnerRevokes(st));
    Frame(s.tables, st);
    var s' := Next(cfg, s, OwnerRevokes(st));
    forall j | j in s.reqs ensures Matched(s', s.reqs[j]) { assert Matched(s, s.reqs[j]); }
  }

  // ----- whole runs -----

  function SweptBy(acts: seq<Action>, swept: Time): Time {
    if acts == [] then swept else SweptBy(acts[1..], SweptAfter(acts[0], swept))
  }

  lemma SweepAlike(cfg: Config, a: State, b: State, act: Action, swept: Time)
    requires Alike(cfg, a, b, swept) && act.Sweep? && ForwardStep(cfg, b, act, swept)
    ensures Alike(cfg, a, Next(cfg, b, act), SweptAfter(act, swept))
  {
    AgreeSwept(a.tables, b.tables, LongestWindow(cfg), swept, act.now, act.horizon);
  }

  lemma {:induction false} UnsweptRuns(cfg: Config, a: State, b: State, acts: seq<Action>, swept: Time)
    requires ValidConfig(cfg) && Steady(cfg, a) && Alike(cfg, a, b, swept)
    requires IsRun(cfg, b, acts) && TimeForward(cfg, b, acts, swept)
    ensures IsRun(cfg, a, Unswept(acts))
    ensures Alike(cfg, After(cfg, a, Unswept(acts)), After(cfg, b, acts), SweptBy(acts, swept))
    decreases |acts|
  {
    if acts != [] {
      var act, rest := acts[0], acts[1..];
      if act.Sweep? {
        SweepAlike(cfg, a, b, act, swept);
        UnsweptRuns(cfg, a, Next(cfg, b, act), rest, SweptAfter(act, swept));
        assert Unswept(acts) == Unswept(rest);
      } else {
        AlikeStep(cfg, a, b, act, swept);
        SteadyStep(cfg, a, act);
        UnsweptRuns(cfg, Next(cfg, a, act), Next(cfg, b, act), rest, swept);
        assert Unswept(acts) == [act] + Unswept(rest) && Unswept(acts)[1..] == Unswept(rest);
      }
    }
  }

  lemma SameBoundSession(a: map<DeviceId, DeviceRow>, b: map<DeviceId, DeviceRow>, swept: Time, found: Option<Session>,
      at: Time)
    requires DevicesAgree(a, b, swept) && swept <= at
    ensures BoundGet(found, a, at) == BoundGet(found, b, at)
  {}

  /**
   * Cleanup is invisible to authentication. In any run whose readings move
   * forward and whose sweeps keep a horizon of at least every window, taking
   * all sweeps out leaves a run in which every request is in the same place
   * with the same answers, every session minted is the same, and the guard on
   * any device-bound session says the same from then on.
   */
  lemma CleanupIsInvisible(cfg: Config, acts: seq<Action>, found: Option<Session>, at: Time)
    requires ValidConfig(cfg) && IsRun(cfg, Init, acts) && TimeForward(cfg, Init, acts, 0)
    requires at >= SweptBy(acts, 0)
    ensures IsRun(cfg, Init, Unswept(acts))
    ensures var a, b := After(cfg, Init, Unswept(acts)), After(cfg, Init, acts);
      && a.reqs == b.reqs && a.minted == b.minted
      && BoundGet(found, a.tables.devices, at) == BoundGet(found, b.tables.devices, at)
  {
    DevicesBegin(cfg);
    UnsweptRuns(cfg, Init, Init, acts, 0);
    SameBoundSession(After(cfg, Init, Unswept(acts)).tables.devices, After(cfg, Init, acts).tables.devices,
                     SweptBy(acts, 0), found, at);
  }

  lemma {:induction false} UnsweptHasNone(acts: seq<Action>)
    ensures NoSweep(Unswept(acts))
  {
    if acts != [] { UnsweptHasNone(acts[1..]); }
  }

  /** So the bound on wrong guesses per budget window holds with cleanup running, too. */
  lemma BudgetsSurviveCleanup(cfg: Config, acts: seq<Action>, b: Bucket, w: Time)
    requires ValidConfig(cfg) && IsRun(cfg, Init, acts) && TimeForward(cfg, Init, acts, 0) && IsFailureBucket(b)
    ensures BudgetWindows.WrongGuesses(After(cfg, Init, acts).reqs, b, w) <= MaxFailures(cfg, b)
  {
    CleanupIsInvisible(cfg, acts, None, SweptBy(acts, 0));
    UnsweptHasNone(acts);
    BudgetWindows.GuessesPerWindow(cfg, Unswept(acts), b, w);
  }
}

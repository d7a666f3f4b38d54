/**
 * Who may replace a PIN: every replacement goes back to a consumed email code
 * (src/device-auth/index.ts:925-1010, src/routes.ts:91-125).
 */
module Provenance {
  import opened Basics
  import opened PinCredential
  import opened Tables
  import opened Routes
  import opened Runs

  // ----- one request -----

  predicate RouteOfPc(route: Route, pc: Pc) {
    match pc
    case Starting(_) => route.EmailStart?
    case Gating(_) => route.EmailVerify?
    case Guessing(_) => route.EmailVerify?
    case Entering(_) => route.EmailVerify?
    case SettingPin(_) => route.SetPin?
    case LoggingIn(_) => route.PinLogin?
    case Finished(_) => true
    case Crashed => true
  }

  /** The gate of `/pin`: a session of the account whose email verification is at most `freshMs` old. */
  predicate PassedGate(cfg: Config, r: Request) {
    && r.session.Some? && r.session.value.userId == r.account && r.session.value.emailVerifiedAt.Some?
    && r.now - r.session.value.emailVerifiedAt.value <= cfg.freshMs
  }

  predicate Entitled(e: Entry) { e.t.consumed && e.r.input.resolved == Some(e.r.account) }

  predicate ProvInv(cfg: Config, e: Entry) {
    && RouteOfPc(e.r.input.route, e.r.pc)
    && (e.t.consumed ==> e.r.input.route.EmailVerify?)
    && (e.r.pc == Guessing(VerifyRefund) || e.r.pc.Entering? ==> Entitled(e))
    && (e.r.pc == SettingPin(PinReplace) || e.r.pc == SettingPin(PinEndSessions) ==> PassedGate(cfg, e.r))
    && (e.t.replaced.Some? ==>
          && PassedGate(cfg, e.r) && e.t.replaced == Some(e.r.account)
          && (e.r.pc == SettingPin(PinEndSessions) || e.r.pc.Finished? || e.r.pc.Crashed?))
  }

  lemma ProvInvBegins(cfg: Config, input: Input, now: Time)
    ensures ProvInv(cfg, Entry(Begin(cfg, input, now), NoTrace))
  {}

  lemma ProvInvDb(cfg: Config, e: Entry, st: Statement, result: Result, epoch: nat)
    requires ProvInv(cfg, e) && Emit(cfg, e.r) == Db(st)
    ensures ProvInv(cfg, Entry(ResumeDb(cfg, e.r.(retried := false), result), Record(e.t, st, result, epoch)))
    ensures ProvInv(cfg, Entry(To(e.r.(retried := false), Crashed), Record(e.t, st, result, epoch)))
  {
    hide Record, EmitStart, EmitGate, EmitGuess, EmitEnter, EmitSetPin, EmitLogin, ResumeStart, ResumeGate,
         ResumeGuess, ResumeEnter, ResumeSetPin, ResumeLogin, ProvInv;
    ProvInvLost(cfg, e, st, result, epoch);
    match e.r.pc
    case Starting(at) => ProvInvStart(cfg, e, at, st, result, epoch);
    case Gating(at) => ProvInvGate(cfg, e, at, st, result, epoch);
    case Guessing(at) => ProvInvGuess(cfg, e, at, st, result, epoch);
    case Entering(at) => ProvInvEnter(cfg, e, at, st, result, epoch);
    case SettingPin(at) => ProvInvSetPin(cfg, e, at, st, result, epoch);
    case LoggingIn(at) => ProvInvLogin(cfg, e, at, st, result, epoch);
  }

  lemma ProvInvLost(cfg: Config, e: Entry, st: Statement, result: Result, epoch: nat)
    requires ProvInv(cfg, e) && Emit(cfg, e.r) == Db(st)
    ensures ProvInv(cfg, Entry(To(e.r.(retried := false), Crashed), Record(e.t, st, result, epoch)))
  {
    hide NewDeviceRow, Enroll;
  }

  lemma ProvInvStart(cfg: Config, e: Entry, at: StartPc, st: Statement, result: Result, epoch: nat)
    requires ProvInv(cfg, e) && e.r.pc == Starting(at) && EmitStart(cfg, e.r, at) == Db(st)
    ensures ProvInv(cfg, Entry(ResumeStart(cfg, e.r.(retried := false), at, result), Record(e.t, st, result, epoch)))
  {
    hide RetryAfterSec, Presents;
    hide Record, MaxFailures, FailureBucket;
    RecordWrites(e.t, st, result, epoch);
    assert !st.ConsumeEmailCode? && !st.ReplaceCredential?;
    hide EmitStart;
  }

  lemma ProvInvGate(cfg: Config, e: Entry, at: GatePc, st: Statement, result: Result, epoch: nat)
    requires ProvInv(cfg, e) && e.r.pc == Gating(at) && EmitGate(cfg, e.r, at) == Db(st)
    ensures ProvInv(cfg, Entry(ResumeGate(cfg, e.r.(retried := false), at, result), Record(e.t, st, result, epoch)))
  {
    hide RetryAfterSec, BreakerOpen, DeviceLive, Presents;
    hide Record, MaxFailures, FailureBucket;
    RecordWrites(e.t, st, result, epoch);
    assert !st.ConsumeEmailCode? && !st.ReplaceCredential?;
    hide EmitGate;
  }

  lemma ProvInvGuess(cfg: Config, e: Entry, at: GuessPc, st: Statement, result: Result, epoch: nat)
    requires ProvInv(cfg, e) && e.r.pc == Guessing(at) && EmitGuess(cfg, e.r, at) == Db(st)
    ensures ProvInv(cfg, Entry(ResumeGuess(cfg, e.r.(retried := false), at, result), Record(e.t, st, result, epoch)))
  {
    hide CodeMatches;
  }

  lemma ProvInvEnter(cfg: Config, e: Entry, at: EnterPc, st: Statement, result: Result, epoch: nat)
    requires ProvInv(cfg, e) && e.r.pc == Entering(at) && EmitEnter(cfg, e.r, at) == Db(st)
    ensures ProvInv(cfg, Entry(ResumeEnter(e.r.(retried := false), at, result), Record(e.t, st, result, epoch)))
  {
    hide DeviceLive, NewDeviceRow;
    hide Record;
    RecordWrites(e.t, st, result, epoch);
  }

  lemma ProvInvSetPin(cfg: Config, e: Entry, at: PinPc, st: Statement, result: Result, epoch: nat)
    requires ProvInv(cfg, e) && e.r.pc == SettingPin(at) && EmitSetPin(cfg, e.r, at) == Db(st)
    ensures ProvInv(cfg, Entry(ResumeSetPin(cfg, e.r.(retried := false), at, result), Record(e.t, st, result, epoch)))
  {
    hide Enroll;
  }

  lemma ProvInvLogin(cfg: Config, e: Entry, at: LoginPc, st: Statement, result: Result, epoch: nat)
    requires ProvInv(cfg, e) && e.r.pc == LoggingIn(at) && EmitLogin(cfg, e.r, at) == Db(st)
    ensures ProvInv(cfg, Entry(ResumeLogin(cfg, e.r.(retried := false), at, result), Record(e.t, st, result, epoch)))
  {
    hide RetryAfterSec, Verify, Enroll, DeviceLive;
    hide Record;
    RecordWrites(e.t, st, result, epoch);
    assert !st.ConsumeEmailCode? && !st.ReplaceCredential?;
    hide EmitLogin, Presents;
  }

  lemma ProvInvOther(cfg: Config, e: Entry, found: Option<Session>, told: bool)
    requires ProvInv(cfg, e) && !Emit(cfg, e.r).Db?
    ensures ProvInv(cfg, e.(r := AfterOther(cfg, e.r, Emit(cfg, e.r), found, told)))
  {
    hide NewDeviceRow, Enroll;
  }

  lemma ProvInvRollBack(cfg: Config, e: Entry, retryable: bool)
    requires ProvInv(cfg, e)
    ensures ProvInv(cfg, RollBack(e, retryable))
  {}

  // ----- all requests -----

  /**
   * Request `j` consumed an email code, was resolved to the session's user, and drew this session
   * id at this reading.
   */
  predicate Earned(e: Entry, sid: SessionId, session: Session) {
    && e.t.consumed && e.r.input.route.EmailVerify? && e.r.input.newSession == sid
    && e.r.input.resolved == Some(session.userId) && session.emailVerifiedAt == Some(e.r.now)
  }

  ghost predicate Vouched(reqs: map<nat, Entry>, sid: SessionId, session: Session) {
    session.emailVerifiedAt.Some? ==> exists j :: j in reqs && Earned(reqs[j], sid, session)
  }

  ghost predicate AllVouched(reqs: map<nat, Entry>, minted: map<SessionId, Session>) {
    && (forall sid :: sid in minted ==> Vouched(reqs, sid, minted[sid]))
    && (forall id :: id in reqs && reqs[id].r.session.Some? ==>
          Vouched(reqs, reqs[id].r.input.session, reqs[id].r.session.value))
  }

  ghost predicate OwnSessionIds(reqs: map<nat, Entry>) {
    forall i, j :: i in reqs && j in reqs && reqs[i].r.input.newSession == reqs[j].r.input.newSession ==> i == j
  }

  ghost predicate ProvOk(cfg: Config, s: State) {
    (forall id :: id in s.reqs ==> ProvInv(cfg, s.reqs[id])) && AllVouched(s.reqs, s.minted) && OwnSessionIds(s.reqs)
  }

  /** A request moves: what it brought, its reading and its consumption stay. */
  predicate Grows(e: Entry, e': Entry) {
    e'.r.input == e.r.input && e'.r.now == e.r.now && (e.t.consumed ==> e'.t.consumed)
  }

  lemma VouchedStays(reqs: map<nat, Entry>, id: nat, e: Entry, sid: SessionId, session: Session)
    requires Vouched(reqs, sid, session) && (id in reqs ==> Grows(reqs[id], e))
    ensures Vouched(reqs[id := e], sid, session)
  {
    if session.emailVerifiedAt.Some? {
      var j :| j in reqs && Earned(reqs[j], sid, session);
      assert Earned(reqs[id := e][j], sid, session);
    }
  }

  /** One request moves; the session it carries, if new, is one that was minted. */
  lemma ProvMoves(cfg: Config, s: State, id: nat, e: Entry)
    requires ProvOk(cfg, s) && id in s.reqs && Grows(s.reqs[id], e) && ProvInv(cfg, e)
    requires e.r.session == s.reqs[id].r.session
      || (e.r.session.Some? ==> e.r.input.session in s.minted && e.r.session.value == s.minted[e.r.input.session])
    ensures ProvOk(cfg, s.(reqs := s.reqs[id := e]))
  {
    var reqs' := s.reqs[id := e];
    forall sid | sid in s.minted ensures Vouched(reqs', sid, s.minted[sid]) {
      VouchedStays(s.reqs, id, e, sid, s.minted[sid]);
    }
    forall j | j in reqs' && reqs'[j].r.session.Some?
      ensures Vouched(reqs', reqs'[j].r.input.session, reqs'[j].r.session.value)
    {
      VouchedStays(s.reqs, id, e, reqs'[j].r.input.session, reqs'[j].r.session.value);
    }
  }

  /** A minted session carries an email verification only if its request earned one. */
  lemma ProvMints(cfg: Config, s: State, id: nat)
    requires ProvOk(cfg, s) && id in s.reqs && Emit(cfg, s.reqs[id].r).MintSession?
    ensures var c := Emit(cfg, s.reqs[id].r); ProvOk(cfg, s.(minted := s.minted[c.sid := c.session]))
  {
    var c := Emit(cfg, s.reqs[id].r);
    assert ProvInv(cfg, s.reqs[id]);
    if c.session.emailVerifiedAt.Some? { assert Earned(s.reqs[id], c.sid, c.session); }
  }

  lemma ProvOther(cfg: Config, s: State, id: nat, told: bool, visible: bool)
    requires ProvOk(cfg, s) && id in s.reqs && !Emit(cfg, s.reqs[id].r).Db?
    ensures ProvOk(cfg, LandOther(cfg, s, id, Emit(cfg, s.reqs[id].r), told, visible))
  {
    var e, c := s.reqs[id], Emit(cfg, s.reqs[id].r);
    var found := SessionFound(s, c, visible);
    var e' := e.(r := AfterOther(cfg, e.r, c, found, told));
    assert ProvInv(cfg, e);
    ProvInvOther(cfg, e, found, told);
    CarriesWhatItRead(cfg, e, found, told);
    ProvMoves(cfg, s, id, e');
    if c.MintSession? {
      ProvMints(cfg, s, id);
      ProvMoves(cfg, s.(minted := s.minted[c.sid := c.session]), id, e');
    }
  }

  lemma CarriesWhatItRead(cfg: Config, e: Entry, found: Option<Session>, told: bool)
    requires !Emit(cfg, e.r).Db?
    ensures var r := AfterOther(cfg, e.r, Emit(cfg, e.r), found, told);
      r.session == e.r.session || (r.session == found && Emit(cfg, e.r) == ReadSession(e.r.input.session))
  {}

  /** No answer from the database changes the session a request carries, or undoes a consumption. */
  lemma DbKeepsSession(cfg: Config, r: Request, a: Result)
    ensures ResumeDb(cfg, r, a).session == r.session
  {
    hide ResumeStart, ResumeGate, ResumeGuess, ResumeEnter, ResumeSetPin, ResumeLogin;
  }

  /** Whatever a statement returned, told or not, its request only grows. */
  lemma DbGrows(cfg: Config, e: Entry, st: Statement, result: Result, epoch: nat, told: bool)
    requires ProvInv(cfg, e) && Emit(cfg, e.r) == Db(st)
    ensures var r := e.r.(retried := false);
      var e' := Entry(if told then ResumeDb(cfg, r, result) else To(r, Crashed), Record(e.t, st, result, epoch));
      Grows(e, e') && ProvInv(cfg, e') && e'.r.session == e.r.session
  {
    ProvInvDb(cfg, e, st, result, epoch);
    DbKeepsSession(cfg, e.r.(retried := false), result);
  }

  lemma ProvDb(cfg: Config, s: State, id: nat, st: Statement, told: bool)
    requires ProvOk(cfg, s) && id in s.reqs && Emit(cfg, s.reqs[id].r) == Db(st)
    ensures ProvOk(cfg, LandDb(cfg, s, id, st, told))
  {
    var e, result, s' := s.reqs[id], Exec(s.tables, st).1, LandDb(cfg, s, id, st, told);
    assert ProvInv(cfg, e);
    DbGrows(cfg, e, st, result, EpochOf(s, e.r.input.email), told);
    ProvMoves(cfg, s, id, s'.reqs[id]);
  }

  lemma ProvStep(cfg: Config, s: State, a: Action)
    requires ProvOk(cfg, s) && Enabled(s, a)
    ensures ProvOk(cfg, Next(cfg, s, a))
  {
    match a
    case Arrive(id, input, now) => ProvArrive(cfg, s, id, input, now);
    case Land(id, fate, visible) =>
      var c := Emit(cfg, s.reqs[id].r);
      if fate.RolledBack? {
        assert ProvInv(cfg, s.reqs[id]);
        ProvInvRollBack(cfg, s.reqs[id], fate.retryable);
        ProvMoves(cfg, s, id, RollBack(s.reqs[id], fate.retryable));
      } else if c.Db? {
        ProvDb(cfg, s, id, c.statement, fate.Committed?);
      } else {
        ProvOther(cfg, s, id, fate.Committed?, visible);
      }
    case OwnerRevokes(st) =>
    case AppMints(_, _) =>
    case Sweep(_, _) =>
  }

  lemma BeginsBare(cfg: Config, input: Input, now: Time)
    ensures Begin(cfg, input, now).session.None? && Begin(cfg, input, now).input == input
  {}

  lemma ProvArrive(cfg: Config, s: State, id: nat, input: Input, now: Time)
    requires ProvOk(cfg, s) && id !in s.reqs && FreshIds(s, input)
    ensures ProvOk(cfg, s.(reqs := s.reqs[id := Entry(Begin(cfg, input, now), NoTrace)]))
  {
    hide Begin, Earned, ProvInv, Vouched;
    var e := Entry(Begin(cfg, input, now), NoTrace);
    var reqs' := s.reqs[id := e];
    BeginsBare(cfg, input, now);
    ProvInvBegins(cfg, input, now);
    forall sid | sid in s.minted ensures Vouched(reqs', sid, s.minted[sid]) {
      VouchedStays(s.reqs, id, e, sid, s.minted[sid]);
    }
    forall j | j in reqs' && reqs'[j].r.session.Some?
      ensures Vouched(reqs', reqs'[j].r.input.session, reqs'[j].r.session.value)
    {
      VouchedStays(s.reqs, id, e, reqs'[j].r.input.session, reqs'[j].r.session.value);
    }
  }

  lemma {:induction false} ProvenanceHolds(cfg: Config, s: State, acts: seq<Action>)
    requires ProvOk(cfg, s) && IsRun(cfg, s, acts)
    ensures ProvOk(cfg, After(cfg, s, acts))
    decreases |acts|
  {
    if acts != [] {
      ProvStep(cfg, s, acts[0]);
      ProvenanceHolds(cfg, Next(cfg, s, acts[0]), acts[1..]);
    }
  }

  /** Request `j`'s consumed email code is what entitled request `id` to replace the PIN. */
  predicate Grants(cfg: Config, source: Entry, e: Entry) {
    && source.t.consumed && source.r.input.route.EmailVerify?
    && source.r.input.resolved == e.t.replaced
    && source.r.input.newSession == e.r.input.session
    && e.r.now - source.r.now <= cfg.freshMs
  }

  ghost predicate GrantsAlone(cfg: Config, reqs: map<nat, Entry>, j: nat, id: nat)
    requires id in reqs
  {
    j in reqs && forall k :: k in reqs ==> (Grants(cfg, reqs[k], reqs[id]) <==> k == j)
  }

  /**
   * In every run, cleanup included: behind every PIN replaced there is exactly
   * one `/email/verify` that consumed a code, was resolved to that account at
   * most `freshMs` earlier, and drew the session presented. So a session drawn
   * by `/pin/login` never replaces a PIN.
   */
  lemma ReplacementsAreEarned(cfg: Config, acts: seq<Action>, id: nat)
    requires IsRun(cfg, Init, acts)
    requires id in After(cfg, Init, acts).reqs && After(cfg, Init, acts).reqs[id].t.replaced.Some?
    ensures var reqs := After(cfg, Init, acts).reqs;
      && (exists j :: GrantsAlone(cfg, reqs, j, id))
      && (forall k :: k in reqs && reqs[k].r.input.newSession == reqs[id].r.input.session ==> Grants(cfg, reqs[k], reqs[id]))
      && (forall k :: k in reqs && reqs[k].r.input.route.PinLogin? ==>
            reqs[k].r.input.newSession != reqs[id].r.input.session)
  {
    ProvenanceHolds(cfg, Init, acts);
    var reqs := After(cfg, Init, acts).reqs;
    var e := reqs[id];
    assert ProvInv(cfg, e);
    var j :| j in reqs && Earned(reqs[j], e.r.input.session, e.r.session.value);
    assert Grants(cfg, reqs[j], e);
    assert GrantsAlone(cfg, reqs, j, id);
  }
}

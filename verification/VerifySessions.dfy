/**
 * What a session of `/email/verify` takes (src/device-auth/index.ts:925-965),
 * over every run: the code, the user, the lifted lockout, and the device it is
 * bound to.
 */
module VerifySessions {
  import opened Basics
  import opened PinCredential
  import opened Tables
  import opened Routes
  import opened Runs
  import opened Provenance

  // ----- one request -----

  predicate VerifiedPc(pc: Pc) { pc.Finished? && pc.response.Verified? }

  predicate PastUnlock(pc: Pc) {
    VerifiedPc(pc) || (pc.Entering? && !pc.enter.VerifyPassed? && !pc.enter.VerifyUnlock?)
  }

  predicate PastDevice(pc: Pc) { VerifiedPc(pc) || pc == Entering(VerifyMint) || pc == Entering(VerifyPinSet) }

  /** Bound to a device exactly if one is to be trusted: one it extended alive, or one it registered. */
  predicate DeviceEarned(e: Entry) {
    && (e.r.device.Some? <==> e.r.input.trustDevice)
    && (e.r.device.Some? ==> e.r.device == e.t.touched || e.r.device == e.t.registered)
  }

  predicate EnterInv(e: Entry) {
    && (PastUnlock(e.r.pc) ==> e.t.reset == Some(e.r.account))
    && (e.r.pc.Starting? || e.r.pc.Gating? || e.r.pc.Guessing? || (e.r.pc.Entering? && !PastDevice(e.r.pc)) ==>
          e.r.device.None?)
    && (e.r.pc.Entering? && PastUnlock(e.r.pc) && !PastDevice(e.r.pc) ==> e.r.input.trustDevice)
    && (PastDevice(e.r.pc) ==> DeviceEarned(e))
  }

  lemma EnterBegins(cfg: Config, input: Input, now: Time)
    ensures EnterInv(Entry(Begin(cfg, input, now), NoTrace))
  {}

  /** Nothing of another stretch reaches the login but the refund of a right code's slot. */
  predicate NotEntered(r: Request, r': Request) {
    && !VerifiedPc(r'.pc) && (r'.pc.Entering? ==> !PastUnlock(r'.pc))
    && (r'.pc.Starting? || r'.pc.Gating? || r'.pc.Guessing? || r'.pc.Entering? ==>
          r'.device == r.device && !r.pc.LoggingIn?)
    && (r.pc.SettingPin? ==> !r'.pc.Starting? && !r'.pc.Gating? && !r'.pc.Guessing? && !r'.pc.Entering?)
  }

  lemma StartNotEntered(cfg: Config, r: Request, at: StartPc, a: Result)
    requires r.pc == Starting(at)
    ensures NotEntered(r, ResumeStart(cfg, r, at, a))
  {
    hide RetryAfterSec, PresentsDeviceOfAddress, MaxFailures, FailureBucket;
  }

  lemma GateNotEntered(cfg: Config, r: Request, at: GatePc, a: Result)
    requires r.pc == Gating(at)
    ensures NotEntered(r, ResumeGate(cfg, r, at, a))
  {
    hide RetryAfterSec, BreakerOpen, PresentsDeviceOfAddress;
  }

  lemma GuessNotEntered(cfg: Config, r: Request, at: GuessPc, a: Result)
    requires r.pc == Guessing(at)
    ensures NotEntered(r, ResumeGuess(cfg, r, at, a))
  {
    hide CodeMatches;
  }

  lemma LoginNotEntered(cfg: Config, r: Request, at: LoginPc, a: Result)
    requires r.pc == LoggingIn(at)
    ensures NotEntered(r, ResumeLogin(cfg, r, at, a))
  {
    hide RetryAfterSec, Presents, Verify;
  }

  lemma Elsewhere(cfg: Config, r: Request, a: Result)
    requires !r.pc.Entering? && !r.pc.Finished? && !r.pc.Crashed?
    ensures NotEntered(r, ResumeDb(cfg, r, a))
  {
    hide ResumeStart, ResumeGate, ResumeGuess, ResumeLogin, NotEntered;
    match r.pc
    case Starting(at) => StartNotEntered(cfg, r, at, a);
    case Gating(at) => GateNotEntered(cfg, r, at, a);
    case Guessing(at) => GuessNotEntered(cfg, r, at, a);
    case LoggingIn(at) => LoginNotEntered(cfg, r, at, a);
    case _ => PinNotEntered(cfg, r, a);
  }

  lemma PinNotEntered(cfg: Config, r: Request, a: Result)
    requires r.pc.SettingPin?
    ensures NotEntered(r, ResumeDb(cfg, r, a))
  {}

  lemma EnterCalls(cfg: Config, r: Request, st: Statement)
    requires Emit(cfg, r) == Db(st)
    ensures !r.pc.Finished? && !r.pc.Crashed?
    ensures r.pc == Entering(VerifyUnlock) ==> st == ResetLoginGuard(r.account, r.now)
    ensures r.pc == Entering(VerifyTouchTrusted) ==> st.TouchDevice? && st.deviceId == PresentedId(r)
    ensures r.pc == Entering(VerifyRegister) ==> st.CreateDevice? && st.deviceId == r.input.newDevice
    ensures r.pc.Entering? && r.pc != Entering(VerifyUnlock) ==> !st.ResetLoginGuard? && !st.ReplaceCredential?
    ensures r.pc.Entering? && r.pc != Entering(VerifyTouchTrusted) ==> !st.TouchDevice?
    ensures r.pc.Entering? && r.pc != Entering(VerifyRegister) ==> !st.CreateDevice?
  {}

  /** What a step of the login leaves in the trace. */
  predicate StepTraced(e: Entry, at: EnterPc, a: Result, t: Trace) {
    && t.reset == (if at.VerifyUnlock? then Some(e.r.account) else e.t.reset)
    && (at.VerifyTouchTrusted? && a.Touched? && a.idleExpiresAt.Some? ==> t.touched == Some(PresentedId(e.r)))
    && (!at.VerifyTouchTrusted? ==> t.touched == e.t.touched)
    && (at.VerifyRegister? && a.Done? ==> t.registered == Some(e.r.input.newDevice))
    && (!at.VerifyRegister? ==> t.registered == e.t.registered)
  }

  lemma StepTraces(cfg: Config, e: Entry, at: EnterPc, st: Statement, a: Result, epoch: nat)
    requires e.r.pc == Entering(at) && Emit(cfg, e.r) == Db(st)
    ensures StepTraced(e, at, a, Record(e.t, st, a, epoch))
  {
    EnterCalls(cfg, e.r, st);
    RecordWrites(e.t, st, a, epoch);
    hide Emit;
  }

  lemma Steps(e: Entry, at: EnterPc, a: Result, t: Trace)
    requires EnterInv(e) && e.r.pc == Entering(at) && StepTraced(e, at, a, t)
    ensures EnterInv(Entry(ResumeEnter(e.r.(retried := false), at, a), t))
  {
    hide Presents;
  }

  lemma EnterDb(cfg: Config, e: Entry, st: Statement, a: Result, epoch: nat, told: bool)
    requires EnterInv(e) && Emit(cfg, e.r) == Db(st)
    ensures var r := e.r.(retried := false);
      EnterInv(Entry(if told then ResumeDb(cfg, r, a) else To(r, Crashed), Record(e.t, st, a, epoch)))
  {
    EnterCalls(cfg, e.r, st);
    if told && e.r.pc.Entering? {
      hide Emit, ResumeEnter, Record, EnterInv, StepTraced;
      StepTraces(cfg, e, e.r.pc.enter, st, a, epoch);
      Steps(e, e.r.pc.enter, a, Record(e.t, st, a, epoch));
    } else if told {
      Elsewhere(cfg, e.r.(retried := false), a);
      hide Emit, Record, ResumeDb;
    }
  }

  lemma EnterOther(cfg: Config, e: Entry, found: Option<Session>, told: bool)
    requires EnterInv(e) && !Emit(cfg, e.r).Db? && !e.r.pc.Finished? && !e.r.pc.Crashed?
    ensures EnterInv(e.(r := AfterOther(cfg, e.r, Emit(cfg, e.r), found, told)))
  {
    hide NewDeviceRow, Enroll;
  }

  lemma EnterRollBack(e: Entry, retryable: bool)
    requires EnterInv(e)
    ensures EnterInv(RollBack(e, retryable))
  {}

  // ----- all requests -----

  /** What a minted session of `/email/verify` took. */
  predicate TookAll(e: Entry, session: Session) {
    && (e.r.pc == Entering(VerifyPinSet) || e.r.pc.Finished? || e.r.pc.Crashed?)
    && e.t.consumed && e.r.input.resolved == Some(e.r.account) && e.t.reset == Some(e.r.account)
    && DeviceEarned(e) && session == Session(e.r.account, Some(e.r.now), e.r.device)
  }

  ghost predicate EntersOk(s: State) {
    && (forall id :: id in s.reqs ==> EnterInv(s.reqs[id]))
    && (forall id ::
          id in s.reqs && s.reqs[id].r.input.route.EmailVerify? && s.reqs[id].r.input.newSession in s.minted ==>
            TookAll(s.reqs[id], s.minted[s.reqs[id].r.input.newSession]))
  }

  /** After the mint only a lookup is left. */
  lemma LastLookup(cfg: Config, e: Entry, session: Session, st: Statement, a: Result, epoch: nat, told: bool)
    requires TookAll(e, session) && Emit(cfg, e.r) == Db(st)
    ensures var r := e.r.(retried := false);
      TookAll(Entry(if told then ResumeDb(cfg, r, a) else To(r, Crashed), Record(e.t, st, a, epoch)), session)
  {}

  lemma LookedUp(e: Entry, session: Session, retryable: bool)
    requires TookAll(e, session)
    ensures TookAll(RollBack(e, retryable), session)
  {}

  lemma MintTook(cfg: Config, e: Entry, found: Option<Session>, told: bool)
    requires EnterInv(e) && ProvInv(cfg, e) && !e.r.pc.Finished? && !e.r.pc.Crashed? && !Emit(cfg, e.r).Db?
    ensures var c, e' := Emit(cfg, e.r), e.(r := AfterOther(cfg, e.r, Emit(cfg, e.r), found, told));
      && e'.r.input == e.r.input && (c.MintSession? ==> c.sid == e.r.input.newSession)
      && (c.MintSession? && e.r.input.route.EmailVerify? ==> TookAll(e', c.session))
      && (!c.MintSession? && e.r.input.route.EmailVerify? ==> e.r.pc != Entering(VerifyPinSet))
  {
    hide NewDeviceRow, Enroll;
  }

  /** One request moves, and the session it minted, if it had, is still one it earned. */
  lemma EntersMove(s: State, id: nat, e: Entry, s': State)
    requires EntersOk(s) && EnterInv(e) && id in s.reqs && s'.reqs == s.reqs[id := e] && s'.minted == s.minted
    requires e.r.input == s.reqs[id].r.input
    requires e.r.input.route.EmailVerify? && e.r.input.newSession in s.minted ==>
      TookAll(e, s.minted[e.r.input.newSession])
    ensures EntersOk(s')
  {
    hide EnterInv, TookAll;
  }

  lemma EntersDb(cfg: Config, s: State, id: nat, st: Statement, told: bool)
    requires EntersOk(s) && id in s.reqs && Emit(cfg, s.reqs[id].r) == Db(st)
    ensures EntersOk(LandDb(cfg, s, id, st, told))
  {
    hide Emit, ResumeDb, Record, Exec, EnterInv, TookAll;
    var e, a, s' := s.reqs[id], Exec(s.tables, st).1, LandDb(cfg, s, id, st, told);
    var epoch := EpochOf(s, e.r.input.email);
    assert EnterInv(e);
    EnterDb(cfg, e, st, a, epoch, told);
    if e.r.input.route.EmailVerify? && e.r.input.newSession in s.minted {
      LastLookup(cfg, e, s.minted[e.r.input.newSession], st, a, epoch, told);
    }
    EntersMove(s, id, s'.reqs[id], s');
  }

  lemma EntersOther(cfg: Config, s: State, id: nat, told: bool, visible: bool)
    requires EntersOk(s) && ProvOk(cfg, s) && Waiting(s, id) && !Emit(cfg, s.reqs[id].r).Db?
    ensures EntersOk(LandOther(cfg, s, id, Emit(cfg, s.reqs[id].r), told, visible))
  {
    hide Emit, AfterOther, SessionFound, EnterInv, TookAll, ProvInv;
    var e, c := s.reqs[id], Emit(cfg, s.reqs[id].r);
    var s' := LandOther(cfg, s, id, c, told, visible);
    assert EnterInv(e) && ProvInv(cfg, e);
    EnterOther(cfg, e, SessionFound(s, c, visible), told);
    MintTook(cfg, e, SessionFound(s, c, visible), told);
    forall j | j in s'.reqs && s'.reqs[j].r.input.route.EmailVerify? && s'.reqs[j].r.input.newSession in s'.minted
      ensures TookAll(s'.reqs[j], s'.minted[s'.reqs[j].r.input.newSession])
    {
      if j == id && !c.MintSession? {
        TookIsLast(e, s.minted[e.r.input.newSession]);
        assert false;
      }
    }
  }

  lemma TookIsLast(e: Entry, session: Session)
    requires TookAll(e, session)
    ensures e.r.pc == Entering(VerifyPinSet) || e.r.pc.Finished? || e.r.pc.Crashed?
  {}

  lemma EntersStep(cfg: Config, s: State, a: Action)
    requires EntersOk(s) && ProvOk(cfg, s) && Enabled(s, a)
    ensures EntersOk(Next(cfg, s, a))
  {
    hide Emit, Begin, ResumeDb, EnterInv, Exec, ProvOk, Record, AfterOther, TookAll;
    match a
    case Arrive(id, input, now) =>
      BeginsBare(cfg, input, now);
      EnterBegins(cfg, input, now);
    case Land(id, fate, visible) => EntersLand(cfg, s, id, fate, visible);
    case _ =>
  }

  lemma EntersLand(cfg: Config, s: State, id: nat, fate: Fate, visible: bool)
    requires EntersOk(s) && ProvOk(cfg, s) && Waiting(s, id)
    ensures EntersOk(Next(cfg, s, Land(id, fate, visible)))
  {
    hide Emit, ResumeDb, EnterInv, Exec, ProvOk, Record, AfterOther, TookAll;
    var e, c := s.reqs[id], Emit(cfg, s.reqs[id].r);
    if fate.RolledBack? {
      assert EnterInv(e);
      EnterRollBack(e, fate.retryable);
      if e.r.input.route.EmailVerify? && e.r.input.newSession in s.minted {
        LookedUp(e, s.minted[e.r.input.newSession], fate.retryable);
      }
      EntersMove(s, id, RollBack(e, fate.retryable), Next(cfg, s, Land(id, fate, visible)));
    } else if c.Db? {
      EntersDb(cfg, s, id, c.statement, fate.Committed?);
    } else {
      EntersOther(cfg, s, id, fate.Committed?, visible);
    }
  }

  lemma {:induction false} EntersHold(cfg: Config, s: State, acts: seq<Action>)
    requires EntersOk(s) && ProvOk(cfg, s) && IsRun(cfg, s, acts)
    ensures EntersOk(After(cfg, s, acts))
    decreases |acts|
  {
    hide EntersOk, ProvOk, Next, Enabled;
    if acts != [] {
      EntersStep(cfg, s, acts[0]);
      ProvStep(cfg, s, acts[0]);
      EntersHold(cfg, Next(cfg, s, acts[0]), acts[1..]);
    }
  }

  /**
   * Every run, cleanup included: a session drawn by `/email/verify` exists
   * only after its code was used up, for the user it was resolved to, with
   * that user's lockout lifted; it carries the request's own reading as its
   * email verification, and a device exactly if one was to be trusted: one
   * this request found alive and extended, or one it registered.
   */
  lemma VerifiedSessionsAreEarned(cfg: Config, acts: seq<Action>, id: nat)
    requires IsRun(cfg, Init, acts)
    requires var s := After(cfg, Init, acts);
      id in s.reqs && s.reqs[id].r.input.route.EmailVerify? && s.reqs[id].r.input.newSession in s.minted
    ensures var s := After(cfg, Init, acts); var e := s.reqs[id];
      && e.t.consumed && e.r.input.resolved == Some(e.r.account) && e.t.reset == Some(e.r.account) && DeviceEarned(e)
      && s.minted[e.r.input.newSession] == Session(e.r.account, Some(e.r.now), e.r.device)
  {
    EntersHold(cfg, Init, acts);
  }
}

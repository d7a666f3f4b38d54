/**
 * What a PIN is compared with, and what a session of `/pin/login` takes
 * (src/device-auth/index.ts:1063-1103), over every run.
 */
module PinDigits {
  import opened Basics
  import opened PinCredential
  import opened Tables
  import opened Routes
  import opened Runs
  import opened Answers
  import opened Provenance
  import LoginAnswers

  // ----- one request -----

  predicate Comparing(at: LoginPc) { at.LoginIp? || at.LoginDevice? || at.LoginCredential? || at.LoginReserve? }

  predicate BeforeCompare(pc: Pc) { !pc.Finished? && !pc.Crashed? && (pc.LoggingIn? ==> Comparing(pc.login)) }

  predicate LoggedInPc(pc: Pc) { pc.Finished? && pc.response.LoggedIn? }

  /** Past a right PIN. */
  predicate PastPin(pc: Pc) {
    || LoggedInPc(pc) || pc == LoggingIn(LoginReset) || pc == LoggingIn(LoginMark) || pc == LoggingIn(LoginTouch)
    || pc == LoggingIn(LoginMint)
  }

  predicate PastReset(pc: Pc) { PastPin(pc) && pc != LoggingIn(LoginReset) }

  predicate PastUser(pc: Pc) { PastReset(pc) && pc != LoggingIn(LoginMark) }

  predicate PastTouch(pc: Pc) { PastUser(pc) && pc != LoggingIn(LoginTouch) }

  /**
   * A comparison says whether the digits open the material read, on an attempt
   * taken; and each step of a login follows the one before it.
   */
  predicate PinInv(cfg: Config, e: Entry) {
    && (e.r.pinChecked.Some? ==>
          && (e.r.pinChecked.value <==> Opens(cfg.ring, e.r.stored, e.r.input.pin))
          && e.t.attempted == Some(e.r.account))
    && (BeforeCompare(e.r.pc) ==> e.r.pinChecked.None?)
    && (PastPin(e.r.pc) ==>
          && e.r.pinChecked == Some(true)
          && e.r.upgraded == if Stale(cfg, e.r.stored) then Some(Stored(cfg, e.r.input)) else None)
    && (PastReset(e.r.pc) ==> e.t.reset == Some(e.r.account))
    && (PastUser(e.r.pc) ==> e.r.input.resolved == Some(e.r.account))
    && (PastTouch(e.r.pc) ==> e.t.touched == Some(PresentedId(e.r)))
    && (e.r.pc.Finished? && e.r.pc.response.InvalidPin? ==> e.r.pinChecked == Some(false))
  }

  /** Another route's answer. */
  predicate OtherAnswer(r: Request, r': Request) {
    && r'.pinChecked == r.pinChecked && !r'.pc.LoggingIn?
    && (r'.pc.Finished? ==> !r'.pc.response.LoggedIn? && !r'.pc.response.InvalidPin?)
  }

  lemma StartElsewhere(cfg: Config, r: Request, at: StartPc, a: Result)
    requires r.pc == Starting(at)
    ensures OtherAnswer(r, ResumeStart(cfg, r, at, a))
  {
    hide RetryAfterSec, PresentsDeviceOfAddress, MaxFailures, FailureBucket;
  }

  lemma GateElsewhere(cfg: Config, r: Request, at: GatePc, a: Result)
    requires r.pc == Gating(at)
    ensures OtherAnswer(r, ResumeGate(cfg, r, at, a))
  {
    hide RetryAfterSec, BreakerOpen, PresentsDeviceOfAddress;
  }

  lemma GuessElsewhere(cfg: Config, r: Request, at: GuessPc, a: Result)
    requires r.pc == Guessing(at)
    ensures OtherAnswer(r, ResumeGuess(cfg, r, at, a))
  {
    hide CodeMatches;
  }

  lemma EnterElsewhere(r: Request, at: EnterPc, a: Result)
    requires r.pc == Entering(at)
    ensures OtherAnswer(r, ResumeEnter(r, at, a))
  {
    hide Presents;
  }

  lemma Elsewhere(cfg: Config, r: Request, a: Result)
    requires !r.pc.LoggingIn? && !r.pc.Finished? && !r.pc.Crashed?
    ensures OtherAnswer(r, ResumeDb(cfg, r, a))
  {
    hide ResumeStart, ResumeGate, ResumeGuess, ResumeEnter, OtherAnswer;
    match r.pc
    case Starting(at) => StartElsewhere(cfg, r, at, a);
    case Gating(at) => GateElsewhere(cfg, r, at, a);
    case Guessing(at) => GuessElsewhere(cfg, r, at, a);
    case Entering(at) => EnterElsewhere(r, at, a);
    case _ => SettingElsewhere(cfg, r, a);
  }

  lemma SettingElsewhere(cfg: Config, r: Request, a: Result)
    requires r.pc.SettingPin?
    ensures OtherAnswer(r, ResumeDb(cfg, r, a))
  {}

  /** The request after a statement, told or not. */
  function Moved(cfg: Config, e: Entry, st: Statement, a: Result, epoch: nat, told: bool): Entry {
    var r := e.r.(retried := false);
    Entry(if told then ResumeDb(cfg, r, a) else To(r, Crashed), Record(e.t, st, a, epoch))
  }

  lemma PinBegins(cfg: Config, input: Input, now: Time)
    ensures PinInv(cfg, Entry(Begin(cfg, input, now), NoTrace))
  {}

  /** The statements that take an attempt, clear a guard, or extend a device. */
  lemma PinCalls(cfg: Config, r: Request, st: Statement)
    requires Emit(cfg, r) == Db(st)
    ensures st.ReserveLoginAttempt? <==> r.pc == LoggingIn(LoginReserve)
    ensures st.ReserveLoginAttempt? ==> st.account == r.account
    ensures r.pc == LoggingIn(LoginReset) ==> st == ResetLoginGuard(r.account, r.now)
    ensures r.pc == LoggingIn(LoginTouch) ==> st.TouchDevice? && st.deviceId == PresentedId(r)
    ensures r.pc == LoggingIn(LoginMark) ==> st == MarkCredentialUsed(r.credential, r.now, r.upgraded)
    ensures r.pc.LoggingIn? && r.pc != LoggingIn(LoginReset) ==> !st.ResetLoginGuard? && !st.ReplaceCredential?
    ensures r.pc.LoggingIn? && r.pc != LoggingIn(LoginTouch) ==> !st.TouchDevice?
  {}

  lemma LostPin(cfg: Config, e: Entry, st: Statement, a: Result, epoch: nat)
    requires PinInv(cfg, e) && Emit(cfg, e.r) == Db(st)
    ensures PinInv(cfg, Moved(cfg, e, st, a, epoch, false))
  {
    PinCalls(cfg, e.r, st);
    RecordWrites(e.t, st, a, epoch);
    hide Emit, Record, ResumeDb, Opens, Stale, Stored;
  }

  /** What a step of a login other than the comparison leaves in the trace. */
  predicate StepTraced(e: Entry, at: LoginPc, a: Result, t: Trace) {
    && t.attempted == e.t.attempted && (at.LoginReset? ==> t.reset == Some(e.r.account))
    && (!at.LoginReset? ==> t.reset == e.t.reset)
    && (at.LoginTouch? && a.Touched? && a.idleExpiresAt.Some? ==> t.touched == Some(PresentedId(e.r)))
    && (!at.LoginTouch? ==> t.touched == e.t.touched)
  }

  lemma StepTraces(cfg: Config, e: Entry, at: LoginPc, st: Statement, a: Result, epoch: nat)
    requires e.r.pc == LoggingIn(at) && Emit(cfg, e.r) == Db(st) && !at.LoginReserve?
    ensures StepTraced(e, at, a, Record(e.t, st, a, epoch))
  {
    PinCalls(cfg, e.r, st);
    RecordWrites(e.t, st, a, epoch);
    hide Emit;
  }

  lemma PinSteps(cfg: Config, e: Entry, at: LoginPc, a: Result, t: Trace)
    requires PinInv(cfg, e) && e.r.pc == LoggingIn(at) && !at.LoginReserve? && StepTraced(e, at, a, t)
    ensures PinInv(cfg, Entry(ResumeLogin(cfg, e.r.(retried := false), at, a), t))
  {
    hide RetryAfterSec, Presents, Verify, Opens, Stale, Stored;
  }

  lemma PinJudged(cfg: Config, e: Entry, st: Statement, a: Result, epoch: nat)
    requires PinInv(cfg, e) && e.r.pc == LoggingIn(LoginReserve) && Emit(cfg, e.r) == Db(st)
    ensures PinInv(cfg, Entry(ResumeLogin(cfg, e.r.(retried := false), LoginReserve, a), Record(e.t, st, a, epoch)))
  {
    PinCalls(cfg, e.r, st);
    VerifiesWhenOpen(cfg, e.r.input, e.r.stored);
    hide Emit, Verify, Opens, Stale, Stored;
  }

  lemma PinDb(cfg: Config, e: Entry, st: Statement, a: Result, epoch: nat, told: bool)
    requires PinInv(cfg, e) && Emit(cfg, e.r) == Db(st)
    ensures PinInv(cfg, Moved(cfg, e, st, a, epoch, told))
  {
    if !told {
      hide PinInv;
      LostPin(cfg, e, st, a, epoch);
    } else if e.r.pc.LoggingIn? {
      hide Emit, ResumeLogin, Record, PinInv, StepTraced;
      if e.r.pc.login.LoginReserve? {
        PinJudged(cfg, e, st, a, epoch);
      } else {
        StepTraces(cfg, e, e.r.pc.login, st, a, epoch);
        PinSteps(cfg, e, e.r.pc.login, a, Record(e.t, st, a, epoch));
      }
    } else {
      Running(cfg, e.r, st);
      PinCalls(cfg, e.r, st);
      RecordWrites(e.t, st, a, epoch);
      Elsewhere(cfg, e.r.(retried := false), a);
      hide Emit, Record, ResumeDb, Opens, Stale, Stored;
    }
  }

  lemma Running(cfg: Config, r: Request, st: Statement)
    requires Emit(cfg, r) == Db(st)
    ensures !r.pc.Finished? && !r.pc.Crashed?
  {}

  lemma PinOther(cfg: Config, e: Entry, found: Option<Session>, told: bool)
    requires PinInv(cfg, e) && !Emit(cfg, e.r).Db? && !e.r.pc.Finished? && !e.r.pc.Crashed?
    ensures PinInv(cfg, e.(r := AfterOther(cfg, e.r, Emit(cfg, e.r), found, told)))
  {
    hide NewDeviceRow, Enroll, Opens, Stale, Stored;
  }

  lemma PinRollBack(cfg: Config, e: Entry, retryable: bool)
    requires PinInv(cfg, e)
    ensures PinInv(cfg, RollBack(e, retryable))
  {}

  // ----- all requests -----

  /** This request set that account's PIN, to this material. */
  predicate Sets(cfg: Config, e: Entry, account: AccountId, material: Material) {
    e.t.replaced == Some(account) && material == Stored(cfg, e.r.input)
  }

  ghost predicate SetBySome(cfg: Config, reqs: map<nat, Entry>, account: AccountId, material: Material) {
    exists j :: j in reqs && Sets(cfg, reqs[j], account, material)
  }

  /** Every PIN stored, and every one a login has read, was set by some request for that account. */
  ghost predicate PinsSet(cfg: Config, reqs: map<nat, Entry>, credentials: map<CredentialId, CredentialRow>) {
    forall c :: c in credentials ==> SetBySome(cfg, reqs, credentials[c].accountId, credentials[c].material)
  }

  /** A request that has read its account's PIN. */
  predicate HasRead(r: Request) {
    || r.pinChecked.Some?
    || (r.pc.LoggingIn? && !r.pc.login.LoginIp? && !r.pc.login.LoginDevice? && !r.pc.login.LoginCredential?)
  }

  ghost predicate ReadsSet(cfg: Config, reqs: map<nat, Entry>) {
    forall id :: id in reqs && HasRead(reqs[id].r) ==> SetBySome(cfg, reqs, reqs[id].r.account, reqs[id].r.stored)
  }

  /** What a minted session of `/pin/login` took. */
  predicate Paid(e: Entry, session: Session) {
    && (e.r.pc.Finished? || e.r.pc.Crashed?)
    && e.r.pinChecked == Some(true) && e.t.attempted == Some(e.r.account) && e.t.reset == Some(e.r.account)
    && e.r.input.resolved == Some(e.r.account) && e.t.touched == Some(PresentedId(e.r))
    && session == Session(e.r.account, None, Some(PresentedId(e.r)))
  }

  ghost predicate LoginsPaid(s: State) {
    forall id :: id in s.reqs && s.reqs[id].r.input.route.PinLogin? && s.reqs[id].r.input.newSession in s.minted ==>
      Paid(s.reqs[id], s.minted[s.reqs[id].r.input.newSession])
  }

  ghost predicate PinsOk(cfg: Config, s: State) {
    && (forall id :: id in s.reqs ==> PinInv(cfg, s.reqs[id]))
    && PinsSet(cfg, s.reqs, s.tables.credentials) && ReadsSet(cfg, s.reqs)
  }

  lemma SetStays(cfg: Config, reqs: map<nat, Entry>, id: nat, e: Entry)
    requires id in reqs ==>
      e.r.input == reqs[id].r.input && (reqs[id].t.replaced.Some? ==> e.t.replaced == reqs[id].t.replaced)
    ensures forall account, material ::
      SetBySome(cfg, reqs, account, material) ==> SetBySome(cfg, reqs[id := e], account, material)
  {
    var reqs' := reqs[id := e];
    forall account, material | SetBySome(cfg, reqs, account, material)
      ensures SetBySome(cfg, reqs', account, material)
    {
      var j :| j in reqs && Sets(cfg, reqs[j], account, material);
      assert Sets(cfg, reqs'[j], account, material);
    }
  }

  /** The request that moves has read a PIN that was set, or none; the PINs stored are as they were. */
  lemma PinQuiet(cfg: Config, s: State, id: nat, e: Entry, s': State)
    requires PinsOk(cfg, s) && PinInv(cfg, e) && s'.reqs == s.reqs[id := e]
    requires id in s.reqs ==> e.r.input == s.reqs[id].r.input
    requires id in s.reqs && s.reqs[id].t.replaced.Some? ==> e.t.replaced == s.reqs[id].t.replaced
    requires HasRead(e.r) ==> SetBySome(cfg, s.reqs, e.r.account, e.r.stored)
    requires forall c :: c in s'.tables.credentials ==>
      && c in s.tables.credentials && s'.tables.credentials[c].accountId == s.tables.credentials[c].accountId
      && s'.tables.credentials[c].material == s.tables.credentials[c].material
    ensures PinsOk(cfg, s')
  {
    SetStays(cfg, s.reqs, id, e);
    hide PinInv, SetBySome, Stored;
  }

  /** What a request has read stays what it read; reading is the credential lookup's answer. */
  predicate ReadsOn(e: Entry, e': Entry, a: Result) {
    HasRead(e'.r) ==>
      || (HasRead(e.r) && e'.r.account == e.r.account && e'.r.stored == e.r.stored)
      || (e.r.pc == LoggingIn(LoginCredential) && a.Active? && a.active.Some? && e'.r.account == e.r.account
          && e'.r.stored == a.active.value.row.material)
  }

  lemma ReadingLogin(cfg: Config, e: Entry, at: LoginPc, a: Result, t: Trace)
    requires PinInv(cfg, e) && e.r.pc == LoggingIn(at)
    ensures ReadsOn(e, Entry(ResumeLogin(cfg, e.r.(retried := false), at, a), t), a)
  {
    hide RetryAfterSec, Presents, Verify, Opens, Stale, Stored;
  }

  lemma Reading(cfg: Config, e: Entry, st: Statement, a: Result, epoch: nat, told: bool)
    requires PinInv(cfg, e) && Emit(cfg, e.r) == Db(st)
    ensures ReadsOn(e, Moved(cfg, e, st, a, epoch, told), a)
  {
    Running(cfg, e.r, st);
    if told && e.r.pc.LoggingIn? {
      hide Emit, ResumeLogin, Record, PinInv, ReadsOn;
      ReadingLogin(cfg, e, e.r.pc.login, a, Record(e.t, st, a, epoch));
    } else if told {
      Elsewhere(cfg, e.r.(retried := false), a);
      hide Emit, Record, ResumeDb, Opens, Stale, Stored;
    }
  }

  /** What a PIN set under the run's own key and cost needs: nothing of a re-hash. */
  lemma SetIsCurrent(cfg: Config, reqs: map<nat, Entry>, account: AccountId, material: Material)
    requires SetBySome(cfg, reqs, account, material)
    ensures !Stale(cfg, material)
  {}

  predicate SameMaterial(credentials: map<CredentialId, CredentialRow>, credentials': map<CredentialId, CredentialRow>) {
    forall c :: c in credentials' ==>
      && c in credentials && credentials'[c].accountId == credentials[c].accountId
      && credentials'[c].material == credentials[c].material
  }

  lemma PinsKept(t: Tables, st: Statement)
    requires !st.ReplaceCredential? && (st.MarkCredentialUsed? ==> st.material.None?)
    ensures SameMaterial(t.credentials, Exec(t, st).0.credentials)
  {
    if !WritesPins(st) {
      Frame(t, st);
      hide Exec;
    }
  }

  lemma PinCall(cfg: Config, r: Request, st: Statement)
    requires Emit(cfg, r) == Db(st)
    ensures st.ReplaceCredential? ==>
      && r.pc == SettingPin(PinReplace) && st.pin.accountId == r.account && st.pin.material == Stored(cfg, r.input)
    ensures st.MarkCredentialUsed? ==> r.pc == LoggingIn(LoginMark) && st.material == r.upgraded
    ensures r.pc == LoggingIn(LoginCredential) ==> st == GetActivePin(r.account)
  {}

  lemma ActiveIsThere(credentials: map<CredentialId, CredentialRow>, account: AccountId)
    ensures var active := ActivePin(credentials, account);
      active.Some? ==>
        && active.value.credentialId in credentials && active.value.row == credentials[active.value.credentialId]
        && active.value.row.accountId == account
  {}

  /** The new PIN is the request's own; the others keep their material. */
  lemma PinReplacedBy(cfg: Config, s: State, id: nat, e: Entry, s': State, st: Statement)
    requires PinsOk(cfg, s) && PinInv(cfg, e) && id in s.reqs && s'.reqs == s.reqs[id := e] && st.ReplaceCredential?
    requires e.r.input == s.reqs[id].r.input && s.reqs[id].t.replaced.None?
    requires !HasRead(e.r) && st.pin.material == Stored(cfg, e.r.input)
    requires s'.tables == Exec(s.tables, st).0 && st.pin.credentialId !in s.tables.credentials
    requires e.t.replaced == Some(st.pin.accountId)
    ensures PinsOk(cfg, s')
  {
    SetStays(cfg, s.reqs, id, e);
    assert Sets(cfg, s'.reqs[id], st.pin.accountId, st.pin.material);
    NewRows(s.tables, st);
    hide PinInv, Stored, Exec;
  }

  lemma NewRows(t: Tables, st: Statement)
    requires st.ReplaceCredential? && st.pin.credentialId !in t.credentials
    ensures var rows, pin := Exec(t, st).0.credentials, st.pin;
      forall c :: c in rows ==>
        if c == pin.credentialId then rows[c].accountId == pin.accountId && rows[c].material == pin.material
        else
          && c in t.credentials && rows[c].accountId == t.credentials[c].accountId
          && rows[c].material == t.credentials[c].material
  {
    hide RevokeDevices, Revocable, LivePins;
  }

  /** One landing, seen from its request. */
  lemma PinLands(cfg: Config, s: State, id: nat, st: Statement, told: bool) returns (e': Entry)
    requires PinsOk(cfg, s) && ProvOk(cfg, s) && id in s.reqs && Emit(cfg, s.reqs[id].r) == Db(st)
    ensures LandDb(cfg, s, id, st, told).reqs == s.reqs[id := e']
    ensures LandDb(cfg, s, id, st, told).tables == Exec(s.tables, st).0
    ensures PinInv(cfg, s.reqs[id]) && PinInv(cfg, e') && ReadsOn(s.reqs[id], e', Exec(s.tables, st).1)
    ensures e'.r.input == s.reqs[id].r.input
    ensures e'.t == Record(s.reqs[id].t, st, Exec(s.tables, st).1, EpochOf(s, s.reqs[id].r.input.email))
    ensures st.ReplaceCredential? ==> s.reqs[id].t.replaced.None? && !HasRead(s.reqs[id].r)
  {
    hide Emit, ResumeDb, Record, Stored, Stale, Opens, Exec, ReadsOn;
    var e, a := s.reqs[id], Exec(s.tables, st).1;
    var epoch := EpochOf(s, e.r.input.email);
    assert PinInv(cfg, e) && ProvInv(cfg, e);
    hide ProvOk, PinsOk;
    e' := LandDb(cfg, s, id, st, told).reqs[id];
    assert e' == Moved(cfg, e, st, a, epoch, told);
    PinCall(cfg, e.r, st);
    hide PinInv;
    PinDb(cfg, e, st, a, epoch, told);
    Reading(cfg, e, st, a, epoch, told);
  }

  lemma PinLandDb(cfg: Config, s: State, id: nat, st: Statement, told: bool)
    requires PinsOk(cfg, s) && ProvOk(cfg, s) && id in s.reqs && Emit(cfg, s.reqs[id].r) == Db(st)
    ensures PinsOk(cfg, LandDb(cfg, s, id, st, told))
  {
    hide Emit, ResumeDb, Record, LandDb, Stored, Stale, PinInv, ProvOk, PinsOk;
    var s', e := LandDb(cfg, s, id, st, told), s.reqs[id];
    var e' := PinLands(cfg, s, id, st, told);
    PinCall(cfg, e.r, st);
    if st.ReplaceCredential? && st.pin.credentialId !in s.tables.credentials {
      PinRecorded(e.t, st, Exec(s.tables, st).1, EpochOf(s, e.r.input.email));
      PinReplacedBy(cfg, s, id, e', s', st);
    } else {
      PinStands(cfg, s, id, e', s', st);
    }
  }

  lemma PinRecorded(t: Trace, st: Statement, a: Result, epoch: nat)
    requires st.ReplaceCredential? && a.Replaced?
    ensures Record(t, st, a, epoch).replaced == Some(st.pin.accountId)
  {}

  lemma Unreplaced(t: Trace, st: Statement, a: Result, epoch: nat)
    requires st.ReplaceCredential? ==> !a.Replaced?
    ensures Record(t, st, a, epoch).replaced == t.replaced
  {}

  /** A re-hash is never due; what a lookup finds was set. */
  lemma PinStands(cfg: Config, s: State, id: nat, e': Entry, s': State, st: Statement)
    requires PinsOk(cfg, s) && id in s.reqs && Emit(cfg, s.reqs[id].r) == Db(st) && PinInv(cfg, e')
    requires s'.reqs == s.reqs[id := e'] && s'.tables == Exec(s.tables, st).0 && e'.r.input == s.reqs[id].r.input
    requires ReadsOn(s.reqs[id], e', Exec(s.tables, st).1)
    requires e'.t == Record(s.reqs[id].t, st, Exec(s.tables, st).1, EpochOf(s, s.reqs[id].r.input.email))
    requires st.ReplaceCredential? ==> st.pin.credentialId in s.tables.credentials
    ensures PinsOk(cfg, s')
  {
    hide Emit, Record, Stored, Opens, Stale;
    var e, a := s.reqs[id], Exec(s.tables, st).1;
    PinCall(cfg, e.r, st);
    Unreplaced(e.t, st, a, EpochOf(s, e.r.input.email));
    if st.MarkCredentialUsed? {
      assert PinInv(cfg, e) && SetBySome(cfg, s.reqs, e.r.account, e.r.stored);
      SetIsCurrent(cfg, s.reqs, e.r.account, e.r.stored);
    }
    hide PinInv;
    if st.ReplaceCredential? {
      assert s'.tables == s.tables;
    } else {
      PinsKept(s.tables, st);
    }
    assert SameMaterial(s.tables.credentials, s'.tables.credentials);
    if HasRead(e'.r) && e.r.pc == LoggingIn(LoginCredential) && a.Active? && a.active.Some? {
      ActiveIsThere(s.tables.credentials, e.r.account);
    }
    assert HasRead(e'.r) ==> SetBySome(cfg, s.reqs, e'.r.account, e'.r.stored);
    hide Exec, ReadsOn, PinsOk;
    PinQuiet(cfg, s, id, e', s');
  }

  lemma PinsLand(cfg: Config, s: State, id: nat, fate: Fate, visible: bool)
    requires PinsOk(cfg, s) && ProvOk(cfg, s) && Waiting(s, id)
    ensures PinsOk(cfg, Next(cfg, s, Land(id, fate, visible)))
  {
    hide Emit, ResumeDb, PinInv, Exec, ProvOk, Stored;
    var e, c, s' := s.reqs[id], Emit(cfg, s.reqs[id].r), Next(cfg, s, Land(id, fate, visible));
    assert PinInv(cfg, e);
    if fate.RolledBack? {
      hide PinsOk;
      PinRollBack(cfg, e, fate.retryable);
      RolledBackReads(cfg, s, e, id, fate.retryable);
      PinQuiet(cfg, s, id, RollBack(e, fate.retryable), s');
    } else if c.Db? {
      hide PinsOk;
      PinLandDb(cfg, s, id, c.statement, fate.Committed?);
    } else {
      PinOther(cfg, e, SessionFound(s, c, visible), fate.Committed?);
      OtherReads(cfg, e, SessionFound(s, c, visible), fate.Committed?);
      hide AfterOther, SessionFound, SetBySome;
      PinQuiet(cfg, s, id, s'.reqs[id], s');
    }
  }

  lemma RolledBackReads(cfg: Config, s: State, e: Entry, id: nat, retryable: bool)
    requires PinsOk(cfg, s) && id in s.reqs && e == s.reqs[id]
    ensures var r := RollBack(e, retryable).r;
      && r.input == e.r.input && RollBack(e, retryable).t == e.t
      && (HasRead(r) ==> SetBySome(cfg, s.reqs, r.account, r.stored))
  {
    hide PinInv, SetBySome;
  }

  lemma OtherReads(cfg: Config, e: Entry, found: Option<Session>, told: bool)
    requires PinInv(cfg, e) && !Emit(cfg, e.r).Db? && !e.r.pc.Finished? && !e.r.pc.Crashed?
    ensures var r := AfterOther(cfg, e.r, Emit(cfg, e.r), found, told);
      r.input == e.r.input && (HasRead(r) ==> HasRead(e.r) && r.account == e.r.account && r.stored == e.r.stored)
  {
    hide NewDeviceRow, Enroll, Opens, Stale, Stored;
  }

  lemma PinsStep(cfg: Config, s: State, a: Action)
    requires PinsOk(cfg, s) && ProvOk(cfg, s) && Enabled(s, a)
    ensures PinsOk(cfg, Next(cfg, s, a))
  {
    hide Emit, Begin, ResumeDb, PinInv, Exec, AfterOther, ProvOk, Stored;
    match a
    case Arrive(id, input, now) =>
      PinBegins(cfg, input, now);
      BeginsUnread(cfg, input, now);
      PinQuiet(cfg, s, id, Entry(Begin(cfg, input, now), NoTrace), Next(cfg, s, a));
    case Land(id, fate, visible) =>
      hide PinsOk;
      PinsLand(cfg, s, id, fate, visible);
    case OwnerRevokes(st) => Frame(s.tables, st);
    case AppMints(_, _) =>
    case Sweep(_, _) =>
  }

  lemma BeginsUnread(cfg: Config, input: Input, now: Time)
    ensures !HasRead(Begin(cfg, input, now))
  {}

  // ----- sessions -----

  lemma PaidMint(cfg: Config, s: State, id: nat, told: bool, visible: bool)
    requires PinsOk(cfg, s) && ProvOk(cfg, s) && LoginsPaid(s) && Waiting(s, id) && !Emit(cfg, s.reqs[id].r).Db?
    ensures LoginsPaid(LandOther(cfg, s, id, Emit(cfg, s.reqs[id].r), told, visible))
  {
    var e, c := s.reqs[id], Emit(cfg, s.reqs[id].r);
    var s' := LandOther(cfg, s, id, c, told, visible);
    assert PinInv(cfg, e) && ProvInv(cfg, e);
    MintsOnce(cfg, e, SessionFound(s, c, visible), told);
    hide Emit, AfterOther, SessionFound, PinInv, ProvInv, PinsOk, Paid;
    forall j | j in s'.reqs && s'.reqs[j].r.input.route.PinLogin? && s'.reqs[j].r.input.newSession in s'.minted
      ensures Paid(s'.reqs[j], s'.minted[s'.reqs[j].r.input.newSession])
    {
      if j == id && !c.MintSession? {
        PaidIsOver(e, s.minted[e.r.input.newSession]);
        assert false;
      }
    }
  }

  /** A paid login never moves again. */
  lemma PaidIsOver(e: Entry, session: Session)
    requires Paid(e, session)
    ensures e.r.pc.Finished? || e.r.pc.Crashed?
  {}

  /** The one mint of a login comes last, and everything before it was done. */
  lemma MintsOnce(cfg: Config, e: Entry, found: Option<Session>, told: bool)
    requires PinInv(cfg, e) && ProvInv(cfg, e) && !e.r.pc.Finished? && !e.r.pc.Crashed? && !Emit(cfg, e.r).Db?
    ensures var c, e' := Emit(cfg, e.r), e.(r := AfterOther(cfg, e.r, Emit(cfg, e.r), found, told));
      && e'.r.input == e.r.input
      && (c.MintSession? ==> c.sid == e.r.input.newSession)
      && (c.MintSession? && e.r.input.route.PinLogin? ==> Paid(e', c.session))
  {
    hide NewDeviceRow, Enroll, Opens, Stale, Stored;
  }

  lemma PaidLand(cfg: Config, s: State, id: nat, fate: Fate, visible: bool)
    requires PinsOk(cfg, s) && ProvOk(cfg, s) && LoginsPaid(s) && Waiting(s, id)
    ensures LoginsPaid(Next(cfg, s, Land(id, fate, visible)))
  {
    hide Emit, ResumeDb, PinInv, Exec, ProvOk, Record, AfterOther, PinsOk;
    var e, c, s' := s.reqs[id], Emit(cfg, s.reqs[id].r), Next(cfg, s, Land(id, fate, visible));
    if fate.RolledBack? || c.Db? {
      assert s'.minted == s.minted && s'.reqs == s.reqs[id := s'.reqs[id]] && s'.reqs[id].r.input == e.r.input;
    } else {
      PaidMint(cfg, s, id, fate.Committed?, visible);
    }
  }

  lemma PaidStep(cfg: Config, s: State, a: Action)
    requires PinsOk(cfg, s) && ProvOk(cfg, s) && LoginsPaid(s) && Enabled(s, a)
    ensures LoginsPaid(Next(cfg, s, a))
  {
    hide Emit, Begin, ResumeDb, PinInv, Exec, ProvOk, Record, AfterOther, PinsOk, Paid;
    match a
    case Arrive(id, input, now) => BeginsBare(cfg, input, now);
    case Land(id, fate, visible) => PaidLand(cfg, s, id, fate, visible);
    case _ =>
  }

  lemma {:induction false} PinsHold(cfg: Config, s: State, acts: seq<Action>)
    requires PinsOk(cfg, s) && ProvOk(cfg, s) && LoginsPaid(s) && IsRun(cfg, s, acts)
    ensures var s' := After(cfg, s, acts); PinsOk(cfg, s') && ProvOk(cfg, s') && LoginsPaid(s')
    decreases |acts|
  {
    hide PinsOk, ProvOk, LoginsPaid, Next, Enabled;
    if acts != [] {
      PinsStep(cfg, s, acts[0]);
      ProvStep(cfg, s, acts[0]);
      PaidStep(cfg, s, acts[0]);
      PinsHold(cfg, Next(cfg, s, acts[0]), acts[1..]);
    }
  }

  lemma PinsRun(cfg: Config, acts: seq<Action>)
    requires IsRun(cfg, Init, acts)
    ensures PinsOk(cfg, After(cfg, Init, acts)) && LoginsPaid(After(cfg, Init, acts))
  {
    PinsHold(cfg, Init, acts);
  }

  /** The digits of the PIN a login read are those some request for its account set. */
  ghost predicate ReadFrom(cfg: Config, reqs: map<nat, Entry>, e: Entry, j: nat) {
    && j in reqs && Sets(cfg, reqs[j], e.r.account, e.r.stored)
    && e.r.stored.PinMaterial? && e.r.stored.hash.pin == reqs[j].r.input.pin
  }

  /**
   * Every run, cleanup included: a compared PIN is right exactly when its
   * digits are those of the PIN read, which some request set for that account,
   * if the ring verifies what it makes.
   */
  lemma PinsAreCompared(cfg: Config, acts: seq<Action>, id: nat)
    requires IsRun(cfg, Init, acts) && id in After(cfg, Init, acts).reqs
    ensures var reqs := After(cfg, Init, acts).reqs; var e := reqs[id];
      e.r.pinChecked.Some? ==>
        && (exists j :: ReadFrom(cfg, reqs, e, j))
        && (e.r.pinChecked.value <==> HoldsOwn(cfg.ring) && e.r.stored.hash.pin == e.r.input.pin)
    ensures var e := After(cfg, Init, acts).reqs[id];
      e.r.pc.Finished? && e.r.pc.response.InvalidPin? ==> e.r.pinChecked == Some(false)
  {
    PinsRun(cfg, acts);
    var reqs := After(cfg, Init, acts).reqs;
    var e := reqs[id];
    assert PinInv(cfg, e);
    if e.r.pinChecked.Some? {
      var j :| j in reqs && Sets(cfg, reqs[j], e.r.account, e.r.stored);
      assert ReadFrom(cfg, reqs, e, j);
    }
  }

  /**
   * Every run, cleanup included: a session drawn by `/pin/login` exists only
   * after a right PIN on a counted attempt, a cleared guard, a user who is the
   * account's, and a device found alive; it is bound to that device and
   * carries no email verification.
   */
  lemma LoginsArePaid(cfg: Config, acts: seq<Action>, id: nat)
    requires IsRun(cfg, Init, acts)
    requires var s := After(cfg, Init, acts);
      && id in s.reqs && s.reqs[id].r.input.route.PinLogin?
      && (s.reqs[id].r.input.newSession in s.minted || LoggedInPc(s.reqs[id].r.pc))
    ensures var s := After(cfg, Init, acts); var e := s.reqs[id];
      && e.r.pinChecked == Some(true) && e.t.attempted == Some(e.r.account) && e.t.reset == Some(e.r.account)
      && e.r.input.resolved == Some(e.r.account) && e.t.touched == Some(PresentedId(e.r))
      && (e.r.input.newSession in s.minted ==>
            s.minted[e.r.input.newSession] == Session(e.r.account, None, Some(PresentedId(e.r))))
  {
    PinsRun(cfg, acts);
    assert PinInv(cfg, After(cfg, Init, acts).reqs[id]);
  }

  // ----- the answer to a comparison -----

  lemma AttemptAnswers(cfg: Config, t: Tables, account: AccountId, now: Time)
    ensures var (t', a) := Exec(t, ReserveLoginAttempt(account, cfg.pinMaxAttempts, now));
      var n := LoginAnswers.FailedBefore(t.guards, account) + 1;
      if LoginAnswers.MayAttempt(cfg, t.guards, account)
      then t' == t.(guards := t.guards[account := GuardRow(n, None, now)]) && a == LoginAttempt(Some(n))
      else t' == t && a == LoginAttempt(None)
  {}

  /** Where a compared PIN, or a refused attempt, sends its request. */
  function Sent(cfg: Config, may: bool, right: bool, failed: int): Pc {
    if !may then Finished(EmailVerificationRequired)
    else if right then LoggingIn(LoginReset)
    else if failed >= cfg.pinMaxAttempts then LoggingIn(LoginLock)
    else Finished(InvalidPin(cfg.pinMaxAttempts - failed))
  }

  lemma Judges(cfg: Config, r: Request, failed: nat, may: bool)
    requires r.pc == LoggingIn(LoginReserve)
    ensures var a := LoginAttempt(if may then Some(failed) else None);
      ResumeLogin(cfg, r, LoginReserve, a).pc == Sent(cfg, may, Opens(cfg.ring, r.stored, r.input.pin), failed)
  {
    VerifiesWhenOpen(cfg, r.input, r.stored);
    hide Verify, Opens;
  }

  /**
   * Whatever came before: an attempt answered while the account may attempt is
   * counted, and a right PIN goes on, a wrong one is told what is left, the
   * last one locks. Nothing is minted.
   */
  lemma WrongPinIsTold(cfg: Config, acts: seq<Action>, id: nat, visible: bool)
    requires IsRun(cfg, Init, acts)
    requires Waiting(After(cfg, Init, acts), id) && After(cfg, Init, acts).reqs[id].r.pc == LoggingIn(LoginReserve)
    ensures var s := After(cfg, Init, acts); var r, s' := s.reqs[id].r, Next(cfg, s, Land(id, Committed, visible));
      var may := LoginAnswers.MayAttempt(cfg, s.tables.guards, r.account);
      var n := LoginAnswers.FailedBefore(s.tables.guards, r.account) + 1;
      && r.stored.PinMaterial? && s'.minted == s.minted
      && s'.tables
         == (if may then s.tables.(guards := s.tables.guards[r.account := GuardRow(n, None, r.now)]) else s.tables)
      && s'.reqs[id].r.pc == Sent(cfg, may, HoldsOwn(cfg.ring) && r.stored.hash.pin == r.input.pin, n)
  {
    hide PinsOk, ProvOk, LoginsPaid, Sent, HoldsOwn, Next, IsRun, After, Opens;
    hide LoginAnswers.MayAttempt, LoginAnswers.FailedBefore;
    PinsRun(cfg, acts);
    ReadPin(cfg, After(cfg, Init, acts), id);
    AnsweredThere(cfg, After(cfg, Init, acts), id, visible);
  }

  lemma AnsweredThere(cfg: Config, s: State, id: nat, visible: bool)
    requires Waiting(s, id) && s.reqs[id].r.pc == LoggingIn(LoginReserve)
    ensures var r, s' := s.reqs[id].r, Next(cfg, s, Land(id, Committed, visible));
      var may := LoginAnswers.MayAttempt(cfg, s.tables.guards, r.account);
      var n := LoginAnswers.FailedBefore(s.tables.guards, r.account) + 1;
      && s'.minted == s.minted && id in s'.reqs
      && s'.tables
         == (if may then s.tables.(guards := s.tables.guards[r.account := GuardRow(n, None, r.now)]) else s.tables)
      && s'.reqs[id].r.pc == Sent(cfg, may, Opens(cfg.ring, r.stored, r.input.pin), n)
  {
    var r := s.reqs[id].r;
    var n := LoginAnswers.FailedBefore(s.tables.guards, r.account) + 1;
    var may := LoginAnswers.MayAttempt(cfg, s.tables.guards, r.account);
    AttemptAnswers(cfg, s.tables, r.account, r.now);
    Judges(cfg, r.(retried := false), n, may);
    AttemptSent(cfg, r);
    hide Exec, ResumeLogin, Record, Sent, Opens, Emit;
  }

  lemma AttemptSent(cfg: Config, r: Request)
    requires r.pc == LoggingIn(LoginReserve)
    ensures Emit(cfg, r) == Db(ReserveLoginAttempt(r.account, cfg.pinMaxAttempts, r.now))
  {}

  lemma ReadPin(cfg: Config, s: State, id: nat)
    requires PinsOk(cfg, s) && id in s.reqs && HasRead(s.reqs[id].r)
    ensures var r := s.reqs[id].r;
      && r.stored.PinMaterial?
      && (Opens(cfg.ring, r.stored, r.input.pin) <==> HoldsOwn(cfg.ring) && r.stored.hash.pin == r.input.pin)
  {
    var r := s.reqs[id].r;
    var j :| j in s.reqs && Sets(cfg, s.reqs[j], r.account, r.stored);
  }
}

/**
 * What an email code is compared with (src/device-auth/index.ts:910-925): over
 * every run, a guess is right exactly for the digits of the code it was made
 * on, and that code was drawn by a request for the same address.
 */
module CodeDigits {
  import opened Basics
  import opened PinCredential
  import opened Tables
  import opened Routes
  import opened Runs

  // ----- one request -----

  /** The ring still holds the code's key, and under it these digits, for this address, give the stored hash. */
  predicate Fits(ring: KeyRing, c: ReservedCode, email: Email, digits: string) {
    c.keyId in ring.byId && c.codeHash == CodeHash(ring.byId[c.keyId].secret, email, digits)
  }

  predicate BeforeGuess(pc: Pc) {
    !pc.Finished? && !pc.Crashed? && !pc.Entering? && (pc.Guessing? ==> pc.guess.VerifyAttempt?)
  }

  /** A guess says whether the digits fit the code its attempt was on; what matched is that code. */
  predicate DigitsInv(cfg: Config, e: Entry) {
    && (e.r.guess.Some? ==>
          && e.t.compared.Some?
          && (e.r.guess.value <==> Fits(cfg.ring, e.t.compared.value, e.r.input.email, e.r.input.code)))
    && (e.r.matched.Some? <==> e.r.guess == Some(true))
    && (e.r.matched.Some? ==> e.t.compared.Some? && e.r.matched.value == e.t.compared.value.codeHash)
    && (BeforeGuess(e.r.pc) ==> e.r.guess.None?)
  }

  /** No guess is decided, and none is still to come that was not. */
  predicate Undecided(r: Request, r': Request) {
    r'.guess == r.guess && r'.matched == r.matched && (BeforeGuess(r'.pc) ==> BeforeGuess(r.pc))
  }

  lemma StartDecides(cfg: Config, r: Request, at: StartPc, a: Result)
    requires r.pc == Starting(at)
    ensures Undecided(r, ResumeStart(cfg, r, at, a))
  {
    hide RetryAfterSec, PresentsDeviceOfAddress, MaxFailures, FailureBucket;
  }

  lemma GateDecides(cfg: Config, r: Request, at: GatePc, a: Result)
    requires r.pc == Gating(at)
    ensures Undecided(r, ResumeGate(cfg, r, at, a))
  {
    hide RetryAfterSec, BreakerOpen, PresentsDeviceOfAddress;
  }

  lemma GuessDecides(cfg: Config, r: Request, at: GuessPc, a: Result)
    requires r.pc == Guessing(at) && !at.VerifyAttempt?
    ensures Undecided(r, ResumeGuess(cfg, r, at, a))
  {
    hide CodeMatches;
  }

  lemma EnterDecides(r: Request, at: EnterPc, a: Result)
    requires r.pc == Entering(at)
    ensures Undecided(r, ResumeEnter(r, at, a))
  {
    hide Presents;
  }

  lemma LoginDecides(cfg: Config, r: Request, at: LoginPc, a: Result)
    requires r.pc == LoggingIn(at)
    ensures Undecided(r, ResumeLogin(cfg, r, at, a))
  {
    hide RetryAfterSec, Presents, Verify;
  }

  /** Only the answer to the attempt decides a guess. */
  lemma DecidedOnce(cfg: Config, r: Request, a: Result)
    requires r.pc != Guessing(VerifyAttempt)
    ensures Undecided(r, ResumeDb(cfg, r, a))
  {
    hide ResumeStart, ResumeGate, ResumeGuess, ResumeEnter, ResumeLogin, Undecided;
    match r.pc
    case Starting(at) => StartDecides(cfg, r, at, a);
    case Gating(at) => GateDecides(cfg, r, at, a);
    case Guessing(at) => GuessDecides(cfg, r, at, a);
    case Entering(at) => EnterDecides(r, at, a);
    case LoggingIn(at) => LoginDecides(cfg, r, at, a);
    case _ => PinDecides(cfg, r, a);
  }

  lemma PinDecides(cfg: Config, r: Request, a: Result)
    requires r.pc.SettingPin? || r.pc.Finished? || r.pc.Crashed?
    ensures Undecided(r, ResumeDb(cfg, r, a))
  {}

  // ----- one request, one landing -----

  lemma DigitsBegin(cfg: Config, input: Input, now: Time)
    ensures DigitsInv(cfg, Entry(Begin(cfg, input, now), NoTrace))
  {}

  lemma AttemptCall(cfg: Config, r: Request, st: Statement)
    requires Emit(cfg, r) == Db(st)
    ensures st.ReserveEmailCodeAttempt? <==> r.pc == Guessing(VerifyAttempt)
    ensures st.ReserveEmailCodeAttempt? ==> st == ReserveEmailCodeAttempt(r.input.email, r.now, cfg.codeMaxAttempts)
  {}

  lemma GuessDecided(cfg: Config, e: Entry, st: Statement, a: Result, epoch: nat)
    requires DigitsInv(cfg, e) && e.r.pc == Guessing(VerifyAttempt) && st.ReserveEmailCodeAttempt?
    ensures var t, r := Record(e.t, st, a, epoch), e.r.(retried := false);
      DigitsInv(cfg, Entry(ResumeDb(cfg, r, a), t)) && DigitsInv(cfg, Entry(To(r, Crashed), t))
  {}

  lemma DigitsDb(cfg: Config, e: Entry, st: Statement, a: Result, epoch: nat)
    requires DigitsInv(cfg, e) && Emit(cfg, e.r) == Db(st)
    ensures var t, r := Record(e.t, st, a, epoch), e.r.(retried := false);
      DigitsInv(cfg, Entry(ResumeDb(cfg, r, a), t)) && DigitsInv(cfg, Entry(To(r, Crashed), t))
  {
    AttemptCall(cfg, e.r, st);
    hide Emit, Record, ResumeDb;
    if st.ReserveEmailCodeAttempt? {
      GuessDecided(cfg, e, st, a, epoch);
    } else {
      RecordWrites(e.t, st, a, epoch);
      DecidedOnce(cfg, e.r.(retried := false), a);
    }
  }

  lemma DigitsOther(cfg: Config, e: Entry, found: Option<Session>, told: bool)
    requires DigitsInv(cfg, e) && !Emit(cfg, e.r).Db?
    ensures DigitsInv(cfg, e.(r := AfterOther(cfg, e.r, Emit(cfg, e.r), found, told)))
  {
    hide NewDeviceRow, Enroll;
  }

  lemma DigitsRollBack(cfg: Config, e: Entry, retryable: bool)
    requires DigitsInv(cfg, e)
    ensures DigitsInv(cfg, RollBack(e, retryable))
  {}

  // ----- all requests -----

  /** A request for this address drew this code, and wrote it under the current key. */
  predicate Drew(cfg: Config, e: Entry, email: Email, hash: CodeHash, keyId: KeyId) {
    && e.t.issued && e.r.input.email == email && keyId == cfg.ring.current.keyId
    && hash == CodeHash(cfg.ring.current.secret, email, e.r.input.code)
  }

  ghost predicate Drawn(cfg: Config, reqs: map<nat, Entry>, email: Email, hash: CodeHash, keyId: KeyId) {
    exists j :: j in reqs && Drew(cfg, reqs[j], email, hash, keyId)
  }

  /** Every code stored, and every code an attempt was on, was drawn for its address. */
  ghost predicate CodesDrawn(cfg: Config, reqs: map<nat, Entry>, codes: map<Email, CodeRow>) {
    forall email :: email in codes ==> Drawn(cfg, reqs, email, codes[email].codeHash, codes[email].keyId)
  }

  ghost predicate AttemptsDrawn(cfg: Config, reqs: map<nat, Entry>) {
    forall id :: id in reqs && reqs[id].t.compared.Some? ==>
      Drawn(cfg, reqs, reqs[id].r.input.email, reqs[id].t.compared.value.codeHash, reqs[id].t.compared.value.keyId)
  }

  ghost predicate DigitsOk(cfg: Config, s: State) {
    && (forall id :: id in s.reqs ==> DigitsInv(cfg, s.reqs[id]))
    && CodesDrawn(cfg, s.reqs, s.tables.codes) && AttemptsDrawn(cfg, s.reqs)
  }

  /** One request moves on: what was drawn stays drawn. */
  lemma DrawnStays(cfg: Config, reqs: map<nat, Entry>, id: nat, e: Entry)
    requires id in reqs ==> e.r.input == reqs[id].r.input && (reqs[id].t.issued ==> e.t.issued)
    ensures forall email, hash, keyId ::
      Drawn(cfg, reqs, email, hash, keyId) ==> Drawn(cfg, reqs[id := e], email, hash, keyId)
  {
    var reqs' := reqs[id := e];
    forall email, hash, keyId | Drawn(cfg, reqs, email, hash, keyId)
      ensures Drawn(cfg, reqs', email, hash, keyId)
    {
      var j :| j in reqs && Drew(cfg, reqs[j], email, hash, keyId);
      assert Drew(cfg, reqs'[j], email, hash, keyId);
    }
  }

  /** A request moves without writing a code or trying one. */
  lemma DigitsQuiet(cfg: Config, s: State, id: nat, e: Entry, s': State)
    requires DigitsOk(cfg, s) && DigitsInv(cfg, e) && s'.reqs == s.reqs[id := e]
    requires id in s.reqs ==> e.r.input == s.reqs[id].r.input
    requires var t := if id in s.reqs then s.reqs[id].t else NoTrace;
      e.t.compared == t.compared && e.t.issued == t.issued
    requires forall email :: email in s'.tables.codes ==>
      && email in s.tables.codes && s'.tables.codes[email].codeHash == s.tables.codes[email].codeHash
      && s'.tables.codes[email].keyId == s.tables.codes[email].keyId
    ensures DigitsOk(cfg, s')
  {
    DrawnStays(cfg, s.reqs, id, e);
    hide DigitsInv, Drawn;
  }

  lemma CodePut(cfg: Config, r: Request, st: Statement)
    requires Emit(cfg, r) == Db(st) && st.PutEmailCode?
    ensures st.issue.email == r.input.email && st.issue.keyId == cfg.ring.current.keyId
    ensures st.issue.codeHash == CodeHash(cfg.ring.current.secret, r.input.email, r.input.code)
  {}

  lemma IssuedDrawn(cfg: Config, s: State, id: nat, e: Entry, s': State, issue: CodeIssue)
    requires DigitsOk(cfg, s) && DigitsInv(cfg, e) && id in s.reqs && s'.reqs == s.reqs[id := e]
    requires e.r.input == s.reqs[id].r.input && e.t == s.reqs[id].t.(issued := true)
    requires s'.tables.codes == s.tables.codes[issue.email := IssuedRow(s.tables.codes, issue)]
    requires Drew(cfg, e, issue.email, issue.codeHash, issue.keyId)
    ensures DigitsOk(cfg, s')
  {
    DrawnStays(cfg, s.reqs, id, e);
    assert Drew(cfg, s'.reqs[id], issue.email, issue.codeHash, issue.keyId);
    hide DigitsInv;
  }

  lemma TriedDrawn(cfg: Config, s: State, id: nat, e: Entry, s': State, c: ReservedCode)
    requires DigitsOk(cfg, s) && DigitsInv(cfg, e) && id in s.reqs && s'.reqs == s.reqs[id := e]
    requires e.r.input == s.reqs[id].r.input && e.t.issued == s.reqs[id].t.issued && e.t.compared == Some(c)
    requires e.r.input.email in s.tables.codes
    requires c.codeHash == s.tables.codes[e.r.input.email].codeHash && c.keyId == s.tables.codes[e.r.input.email].keyId
    requires forall email :: email in s'.tables.codes ==>
      && email in s.tables.codes && s'.tables.codes[email].codeHash == s.tables.codes[email].codeHash
      && s'.tables.codes[email].keyId == s.tables.codes[email].keyId
    ensures DigitsOk(cfg, s')
  {
    DrawnStays(cfg, s.reqs, id, e);
    hide DigitsInv, Drawn;
  }

  lemma DigitsLandDb(cfg: Config, s: State, id: nat, st: Statement, told: bool)
    requires DigitsOk(cfg, s) && id in s.reqs && Emit(cfg, s.reqs[id].r) == Db(st)
    ensures DigitsOk(cfg, LandDb(cfg, s, id, st, told))
  {
    hide Emit, ResumeDb, DigitsInv;
    var e, s', a := s.reqs[id], LandDb(cfg, s, id, st, told), Exec(s.tables, st).1;
    assert DigitsInv(cfg, e);
    hide DigitsOk;
    DigitsDb(cfg, e, st, a, EpochOf(s, e.r.input.email));
    AttemptCall(cfg, e.r, st);
    if st.PutEmailCode? {
      CodePut(cfg, e.r, st);
      IssuedDrawn(cfg, s, id, s'.reqs[id], s', st.issue);
    } else if st.ReserveEmailCodeAttempt? && a.reserved.Some? {
      TriedDrawn(cfg, s, id, s'.reqs[id], s', a.reserved.value);
    } else {
      hide Exec, Record;
      Unrecorded(e.t, st, a, EpochOf(s, e.r.input.email));
      CodesKept(s.tables, st);
      DigitsQuiet(cfg, s, id, s'.reqs[id], s');
    }
  }

  lemma Unrecorded(t: Trace, st: Statement, a: Result, epoch: nat)
    requires !st.PutEmailCode? && (st.ReserveEmailCodeAttempt? ==> !a.Attempt? || a.reserved.None?)
    ensures var t' := Record(t, st, a, epoch); t'.compared == t.compared && t'.issued == t.issued
  {}

  /** Rows not written by a new code keep their hash and key, or go. */
  lemma CodesKept(t: Tables, st: Statement)
    requires !st.PutEmailCode?
    ensures var codes := Exec(t, st).0.codes;
      forall email :: email in codes ==>
        && email in t.codes && codes[email].codeHash == t.codes[email].codeHash
        && codes[email].keyId == t.codes[email].keyId
  {
    if !WritesCodes(st) {
      Frame(t, st);
      hide Exec;
    }
  }

  lemma DigitsStep(cfg: Config, s: State, a: Action)
    requires DigitsOk(cfg, s) && Enabled(s, a)
    ensures DigitsOk(cfg, Next(cfg, s, a))
  {
    hide Emit, Begin, ResumeDb, DigitsInv, Exec, AfterOther;
    match a
    case Arrive(id, input, now) =>
      DigitsBegin(cfg, input, now);
      DigitsQuiet(cfg, s, id, Entry(Begin(cfg, input, now), NoTrace), Next(cfg, s, a));
    case Land(id, fate, visible) => DigitsLand(cfg, s, id, fate, visible);
    case OwnerRevokes(st) => Frame(s.tables, st);
    case AppMints(_, _) =>
    case Sweep(_, _) =>
  }

  lemma DigitsLand(cfg: Config, s: State, id: nat, fate: Fate, visible: bool)
    requires DigitsOk(cfg, s) && Waiting(s, id)
    ensures DigitsOk(cfg, Next(cfg, s, Land(id, fate, visible)))
  {
    hide Emit, ResumeDb, DigitsInv, Exec, AfterOther;
    var e, c, s' := s.reqs[id], Emit(cfg, s.reqs[id].r), Next(cfg, s, Land(id, fate, visible));
    if fate.RolledBack? {
      DigitsRollBack(cfg, e, fate.retryable);
      DigitsQuiet(cfg, s, id, RollBack(e, fate.retryable), s');
    } else if c.Db? {
      DigitsLandDb(cfg, s, id, c.statement, fate.Committed?);
    } else {
      DigitsOther(cfg, e, SessionFound(s, c, visible), fate.Committed?);
      DigitsQuiet(cfg, s, id, s'.reqs[id], s');
    }
  }

  lemma {:induction false} DigitsHold(cfg: Config, s: State, acts: seq<Action>)
    requires DigitsOk(cfg, s) && IsRun(cfg, s, acts)
    ensures DigitsOk(cfg, After(cfg, s, acts))
    decreases |acts|
  {
    hide DigitsOk, Next, Enabled;
    if acts != [] {
      DigitsStep(cfg, s, acts[0]);
      DigitsHold(cfg, Next(cfg, s, acts[0]), acts[1..]);
    }
  }

  /**
   * Every run, cleanup included: a guess was made on a code some request for
   * the same address had drawn, and it is right exactly for that code's
   * digits, if the ring verifies what it makes; what matched is that code.
   */
  lemma GuessesAreByDigits(cfg: Config, acts: seq<Action>, id: nat)
    requires IsRun(cfg, Init, acts) && id in After(cfg, Init, acts).reqs
    ensures var reqs := After(cfg, Init, acts).reqs; var e := reqs[id];
      && (e.r.guess.Some? ==>
            && e.t.compared.Some?
            && Drawn(cfg, reqs, e.r.input.email, e.t.compared.value.codeHash, e.t.compared.value.keyId)
            && (e.r.guess.value <==> HoldsOwn(cfg.ring) && e.t.compared.value.codeHash.code == e.r.input.code))
      && (e.r.matched.Some? <==> e.r.guess == Some(true))
      && (e.r.matched.Some? ==>
            && e.r.matched.value == e.t.compared.value.codeHash
            && e.r.matched.value.email == e.r.input.email && e.r.matched.value.code == e.r.input.code)
  {
    assert DigitsOk(cfg, Init);
    DigitsHold(cfg, Init, acts);
    var reqs := After(cfg, Init, acts).reqs;
    assert DigitsInv(cfg, reqs[id]);
  }
}

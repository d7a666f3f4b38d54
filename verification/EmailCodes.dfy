/**
 * Email codes (src/device-auth/store.ts:330-366, src/device-auth/index.ts:826-835,
 * 910-925): attempts across resends, and single use.
 */
module EmailCodes {
  import opened Basics
  import opened PinCredential
  import opened Tables
  import opened Routes
  import opened Runs

  // ----- one request -----

  /** A guess is compared on an attempt it took; a login follows only a code it deleted. */
  predicate CodeInv(e: Entry) {
    && (e.r.guess.Some? ==> e.t.tried.Some?)
    && (e.t.consumed ==> e.r.guess == Some(true))
    && match e.r.pc
       case Guessing(at) =>
         && !e.t.issued
         && (at.VerifyAttempt? ==> e.t.tried.None?)
         && (at.VerifyConsume? ==> !e.t.consumed && e.r.guess == Some(true) && e.r.matched.Some?)
         && (at.VerifyAttempt? || at.VerifyRefundUnused? ==> !e.t.consumed)
         && (at.VerifyRefund? ==> e.t.consumed)
       case Entering(_) => e.t.consumed && !e.t.issued
       case Finished(Verified(_, _)) => e.t.consumed
       case Finished(_) => true
       case Crashed => true
       case _ => e.t.tried.None? && !e.t.issued && !e.t.consumed && e.r.guess.None?
  }

  lemma CodeInvBegins(cfg: Config, input: Input, now: Time)
    ensures CodeInv(Entry(Begin(cfg, input, now), NoTrace))
  {}

  lemma CodeInvDb(cfg: Config, e: Entry, st: Statement, result: Result, epoch: nat)
    requires CodeInv(e) && Emit(cfg, e.r) == Db(st)
    ensures CodeInv(Entry(ResumeDb(cfg, e.r.(retried := false), result), Record(e.t, st, result, epoch)))
    ensures CodeInv(Entry(To(e.r.(retried := false), Crashed), Record(e.t, st, result, epoch)))
  {
    hide Record, EmitStart, EmitGate, EmitGuess, EmitEnter, EmitSetPin, EmitLogin, ResumeStart, ResumeGate,
         ResumeGuess, ResumeEnter, ResumeSetPin, ResumeLogin, CodeInv;
    CodeInvLost(cfg, e, st, result, epoch);
    match e.r.pc
    case Starting(at) => CodeInvStart(cfg, e, at, st, result, epoch);
    case Gating(at) => CodeInvGate(cfg, e, at, st, result, epoch);
    case Guessing(at) => CodeInvGuess(cfg, e, at, st, result, epoch);
    case Entering(at) => CodeInvEnter(cfg, e, at, st, result, epoch);
    case SettingPin(at) => CodeInvSetPin(cfg, e, at, st, result, epoch);
    case LoggingIn(at) => CodeInvLogin(cfg, e, at, st, result, epoch);
  }

  lemma CodeInvLost(cfg: Config, e: Entry, st: Statement, result: Result, epoch: nat)
    requires CodeInv(e) && Emit(cfg, e.r) == Db(st)
    ensures CodeInv(Entry(To(e.r.(retried := false), Crashed), Record(e.t, st, result, epoch)))
  {
    hide NewDeviceRow, Enroll;
  }

  lemma CodeInvStart(cfg: Config, e: Entry, at: StartPc, st: Statement, result: Result, epoch: nat)
    requires CodeInv(e) && e.r.pc == Starting(at) && EmitStart(cfg, e.r, at) == Db(st)
    ensures CodeInv(Entry(ResumeStart(cfg, e.r.(retried := false), at, result), Record(e.t, st, result, epoch)))
  {
    hide RetryAfterSec, DeviceLive;
  }

  lemma CodeInvGate(cfg: Config, e: Entry, at: GatePc, st: Statement, result: Result, epoch: nat)
    requires CodeInv(e) && e.r.pc == Gating(at) && EmitGate(cfg, e.r, at) == Db(st)
    ensures CodeInv(Entry(ResumeGate(cfg, e.r.(retried := false), at, result), Record(e.t, st, result, epoch)))
  {
    hide RetryAfterSec, BreakerOpen, DeviceLive;
  }

  lemma CodeInvGuess(cfg: Config, e: Entry, at: GuessPc, st: Statement, result: Result, epoch: nat)
    requires CodeInv(e) && e.r.pc == Guessing(at) && EmitGuess(cfg, e.r, at) == Db(st)
    ensures CodeInv(Entry(ResumeGuess(cfg, e.r.(retried := false), at, result), Record(e.t, st, result, epoch)))
  {
    hide CodeMatches;
  }

  lemma CodeInvEnter(cfg: Config, e: Entry, at: EnterPc, st: Statement, result: Result, epoch: nat)
    requires CodeInv(e) && e.r.pc == Entering(at) && EmitEnter(cfg, e.r, at) == Db(st)
    ensures CodeInv(Entry(ResumeEnter(e.r.(retried := false), at, result), Record(e.t, st, result, epoch)))
  {
    hide DeviceLive, NewDeviceRow;
  }

  lemma CodeInvSetPin(cfg: Config, e: Entry, at: PinPc, st: Statement, result: Result, epoch: nat)
    requires CodeInv(e) && e.r.pc == SettingPin(at) && EmitSetPin(cfg, e.r, at) == Db(st)
    ensures CodeInv(Entry(ResumeSetPin(cfg, e.r.(retried := false), at, result), Record(e.t, st, result, epoch)))
  {
    hide Enroll;
  }

  lemma CodeInvLogin(cfg: Config, e: Entry, at: LoginPc, st: Statement, result: Result, epoch: nat)
    requires CodeInv(e) && e.r.pc == LoggingIn(at) && EmitLogin(cfg, e.r, at) == Db(st)
    ensures CodeInv(Entry(ResumeLogin(cfg, e.r.(retried := false), at, result), Record(e.t, st, result, epoch)))
  {
    hide RetryAfterSec, Verify, Enroll, Presents;
    CodelessLogin(cfg, e, at, st, result, epoch);
    hide EmitLogin, Record;
  }

  lemma CodelessLogin(cfg: Config, e: Entry, at: LoginPc, st: Statement, result: Result, epoch: nat)
    requires EmitLogin(cfg, e.r, at) == Db(st)
    ensures var t := Record(e.t, st, result, epoch);
      t.tried == e.t.tried && t.issued == e.t.issued && t.consumed == e.t.consumed
  {}

  lemma CodeInvOther(cfg: Config, e: Entry, found: Option<Session>, told: bool)
    requires CodeInv(e) && !Emit(cfg, e.r).Db?
    ensures CodeInv(e.(r := AfterOther(cfg, e.r, Emit(cfg, e.r), found, told)))
  {
    hide NewDeviceRow, Enroll;
  }

  lemma CodeInvRollBack(e: Entry, retryable: bool)
    requires CodeInv(e)
    ensures CodeInv(RollBack(e, retryable))
  {}

  lemma CodeCalls(cfg: Config, e: Entry, st: Statement)
    requires CodeInv(e) && Emit(cfg, e.r) == Db(st)
    ensures st.PutEmailCode? ==>
      && e.r.pc == Starting(StartPut) && st.issue.email == e.r.input.email && st.issue.createdAt == e.r.now
      && !e.t.issued
      && st.issue.attemptsResetAt == e.r.now + cfg.codeTtlMs && st.issue.expiresAt == e.r.now + cfg.codeTtlMs
    ensures st.ReserveEmailCodeAttempt? ==>
      e.r.pc == Guessing(VerifyAttempt) && st.email == e.r.input.email && st.max == cfg.codeMaxAttempts && e.t.tried.None?
    ensures st.ConsumeEmailCode? ==>
      && e.r.pc == Guessing(VerifyConsume) && st.email == e.r.input.email && !e.t.consumed
      && e.r.matched == Some(st.codeHash)
    ensures !st.Cleanup?
  {}

  // ----- all requests -----

  /** Attempts taken on the codes of an address in one of its attempt epochs. */
  ghost function Tried(reqs: map<nat, Entry>, email: Email, epoch: nat): nat {
    Count(reqs, (e: Entry) => e.r.input.email == email && e.t.tried == Some(epoch))
  }

  /** Guesses compared in one of the address's attempt epochs, right or wrong. */
  ghost function Guesses(reqs: map<nat, Entry>, email: Email, epoch: nat): nat {
    Count(reqs, (e: Entry) => e.r.input.email == email && e.t.tried == Some(epoch) && e.r.guess.Some?)
  }

  ghost function Issued(reqs: map<nat, Entry>, email: Email): nat {
    Count(reqs, (e: Entry) => e.r.input.email == email && e.t.issued)
  }

  ghost function Consumed(reqs: map<nat, Entry>, email: Email): nat {
    Count(reqs, (e: Entry) => e.r.input.email == email && e.t.consumed)
  }

  /** Requests that got past their code: the only ones that can mint a session marked as email-verified. */
  ghost function Logins(reqs: map<nat, Entry>, email: Email): nat {
    Count(reqs, (e: Entry) => e.r.input.email == email && (e.r.pc.Entering? || (e.r.pc.Finished? && e.r.pc.response.Verified?)))
  }

  function LiveRow(codes: map<Email, CodeRow>, email: Email): nat { if email in codes then 1 else 0 }

  ghost predicate AttemptsOk(cfg: Config, s: State, email: Email) {
    && (forall k: nat :: Tried(s.reqs, email, k) <= if k <= EpochOf(s, email) then cfg.codeMaxAttempts else 0)
    && (email in s.tables.codes ==> s.tables.codes[email].attempts == Tried(s.reqs, email, EpochOf(s, email)))
    && Consumed(s.reqs, email) + LiveRow(s.tables.codes, email) <= Issued(s.reqs, email)
  }

  ghost predicate CodesOk(cfg: Config, s: State) {
    && (forall id :: id in s.reqs ==> CodeInv(s.reqs[id]))
    && (forall email :: AttemptsOk(cfg, s, email))
  }

  predicate Tries(e: Entry, email: Email, k: nat) { e.r.input.email == email && e.t.tried == Some(k) }

  lemma TriedAfter(reqs: map<nat, Entry>, id: nat, e: Entry, email: Email, k: nat)
    ensures Tried(reqs[id := e], email, k) == Tried(reqs, email, k)
      - (if id in reqs && Tries(reqs[id], email, k) then 1 else 0) + (if Tries(e, email, k) then 1 else 0)
  {
    CountUpdate(reqs, id, e, (e: Entry) => e.r.input.email == email && e.t.tried == Some(k));
  }

  lemma IssuedAfter(reqs: map<nat, Entry>, id: nat, e: Entry, email: Email)
    ensures Issued(reqs[id := e], email) == Issued(reqs, email)
      - (if id in reqs && reqs[id].r.input.email == email && reqs[id].t.issued then 1 else 0)
      + (if e.r.input.email == email && e.t.issued then 1 else 0)
    ensures Consumed(reqs[id := e], email) == Consumed(reqs, email)
      - (if id in reqs && reqs[id].r.input.email == email && reqs[id].t.consumed then 1 else 0)
      + (if e.r.input.email == email && e.t.consumed then 1 else 0)
  {
    CountUpdate(reqs, id, e, (e: Entry) => e.r.input.email == email && e.t.issued);
    CountUpdate(reqs, id, e, (e: Entry) => e.r.input.email == email && e.t.consumed);
  }

  /** An address the step does not touch. */
  lemma OtherAddress(cfg: Config, s: State, id: nat, e: Entry, s': State, email: Email)
    requires AttemptsOk(cfg, s, email) && s'.reqs == s.reqs[id := e] && EpochOf(s', email) == EpochOf(s, email)
    requires (email in s'.tables.codes) == (email in s.tables.codes)
    requires email in s.tables.codes ==> s'.tables.codes[email].attempts == s.tables.codes[email].attempts
    requires id in s.reqs ==> e.r.input == s.reqs[id].r.input
    requires e.r.input.email == email ==>
      var t := if id in s.reqs then s.reqs[id].t else NoTrace;
      e.t.tried == t.tried && e.t.issued == t.issued && e.t.consumed == t.consumed
    ensures AttemptsOk(cfg, s', email)
  {
    IssuedAfter(s.reqs, id, e, email);
    forall k: nat ensures Tried(s'.reqs, email, k) == Tried(s.reqs, email, k) { TriedAfter(s.reqs, id, e, email, k); }
  }

  /** Nothing about any code changes, nor about what the request did to codes. */
  lemma CodesQuiet(cfg: Config, s: State, id: nat, e: Entry, s': State)
    requires CodesOk(cfg, s) && CodeInv(e) && s'.reqs == s.reqs[id := e]
    requires s'.epochs == s.epochs && s'.tables.codes == s.tables.codes
    requires id in s.reqs ==> e.r.input == s.reqs[id].r.input
    requires var t := if id in s.reqs then s.reqs[id].t else NoTrace;
      e.t.tried == t.tried && e.t.issued == t.issued && e.t.consumed == t.consumed
    ensures CodesOk(cfg, s')
  {
    forall email ensures AttemptsOk(cfg, s', email) { OtherAddress(cfg, s, id, e, s', email); }
  }

  lemma CodeIssuedHere(cfg: Config, s: State, id: nat, e: Entry, s': State, r: CodeIssue)
    requires AttemptsOk(cfg, s, r.email) && id in s.reqs && s'.reqs == s.reqs[id := e]
    requires s'.epochs == EpochsAfter(s, PutEmailCode(r))
    requires s'.tables.codes == s.tables.codes[r.email := IssuedRow(s.tables.codes, r)]
    requires e.r.input == s.reqs[id].r.input && r.email == e.r.input.email
    requires e.t == s.reqs[id].t.(issued := true) && !s.reqs[id].t.issued
    ensures AttemptsOk(cfg, s', r.email)
  {
    var email := r.email;
    IssuedAfter(s.reqs, id, e, email);
    forall k: nat ensures Tried(s'.reqs, email, k) == Tried(s.reqs, email, k) { TriedAfter(s.reqs, id, e, email, k); }
    assert Tried(s.reqs, email, EpochOf(s, email) + 1) == 0;
  }

  /** A new code: a fresh epoch exactly when the old count does not carry over. */
  lemma CodeIssued(cfg: Config, s: State, id: nat, e: Entry, s': State, r: CodeIssue)
    requires CodesOk(cfg, s) && CodeInv(e) && id in s.reqs && s'.reqs == s.reqs[id := e]
    requires s'.epochs == EpochsAfter(s, PutEmailCode(r))
    requires s'.tables.codes == s.tables.codes[r.email := IssuedRow(s.tables.codes, r)]
    requires e.r.input == s.reqs[id].r.input && r.email == e.r.input.email
    requires e.t == s.reqs[id].t.(issued := true) && !s.reqs[id].t.issued
    ensures CodesOk(cfg, s')
  {
    forall email ensures AttemptsOk(cfg, s', email) {
      assert AttemptsOk(cfg, s, email);
      if email != r.email {
        OtherAddress(cfg, s, id, e, s', email);
      } else {
        CodeIssuedHere(cfg, s, id, e, s', r);
      }
    }
  }

  /** An attempt taken. */
  lemma AttemptTaken(cfg: Config, s: State, id: nat, e: Entry, s': State, email: Email)
    requires CodesOk(cfg, s) && CodeInv(e) && id in s.reqs && s'.reqs == s.reqs[id := e] && s'.epochs == s.epochs
    requires email in s.tables.codes && s.tables.codes[email].attempts < cfg.codeMaxAttempts
    requires s'.tables.codes ==
      s.tables.codes[email := s.tables.codes[email].(attempts := s.tables.codes[email].attempts + 1)]
    requires e.r.input == s.reqs[id].r.input && email == e.r.input.email
    requires s.reqs[id].t.tried.None?
    requires e.t == s.reqs[id].t.(tried := Some(EpochOf(s, email)), compared := e.t.compared)
    ensures CodesOk(cfg, s')
  {
    forall other ensures AttemptsOk(cfg, s', other) {
      assert AttemptsOk(cfg, s, other);
      hide AttemptsOk, CodesOk;
      if other != email {
        OtherAddress(cfg, s, id, e, s', other);
      } else {
        AttemptTakenHere(cfg, s, id, e, s', email);
      }
    }
  }

  lemma AttemptTakenHere(cfg: Config, s: State, id: nat, e: Entry, s': State, email: Email)
    requires AttemptsOk(cfg, s, email) && id in s.reqs && s'.reqs == s.reqs[id := e] && s'.epochs == s.epochs
    requires email in s.tables.codes && s.tables.codes[email].attempts < cfg.codeMaxAttempts
    requires email in s'.tables.codes && s'.tables.codes[email].attempts == s.tables.codes[email].attempts + 1
    requires e.r.input == s.reqs[id].r.input && email == e.r.input.email
    requires s.reqs[id].t.tried.None?
    requires e.t == s.reqs[id].t.(tried := Some(EpochOf(s, email)), compared := e.t.compared)
    ensures AttemptsOk(cfg, s', email)
  {
    hide Tried, Issued, Consumed;
    IssuedAfter(s.reqs, id, e, email);
    forall k: nat
      ensures Tried(s'.reqs, email, k) == Tried(s.reqs, email, k) + (if k == EpochOf(s, email) then 1 else 0)
    {
      TriedAfter(s.reqs, id, e, email, k);
    }
  }

  /** A matched code deleted. */
  lemma CodeConsumed(cfg: Config, s: State, id: nat, e: Entry, s': State, email: Email)
    requires CodesOk(cfg, s) && CodeInv(e) && id in s.reqs && s'.reqs == s.reqs[id := e] && s'.epochs == s.epochs
    requires email in s.tables.codes && s'.tables.codes == s.tables.codes - {email}
    requires e.r.input == s.reqs[id].r.input && email == e.r.input.email
    requires !s.reqs[id].t.consumed && e.t == s.reqs[id].t.(consumed := true)
    ensures CodesOk(cfg, s')
  {
    forall other ensures AttemptsOk(cfg, s', other) {
      if other != email {
        OtherAddress(cfg, s, id, e, s', other);
      } else {
        assert AttemptsOk(cfg, s, email);
        IssuedAfter(s.reqs, id, e, email);
        forall k: nat ensures Tried(s'.reqs, email, k) == Tried(s.reqs, email, k) { TriedAfter(s.reqs, id, e, email, k); }
      }
    }
  }
}

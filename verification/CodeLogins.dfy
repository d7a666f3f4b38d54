/** A login takes a code that is still the live one (src/device-auth/index.ts:910-935). */
module CodeLogins {
  import opened Basics
  import opened PinCredential
  import opened Tables
  import opened Routes
  import opened Runs
  import opened Provenance
  import opened EmailCodes
  import opened CodeRuns
  import opened CodeDigits

  // ----- who draws a session -----

  /** A session id drawn by `/email/verify` is minted only for a consumed code. */
  ghost predicate MintsEarned(s: State) {
    forall id :: id in s.reqs && s.reqs[id].r.input.newSession in s.minted ==>
      s.reqs[id].t.consumed || s.reqs[id].r.input.route.PinLogin?
  }

  ghost predicate LoginsOk(cfg: Config, s: State) {
    ProvOk(cfg, s) && CodesOk(cfg, s) && DigitsOk(cfg, s) && MintsEarned(s)
  }

  lemma MintCalls(cfg: Config, e: Entry)
    requires ProvInv(cfg, e) && CodeInv(e) && Emit(cfg, e.r).MintSession?
    ensures Emit(cfg, e.r).sid == e.r.input.newSession && (e.t.consumed || e.r.input.route.PinLogin?)
  {}

  lemma MintsDb(cfg: Config, s: State, id: nat, st: Statement, told: bool)
    requires LoginsOk(cfg, s) && id in s.reqs && Emit(cfg, s.reqs[id].r) == Db(st)
    ensures MintsEarned(LandDb(cfg, s, id, st, told))
  {
    hide Exec, Emit, ResumeDb, Record;
    assert ProvInv(cfg, s.reqs[id]);
    DbGrows(cfg, s.reqs[id], st, Exec(s.tables, st).1, EpochOf(s, s.reqs[id].r.input.email), told);
  }

  lemma MintsOther(cfg: Config, s: State, id: nat, told: bool, visible: bool)
    requires LoginsOk(cfg, s) && id in s.reqs && !Emit(cfg, s.reqs[id].r).Db?
    ensures MintsEarned(LandOther(cfg, s, id, Emit(cfg, s.reqs[id].r), told, visible))
  {
    hide Emit, AfterOther;
    if Emit(cfg, s.reqs[id].r).MintSession? { MintCalls(cfg, s.reqs[id]); }
  }

  lemma LoginsStep(cfg: Config, s: State, a: Action)
    requires LoginsOk(cfg, s) && Enabled(s, a)
    ensures LoginsOk(cfg, Next(cfg, s, a))
  {
    hide Exec, Emit, Begin, ProvOk, CodesOk, DigitsOk;
    ProvStep(cfg, s, a);
    CodesStep(cfg, s, a);
    DigitsStep(cfg, s, a);
    match a
    case Arrive(id, input, now) => BeginsBare(cfg, input, now);
    case Land(id, fate, visible) =>
      var c := Emit(cfg, s.reqs[id].r);
      if !fate.RolledBack? {
        if c.Db? { MintsDb(cfg, s, id, c.statement, fate.Committed?); }
        else { MintsOther(cfg, s, id, fate.Committed?, visible); }
      }
    case _ =>
  }

  lemma {:induction false} LoginsHold(cfg: Config, s: State, acts: seq<Action>)
    requires LoginsOk(cfg, s) && IsRun(cfg, s, acts)
    ensures LoginsOk(cfg, After(cfg, s, acts))
    decreases |acts|
  {
    if acts != [] {
      LoginsStep(cfg, s, acts[0]);
      LoginsHold(cfg, Next(cfg, s, acts[0]), acts[1..]);
    }
  }

  /** The request logged in: past its code, answered with a session, or its session minted. */
  predicate LoggedInBy(s: State, id: nat) requires id in s.reqs {
    var e := s.reqs[id];
    || e.r.pc.Entering? || (e.r.pc.Finished? && e.r.pc.response.Verified?)
    || (e.r.input.route.EmailVerify? && e.r.input.newSession in s.minted)
  }

  // ----- the DELETE -----

  /** The code stored for the request's address is the one it matched: the one of the digits it was sent. */
  predicate MatchIsLive(s: State, id: nat) requires id in s.reqs {
    var r := s.reqs[id].r;
    r.input.email in s.tables.codes &&
    var hash := s.tables.codes[r.input.email].codeHash;
    r.matched == Some(hash) && hash.email == r.input.email && hash.code == r.input.code
  }

  /** What matched is the hash of the digits sent. */
  lemma MatchedDigits(cfg: Config, s: State, id: nat)
    requires DigitsOk(cfg, s) && id in s.reqs && s.reqs[id].r.matched.Some?
    ensures var r := s.reqs[id].r; r.matched.value.email == r.input.email && r.matched.value.code == r.input.code
  {
    assert DigitsInv(cfg, s.reqs[id]);
  }

  /** The request's DELETE takes effect here, told or not. */
  predicate Deletes(s: State, a: Action, id: nat) {
    a.Land? && a.id == id && !a.fate.RolledBack? && id in s.reqs && s.reqs[id].r.pc == Guessing(VerifyConsume)
  }

  /** A request that lost its code: what it may still be doing. */
  predicate Lost(e: Entry) {
    && e.r.input.route.EmailVerify? && !e.t.consumed
    && match e.r.pc
       case Guessing(at) => at.VerifyCharge?
       case Finished(response) => !response.Verified?
       case Crashed => true
       case _ => false
  }

  lemma DeleteAnswered(cfg: Config, e: Entry, yes: bool, told: bool, epoch: nat)
    requires ProvInv(cfg, e) && CodeInv(e) && e.r.pc == Guessing(VerifyConsume)
    ensures Emit(cfg, e.r) == Db(ConsumeEmailCode(e.r.input.email, e.r.matched.value))
    ensures var st, r0 := ConsumeEmailCode(e.r.input.email, e.r.matched.value), e.r.(retried := false);
      var e' := Entry(if told then ResumeDb(cfg, r0, Flag(yes)) else To(r0, Crashed), Record(e.t, st, Flag(yes), epoch));
      && (e'.t.consumed <==> yes) && (e'.r.pc == Guessing(VerifyRefund) <==> told && yes && e.r.input.resolved.Some?)
      && (!yes ==> Lost(e'))
  {
    hide EmitStart, EmitGate, EmitEnter, EmitSetPin, EmitLogin, ResumeStart, ResumeGate, ResumeEnter,
         ResumeSetPin, ResumeLogin;
  }

  /** The DELETE consumes exactly the code still stored, and goes on exactly for a resolved user. */
  lemma DeleteOutcome(cfg: Config, s: State, a: Action, id: nat)
    requires LoginsOk(cfg, s) && Enabled(s, a) && Deletes(s, a, id)
    ensures id in Next(cfg, s, a).reqs
    ensures var e, e' := s.reqs[id], Next(cfg, s, a).reqs[id];
      && (e'.t.consumed <==> MatchIsLive(s, id))
      && (e'.r.pc == Guessing(VerifyRefund) <==> a.fate.Committed? && MatchIsLive(s, id) && e.r.input.resolved.Some?)
      && (!MatchIsLive(s, id) ==> Lost(e'))
  {
    hide Emit, ResumeDb, Record, Lost, AllVouched, AttemptsOk, DigitsOk, MintsEarned;
    var e := s.reqs[id];
    assert ProvInv(cfg, e) && CodeInv(e);
    MatchedDigits(cfg, s, id);
    DeleteAnswered(cfg, e, MatchIsLive(s, id), a.fate.Committed?, EpochOf(s, e.r.input.email));
    hide ProvInv, CodeInv, ProvOk, CodesOk;
    assert Exec(s.tables, ConsumeEmailCode(e.r.input.email, e.r.matched.value)).1 == Flag(MatchIsLive(s, id));
    hide Exec, MatchIsLive;
  }

  lemma LostAnswered(cfg: Config, e: Entry, st: Statement, result: Result, told: bool, epoch: nat)
    requires Lost(e) && Emit(cfg, e.r) == Db(st)
    ensures var r := e.r.(retried := false);
      Lost(Entry(if told then ResumeDb(cfg, r, result) else To(r, Crashed), Record(e.t, st, result, epoch)))
  {
    hide EmitStart, EmitGate, EmitEnter, EmitSetPin, EmitLogin, ResumeStart, ResumeGate, ResumeEnter,
         ResumeSetPin, ResumeLogin;
  }

  lemma LostOther(cfg: Config, e: Entry, found: Option<Session>, told: bool)
    requires Lost(e) && !Emit(cfg, e.r).Db? && !e.r.pc.Finished? && !e.r.pc.Crashed?
    ensures Lost(e.(r := AfterOther(cfg, e.r, Emit(cfg, e.r), found, told))) && !Emit(cfg, e.r).MintSession?
  {}

  lemma LostLands(cfg: Config, s: State, id: nat, fate: Fate, visible: bool)
    requires Waiting(s, id) && Lost(s.reqs[id])
    ensures Lost(Next(cfg, s, Land(id, fate, visible)).reqs[id])
  {
    var e, c := s.reqs[id], Emit(cfg, s.reqs[id].r);
    if !fate.RolledBack? {
      hide Exec, Emit, ResumeDb, Record, Lost, AfterOther, SessionFound;
      if c.Db? {
        LostAnswered(cfg, e, c.statement, Exec(s.tables, c.statement).1, fate.Committed?, EpochOf(s, e.r.input.email));
      } else {
        LostOther(cfg, e, SessionFound(s, c, visible), fate.Committed?);
      }
    }
  }

  lemma LostStays(cfg: Config, s: State, a: Action, id: nat)
    requires Enabled(s, a) && id in s.reqs && Lost(s.reqs[id])
    ensures id in Next(cfg, s, a).reqs && Lost(Next(cfg, s, a).reqs[id])
  {
    hide Exec, Emit, Begin, ResumeDb, Lost;
    if a.Land? && a.id == id { LostLands(cfg, s, id, a.fate, a.visible); }
  }

  lemma {:induction false} LostForGood(cfg: Config, s: State, acts: seq<Action>, id: nat)
    requires IsRun(cfg, s, acts) && id in s.reqs && Lost(s.reqs[id])
    ensures id in After(cfg, s, acts).reqs && Lost(After(cfg, s, acts).reqs[id])
    decreases |acts|
  {
    hide Next, Enabled, Lost;
    if acts != [] {
      LostStays(cfg, s, acts[0], id);
      LostForGood(cfg, Next(cfg, s, acts[0]), acts[1..], id);
    }
  }

  /**
   * A code overwritten (by a resend, or used up by a rival) between its
   * comparison and its DELETE: in every continuation the request that matched
   * it has consumed nothing, is never past its code, never answers `Verified`,
   * and its session is never minted.
   */
  lemma OverwrittenCodeNeverLogsIn(cfg: Config, before: seq<Action>, delete: Action, after: seq<Action>, id: nat)
    requires IsRun(cfg, Init, before)
    requires var s := After(cfg, Init, before);
      && Enabled(s, delete) && Deletes(s, delete, id) && !MatchIsLive(s, id)
      && IsRun(cfg, Next(cfg, s, delete), after)
    ensures var s := After(cfg, Next(cfg, After(cfg, Init, before), delete), after);
      id in s.reqs && !s.reqs[id].t.consumed && s.reqs[id].r.pc != Guessing(VerifyRefund) && !LoggedInBy(s, id)
  {
    hide IsRun, After, Next, CodesOk, ProvOk;
    LoginsBegin(cfg);
    var s := After(cfg, Init, before);
    LoginsHold(cfg, Init, before);
    DeleteOutcome(cfg, s, delete, id);
    LoginsStep(cfg, s, delete);
    LoginsHold(cfg, Next(cfg, s, delete), after);
    LostForGood(cfg, Next(cfg, s, delete), after, id);
  }

  lemma LoginsBegin(cfg: Config)
    ensures LoginsOk(cfg, Init)
  {
    CodesBegin(cfg);
  }

  // ----- every login -----

  /** At some step of the run, the request's DELETE took effect on the live code of the digits it was sent. */
  ghost predicate TookLiveCode(cfg: Config, s: State, acts: seq<Action>, id: nat)
    requires IsRun(cfg, s, acts)
    decreases |acts|
  {
    acts != [] && ((Deletes(s, acts[0], id) && MatchIsLive(s, id))
                   || TookLiveCode(cfg, Next(cfg, s, acts[0]), acts[1..], id))
  }

  predicate HasConsumed(s: State, id: nat) { id in s.reqs && s.reqs[id].t.consumed }

  lemma ConsumedLands(cfg: Config, s: State, id: nat, fate: Fate, visible: bool)
    requires CodesOk(cfg, s) && DigitsOk(cfg, s) && Waiting(s, id)
    ensures HasConsumed(Next(cfg, s, Land(id, fate, visible)), id)
      <==> HasConsumed(s, id) || (Deletes(s, Land(id, fate, visible), id) && MatchIsLive(s, id))
  {
    hide Emit, ResumeDb, AttemptsOk, AfterOther, SessionFound;
    var e, c := s.reqs[id], Emit(cfg, s.reqs[id].r);
    assert CodeInv(e);
    ConsumingCall(cfg, e, c);
    if e.r.matched.Some? { MatchedDigits(cfg, s, id); }
    hide DigitsOk, CodesOk, CodeInv;
    if !fate.RolledBack? && c.Db? {
      if c.statement.ConsumeEmailCode? {
        assert Exec(s.tables, c.statement).1 == Flag(MatchIsLive(s, id));
        hide Exec, MatchIsLive;
      } else {
        RecordWrites(e.t, c.statement, Exec(s.tables, c.statement).1, EpochOf(s, e.r.input.email));
        hide Exec, Record, MatchIsLive;
      }
    }
  }

  lemma ConsumingCall(cfg: Config, e: Entry, c: Call)
    requires CodeInv(e) && c == Emit(cfg, e.r)
    ensures c.Db? && c.statement.ConsumeEmailCode? <==> e.r.pc == Guessing(VerifyConsume)
    ensures c.Db? && c.statement.ConsumeEmailCode? ==>
      c.statement.email == e.r.input.email && e.r.matched == Some(c.statement.codeHash)
  {}

  lemma ConsumedStep(cfg: Config, s: State, a: Action, id: nat)
    requires CodesOk(cfg, s) && DigitsOk(cfg, s) && Enabled(s, a)
    ensures HasConsumed(Next(cfg, s, a), id) <==> HasConsumed(s, id) || (Deletes(s, a, id) && MatchIsLive(s, id))
  {
    hide Exec, Emit, Begin, ResumeDb, CodesOk, DigitsOk, MatchIsLive;
    if a.Land? && a.id == id { ConsumedLands(cfg, s, id, a.fate, a.visible); }
  }

  lemma {:induction false} ConsumedExactly(cfg: Config, s: State, acts: seq<Action>, id: nat)
    requires CodesOk(cfg, s) && DigitsOk(cfg, s) && IsRun(cfg, s, acts)
    ensures HasConsumed(After(cfg, s, acts), id) <==> HasConsumed(s, id) || TookLiveCode(cfg, s, acts, id)
    decreases |acts|
  {
    hide Next, Enabled, CodesOk, DigitsOk, HasConsumed, Deletes, MatchIsLive;
    if acts != [] {
      CodesStep(cfg, s, acts[0]);
      DigitsStep(cfg, s, acts[0]);
      ConsumedStep(cfg, s, acts[0], id);
      ConsumedExactly(cfg, Next(cfg, s, acts[0]), acts[1..], id);
    }
  }

  /**
   * In every run, cleanup included: whoever logged in by email has deleted the
   * code stored for its address, of the very digits it was sent.
   */
  lemma LoginsTakeLiveCodes(cfg: Config, acts: seq<Action>, id: nat)
    requires IsRun(cfg, Init, acts) && id in After(cfg, Init, acts).reqs && LoggedInBy(After(cfg, Init, acts), id)
    ensures TookLiveCode(cfg, Init, acts, id)
  {
    LoginsBegin(cfg);
    LoginsHold(cfg, Init, acts);
    ConsumedExactly(cfg, Init, acts, id);
    var s := After(cfg, Init, acts);
    assert ProvInv(cfg, s.reqs[id]) && CodeInv(s.reqs[id]);
  }
}

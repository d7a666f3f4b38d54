/** What the email-code bookkeeping promises over whole runs. */
module CodeRuns {
  import opened Basics
  import opened PinCredential
  import opened Tables
  import opened Routes
  import opened Runs
  import opened EmailCodes

  /** Statements that leave codes alone, and what they record. */
  lemma OtherStatements(s: State, st: Statement, t: Trace, epoch: nat)
    requires !st.PutEmailCode? && !st.ReserveEmailCodeAttempt? && !st.ConsumeEmailCode? && !st.Cleanup?
    ensures Exec(s.tables, st).0.codes == s.tables.codes && EpochsAfter(s, st) == s.epochs
    ensures var t' := Record(t, st, Exec(s.tables, st).1, epoch);
      t'.tried == t.tried && t'.issued == t.issued && t'.consumed == t.consumed
  {
    hide Exec, Record;
    Frame(s.tables, st);
    RecordWrites(t, st, Exec(s.tables, st).1, epoch);
  }

  lemma CodesDb(cfg: Config, s: State, id: nat, st: Statement, told: bool)
    requires CodesOk(cfg, s) && id in s.reqs && Emit(cfg, s.reqs[id].r) == Db(st)
    ensures CodesOk(cfg, LandDb(cfg, s, id, st, told))
  {
    var e, s' := s.reqs[id], LandDb(cfg, s, id, st, told);
    var epoch := EpochOf(s, e.r.input.email);
    assert CodeInv(e);
    CodeInvDb(cfg, e, st, Exec(s.tables, st).1, epoch);
    CodeCalls(cfg, e, st);
    if st.PutEmailCode? || st.ReserveEmailCodeAttempt? || st.ConsumeEmailCode? {
      CodeStatement(cfg, s, id, st, told);
    } else {
      OtherStatements(s, st, e.t, epoch);
      CodesQuiet(cfg, s, id, s'.reqs[id], s');
    }
  }

  lemma CodeStatement(cfg: Config, s: State, id: nat, st: Statement, told: bool)
    requires CodesOk(cfg, s) && id in s.reqs && CodeInv(LandDb(cfg, s, id, st, told).reqs[id])
    requires st.PutEmailCode? ==> st.issue.email == s.reqs[id].r.input.email && !s.reqs[id].t.issued
    requires st.ReserveEmailCodeAttempt? ==>
      st.email == s.reqs[id].r.input.email && st.max == cfg.codeMaxAttempts && s.reqs[id].t.tried.None?
    requires st.ConsumeEmailCode? ==> st.email == s.reqs[id].r.input.email && !s.reqs[id].t.consumed
    requires st.PutEmailCode? || st.ReserveEmailCodeAttempt? || st.ConsumeEmailCode?
    ensures CodesOk(cfg, LandDb(cfg, s, id, st, told))
  {
    hide Emit, ResumeDb, AttemptsOk, CodesOk, CodeInv;
    var s' := LandDb(cfg, s, id, st, told);
    if st.PutEmailCode? {
      CodeIssued(cfg, s, id, s'.reqs[id], s', st.issue);
    } else if st.ReserveEmailCodeAttempt? && CanTry(s.tables.codes, st.email, st.now, st.max) {
      AttemptTaken(cfg, s, id, s'.reqs[id], s', st.email);
    } else if st.ConsumeEmailCode? && st.email in s.tables.codes && s.tables.codes[st.email].codeHash == st.codeHash {
      CodeConsumed(cfg, s, id, s'.reqs[id], s', st.email);
    } else {
      CodesQuiet(cfg, s, id, s'.reqs[id], s');
    }
  }

  lemma CodesLand(cfg: Config, s: State, id: nat, fate: Fate, visible: bool)
    requires CodesOk(cfg, s) && Waiting(s, id)
    ensures CodesOk(cfg, Next(cfg, s, Land(id, fate, visible)))
  {
    var e, c := s.reqs[id], Emit(cfg, s.reqs[id].r);
    assert CodeInv(e);
    if fate.RolledBack? {
      CodeInvRollBack(e, fate.retryable);
      CodesQuiet(cfg, s, id, RollBack(e, fate.retryable), Next(cfg, s, Land(id, fate, visible)));
    } else if c.Db? {
      CodesDb(cfg, s, id, c.statement, fate.Committed?);
    } else {
      var e' := e.(r := AfterOther(cfg, e.r, c, SessionFound(s, c, visible), fate.Committed?));
      CodeInvOther(cfg, e, SessionFound(s, c, visible), fate.Committed?);
      CodesQuiet(cfg, s, id, e', LandOther(cfg, s, id, c, fate.Committed?, visible));
    }
  }

  lemma CodesSwept(cfg: Config, s: State, s': State)
    requires CodesOk(cfg, s) && s'.reqs == s.reqs && s'.epochs == s.epochs
    requires forall email :: email in s'.tables.codes ==>
      email in s.tables.codes && s'.tables.codes[email] == s.tables.codes[email]
    ensures CodesOk(cfg, s')
  {
    forall email ensures AttemptsOk(cfg, s', email) { assert AttemptsOk(cfg, s, email); }
  }

  lemma CodesStep(cfg: Config, s: State, a: Action)
    requires CodesOk(cfg, s) && Enabled(s, a)
    ensures CodesOk(cfg, Next(cfg, s, a))
  {
    match a
    case Arrive(id, input, now) =>
      CodeInvBegins(cfg, input, now);
      CodesQuiet(cfg, s, id, Entry(Begin(cfg, input, now), NoTrace), Next(cfg, s, a));
    case Land(id, fate, visible) => CodesLand(cfg, s, id, fate, visible);
    case OwnerRevokes(st) => CodesSwept(cfg, s, Next(cfg, s, a));
    case AppMints(_, _) => CodesSwept(cfg, s, Next(cfg, s, a));
    case Sweep(_, _) => CodesSwept(cfg, s, Next(cfg, s, a));
  }

  lemma {:induction false} CodesHold(cfg: Config, s: State, acts: seq<Action>)
    requires CodesOk(cfg, s) && IsRun(cfg, s, acts)
    ensures CodesOk(cfg, After(cfg, s, acts))
    decreases |acts|
  {
    if acts != [] {
      CodesStep(cfg, s, acts[0]);
      CodesHold(cfg, Next(cfg, s, acts[0]), acts[1..]);
    }
  }

  lemma CodesBegin(cfg: Config)
    ensures CodesOk(cfg, Init)
  {
    forall email ensures AttemptsOk(cfg, Init, email) {
      forall k: nat ensures Tried(Init.reqs, email, k) == 0 {
        assert Matching(Init.reqs, (e: Entry) => e.r.input.email == email && e.t.tried == Some(k)) == {};
      }
      assert Matching(Init.reqs, (e: Entry) => e.r.input.email == email && e.t.consumed) == {};
    }
  }

  /**
   * Any interleaving, cleanup included: at most `codeMaxAttempts` guesses are
   * compared per attempt epoch of an address, and the logins an address gives
   * plus the code still live never exceed the codes issued for it.
   */
  lemma GuessesAndLogins(cfg: Config, acts: seq<Action>, email: Email, epoch: nat)
    requires IsRun(cfg, Init, acts)
    ensures var s := After(cfg, Init, acts);
      && Guesses(s.reqs, email, epoch) <= Tried(s.reqs, email, epoch) <= cfg.codeMaxAttempts
      && Logins(s.reqs, email) + LiveRow(s.tables.codes, email) <= Issued(s.reqs, email)
  {
    CodesBegin(cfg);
    CodesHold(cfg, Init, acts);
    var s := After(cfg, Init, acts);
    assert AttemptsOk(cfg, s, email);
    GuessesAreTried(s, email, epoch);
    LoginsAreConsumed(cfg, s, email);
  }

  lemma GuessesAreTried(s: State, email: Email, epoch: nat)
    ensures Guesses(s.reqs, email, epoch) <= Tried(s.reqs, email, epoch)
  {
    CountMonotone(s.reqs, (e: Entry) => e.r.input.email == email && e.t.tried == Some(epoch) && e.r.guess.Some?,
                  (e: Entry) => e.r.input.email == email && e.t.tried == Some(epoch));
  }

  lemma LoginsAreConsumed(cfg: Config, s: State, email: Email)
    requires CodesOk(cfg, s)
    ensures Logins(s.reqs, email) <= Consumed(s.reqs, email)
  {
    CountMonotone(s.reqs,
      (e: Entry) => e.r.input.email == email && (e.r.pc.Entering? || (e.r.pc.Finished? && e.r.pc.response.Verified?)),
      (e: Entry) => e.r.input.email == email && e.t.consumed);
  }

  // ----- resends -----

  /** No code of the address is used up or swept, and no resend reads a clock at or past `deadline`. */
  predicate KeepsDeadline(s: State, act: Action, email: Email, deadline: Time) {
    && !act.Sweep?
    && (act.Land? && act.id in s.reqs && !act.fate.RolledBack? && s.reqs[act.id].r.input.email == email ==>
        var r := s.reqs[act.id].r;
        && (r.pc == Starting(StartPut) ==> r.now < deadline)
        && (r.pc == Guessing(VerifyConsume) && email in s.tables.codes ==> r.matched != Some(s.tables.codes[email].codeHash)))
  }

  ghost predicate AllKeepDeadline(cfg: Config, s: State, acts: seq<Action>, email: Email, deadline: Time)
    requires IsRun(cfg, s, acts)
    decreases |acts|
  {
    acts == [] || (KeepsDeadline(s, acts[0], email, deadline)
                   && AllKeepDeadline(cfg, Next(cfg, s, acts[0]), acts[1..], email, deadline))
  }

  predicate SameDeadline(s: State, s': State, email: Email, deadline: Time) {
    && email in s.tables.codes && email in s'.tables.codes
    && s.tables.codes[email].attemptsResetAt == deadline && s'.tables.codes[email].attemptsResetAt == deadline
    && EpochOf(s', email) == EpochOf(s, email)
  }

  /** Attempts on the address taken since `s` all fall in its epoch at `s`. */
  predicate SameEpochTries(s: State, s': State, email: Email) {
    forall id :: id in s'.reqs && s'.reqs[id].r.input.email == email && s'.reqs[id].t.tried.Some? ==>
      || (id in s.reqs && s.reqs[id].r.input == s'.reqs[id].r.input && s.reqs[id].t.tried == s'.reqs[id].t.tried)
      || s'.reqs[id].t.tried == Some(EpochOf(s, email))
  }

  lemma DeadlineDb(cfg: Config, s: State, id: nat, st: Statement, told: bool, email: Email, deadline: Time)
    requires id in s.reqs && CodeInv(s.reqs[id]) && Emit(cfg, s.reqs[id].r) == Db(st)
    requires email in s.tables.codes && s.tables.codes[email].attemptsResetAt == deadline
    requires KeepsDeadline(s, Land(id, if told then Committed else ReplyLost, false), email, deadline)
    ensures var s' := LandDb(cfg, s, id, st, told);
      && SameDeadline(s, s', email, deadline)
      && (s'.reqs[id].t.tried == s.reqs[id].t.tried
          || s'.reqs[id].t.tried == Some(EpochOf(s, s.reqs[id].r.input.email)))
  {
    hide Emit, ResumeDb;
    CodeCalls(cfg, s.reqs[id], st);
    if !st.PutEmailCode? && !st.ReserveEmailCodeAttempt? && !st.ConsumeEmailCode? {
      OtherStatements(s, st, s.reqs[id].t, EpochOf(s, s.reqs[id].r.input.email));
    }
  }

  lemma DeadlineLand(cfg: Config, s: State, id: nat, fate: Fate, visible: bool, email: Email, deadline: Time)
    requires CodesOk(cfg, s) && Waiting(s, id) && KeepsDeadline(s, Land(id, fate, visible), email, deadline)
    requires email in s.tables.codes && s.tables.codes[email].attemptsResetAt == deadline
    ensures var s' := Next(cfg, s, Land(id, fate, visible));
      && SameDeadline(s, s', email, deadline) && s'.reqs == s.reqs[id := s'.reqs[id]]
      && s'.reqs[id].r.input == s.reqs[id].r.input
      && s'.reqs[id].t.tried in {s.reqs[id].t.tried, Some(EpochOf(s, s.reqs[id].r.input.email))}
  {
    assert CodeInv(s.reqs[id]);
    var c := Emit(cfg, s.reqs[id].r);
    if !fate.RolledBack? && c.Db? {
      DeadlineDb(cfg, s, id, c.statement, fate.Committed?, email, deadline);
    }
  }

  lemma DeadlineStep(cfg: Config, s: State, act: Action, email: Email, deadline: Time)
    requires CodesOk(cfg, s) && Enabled(s, act) && KeepsDeadline(s, act, email, deadline)
    requires email in s.tables.codes && s.tables.codes[email].attemptsResetAt == deadline
    ensures SameDeadline(s, Next(cfg, s, act), email, deadline) && SameEpochTries(s, Next(cfg, s, act), email)
  {
    match act
    case Arrive(id, input, now) =>
    case Land(id, fate, visible) => DeadlineLand(cfg, s, id, fate, visible, email, deadline);
    case OwnerRevokes(st) =>
    case AppMints(_, _) =>
  }

  lemma {:induction false} DeadlineStands(cfg: Config, s: State, acts: seq<Action>, email: Email, deadline: Time)
    requires CodesOk(cfg, s) && IsRun(cfg, s, acts) && AllKeepDeadline(cfg, s, acts, email, deadline)
    requires email in s.tables.codes && s.tables.codes[email].attemptsResetAt == deadline
    ensures SameDeadline(s, After(cfg, s, acts), email, deadline) && SameEpochTries(s, After(cfg, s, acts), email)
    decreases |acts|
  {
    if acts != [] {
      var next := Next(cfg, s, acts[0]);
      CodesStep(cfg, s, acts[0]);
      DeadlineStep(cfg, s, acts[0], email, deadline);
      DeadlineStands(cfg, next, acts[1..], email, deadline);
      TriesCompose(s, next, After(cfg, next, acts[1..]), email);
    }
  }

  lemma TriesCompose(s: State, mid: State, s': State, email: Email)
    requires SameEpochTries(s, mid, email) && SameEpochTries(mid, s', email) && EpochOf(mid, email) == EpochOf(s, email)
    ensures SameEpochTries(s, s', email)
  {}

  /**
   * A chain of resends, none of whose clocks has reached the deadline, with no
   * code used up in between: the deadline stays put, every guess made
   * meanwhile draws on the one allowance, and that allowance is
   * `codeMaxAttempts` in all.
   */
  lemma ResendsShareOneAllowance(cfg: Config, s: State, acts: seq<Action>, email: Email, deadline: Time)
    requires CodesOk(cfg, s) && IsRun(cfg, s, acts) && AllKeepDeadline(cfg, s, acts, email, deadline)
    requires email in s.tables.codes && s.tables.codes[email].attemptsResetAt == deadline
    ensures var s' := After(cfg, s, acts);
      && SameDeadline(s, s', email, deadline) && SameEpochTries(s, s', email)
      && Guesses(s'.reqs, email, EpochOf(s, email)) <= cfg.codeMaxAttempts
  {
    DeadlineStands(cfg, s, acts, email, deadline);
    CodesHold(cfg, s, acts);
    GuessesAreTried(After(cfg, s, acts), email, EpochOf(s, email));
    assert AttemptsOk(cfg, After(cfg, s, acts), email);
  }
}

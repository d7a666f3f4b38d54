/** What opening the circuit breaker takes (README.md:939-958). */
module BreakerRuns {
  import opened Basics
  import opened PinCredential
  import opened Tables
  import opened Routes
  import opened Runs
  import opened Breaker

  lemma BreakerDb(cfg: Config, s: State, id: nat, st: Statement, told: bool)
    requires ValidConfig(cfg) && BreakerOk(cfg, s) && id in s.reqs && Emit(cfg, s.reqs[id].r) == Db(st)
    ensures BreakerOk(cfg, LandDb(cfg, s, id, st, told))
  {
    var e, s', limits := s.reqs[id], LandDb(cfg, s, id, st, told), s.tables.limits;
    var epoch, e' := EpochOf(s, e.r.input.email), s'.reqs[id];
    assert ChargeInv(cfg, e);
    ChargeInvDb(cfg, e, st, Exec(s.tables, st).1, epoch);
    ChargeCalls(cfg, e, st);
    if st.HitCircuitBreaker? {
      NewCharge(s.reqs, limits, id, e', st.windowMs, st.now, st.failed);
      SameHit(cfg, s.reqs, limits, id, e', s'.tables.limits);
    } else if st.HitRateLimit? && Counting(st.bucket) {
      NewHit(cfg, s.reqs, limits, id, e', st.bucket.ipKey, st.now);
      SameCharge(s.reqs, limits, id, e', s'.tables.limits);
    } else {
      OtherStatements(s.tables, st);
      OtherRecords(s.tables, st, e.t, epoch);
      SameCharge(s.reqs, limits, id, e', s'.tables.limits);
      SameHit(cfg, s.reqs, limits, id, e', s'.tables.limits);
    }
  }

  lemma BreakerLand(cfg: Config, s: State, id: nat, fate: Fate, visible: bool)
    requires ValidConfig(cfg) && BreakerOk(cfg, s) && Waiting(s, id)
    ensures BreakerOk(cfg, Next(cfg, s, Land(id, fate, visible)))
  {
    var e, c, limits := s.reqs[id], Emit(cfg, s.reqs[id].r), s.tables.limits;
    assert ChargeInv(cfg, e);
    if fate.RolledBack? {
      ChargeInvRollBack(cfg, e, fate.retryable);
      Quiet(cfg, s, id, RollBack(e, fate.retryable));
    } else if c.Db? {
      BreakerDb(cfg, s, id, c.statement, fate.Committed?);
    } else {
      var found := SessionFound(s, c, visible);
      ChargeInvOther(cfg, e, found, fate.Committed?);
      Quiet(cfg, s, id, e.(r := AfterOther(cfg, e.r, c, found, fate.Committed?)));
    }
  }

  /** A request moves without counting anything. */
  lemma Quiet(cfg: Config, s: State, id: nat, e: Entry)
    requires BreakerOk(cfg, s) && ChargeInv(cfg, e)
    requires e.t.charge == (if id in s.reqs then s.reqs[id].t.charge else None)
    requires e.t.ipHit == (if id in s.reqs then s.reqs[id].t.ipHit else None)
    ensures BreakerOk(cfg, s.(reqs := s.reqs[id := e]))
  {
    SameCharge(s.reqs, s.tables.limits, id, e, s.tables.limits);
    SameHit(cfg, s.reqs, s.tables.limits, id, e, s.tables.limits);
  }

  lemma BreakerStep(cfg: Config, s: State, a: Action)
    requires ValidConfig(cfg) && BreakerOk(cfg, s) && Enabled(s, a) && !a.Sweep?
    ensures BreakerOk(cfg, Next(cfg, s, a))
  {
    hide BreakerOk, Exec, Emit, ResumeDb, Begin, LandCall, FreshIds;
    match a
    case Arrive(id, input, now) => BreakerArrive(cfg, s, id, input, now);
    case Land(id, fate, visible) => BreakerLand(cfg, s, id, fate, visible);
    case OwnerRevokes(st) =>
      Frame(s.tables, st);
      SameCounting(cfg, s, Next(cfg, s, a));
    case AppMints(_, _) => SameCounting(cfg, s, Next(cfg, s, a));
  }

  lemma BreakerArrive(cfg: Config, s: State, id: nat, input: Input, now: Time)
    requires BreakerOk(cfg, s) && id !in s.reqs
    ensures BreakerOk(cfg, s.(reqs := s.reqs[id := Entry(Begin(cfg, input, now), NoTrace)]))
  {
    hide BreakerOk, Begin;
    ChargeInvBegins(cfg, input, now);
    Quiet(cfg, s, id, Entry(Begin(cfg, input, now), NoTrace));
  }

  lemma SameCounting(cfg: Config, s: State, s': State)
    requires BreakerOk(cfg, s) && s'.reqs == s.reqs && s'.tables.limits == s.tables.limits
    ensures BreakerOk(cfg, s')
  {}

  lemma {:induction false} BreakersHold(cfg: Config, s: State, acts: seq<Action>)
    requires ValidConfig(cfg) && BreakerOk(cfg, s) && IsRun(cfg, s, acts) && NoSweep(acts)
    ensures BreakerOk(cfg, After(cfg, s, acts))
    decreases |acts|
  {
    if acts != [] {
      BreakerStep(cfg, s, acts[0]);
      BreakersHold(cfg, Next(cfg, s, acts[0]), acts[1..]);
    }
  }

  lemma BreakersBegin(cfg: Config)
    ensures BreakerOk(cfg, Init)
  {
    forall key, w ensures PassedHits(cfg, Init.reqs, key, w) == 0 {
      assert Matching(Init.reqs, (e: Entry) => PassedHit(cfg, e, key, w)) == {};
    }
  }

  /** Verifications that compared a code and answered, against what they were charged. */
  ghost predicate AnsweredAreCharged(cfg: Config, s: State) {
    forall id :: id in s.reqs ==>
      && (s.reqs[id].r.pc == Finished(InvalidCode) ==> ChargeMatches(cfg, s.reqs[id], false))
      && (s.reqs[id].r.pc.Finished? && s.reqs[id].r.pc.response.Verified? ==> ChargeMatches(cfg, s.reqs[id], true))
      && (s.reqs[id].t.charge.Some? ==> s.reqs[id].r.guess.Some?)
  }

  /**
   * From the empty store, under any interleaving without cleanup: the breaker
   * row counts exactly the verifications charged in its window and exactly the
   * failed ones among them, only compared guesses are charged, and every
   * answered one is, as failed exactly when it was refused.
   */
  lemma BreakerRowIsExact(cfg: Config, acts: seq<Action>)
    requires ValidConfig(cfg) && IsRun(cfg, Init, acts) && NoSweep(acts)
    ensures var s := After(cfg, Init, acts);
      && AnsweredAreCharged(cfg, s)
      && (VerifyBreaker in s.tables.limits ==>
            var row := s.tables.limits[VerifyBreaker];
            && row.count == ChargesIn(s.reqs, row.windowStart)
            && row.failures == FailuresIn(s.reqs, row.windowStart) <= row.count)
  {
    BreakersBegin(cfg);
    BreakersHold(cfg, Init, acts);
    AnsweredFromInv(cfg, After(cfg, Init, acts));
    FailuresAreCharges(After(cfg, Init, acts).reqs);
  }

  lemma AnsweredFromInv(cfg: Config, s: State)
    requires forall id :: id in s.reqs ==> ChargeInv(cfg, s.reqs[id])
    ensures AnsweredAreCharged(cfg, s)
  {
    forall id | id in s.reqs
      ensures s.reqs[id].r.pc == Finished(InvalidCode) ==> ChargeMatches(cfg, s.reqs[id], false)
      ensures s.reqs[id].r.pc.Finished? && s.reqs[id].r.pc.response.Verified? ==> ChargeMatches(cfg, s.reqs[id], true)
      ensures s.reqs[id].t.charge.Some? ==> s.reqs[id].r.guess.Some?
    {
      assert ChargeInv(cfg, s.reqs[id]);
    }
  }

  lemma FailuresAreCharges(reqs: map<nat, Entry>)
    ensures forall w :: FailuresIn(reqs, w) <= ChargesIn(reqs, w)
  {
    forall w ensures FailuresIn(reqs, w) <= ChargesIn(reqs, w) {
      CountMonotone(reqs, (e: Entry) => e.t.charge == Some(Charge(w, true)),
                    (e: Entry) => e.t.charge.Some? && e.t.charge.value.windowStart == w);
    }
  }
}

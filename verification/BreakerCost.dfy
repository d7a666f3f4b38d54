/** How many IP keys it takes to open the circuit breaker (README.md:946-954). */
module BreakerCost {
  import opened Basics
  import opened Tables
  import opened Routes
  import opened Runs
  import opened Breaker
  import opened BreakerRuns

  function BreakerWindow(cfg: Config): int { if cfg.breaker.Some? then cfg.breaker.value.windowMs else 0 }

  /** One request's counts lie in windows that contain its reading. */
  predicate Timed(cfg: Config, e: Entry) {
    && (e.t.charge.Some? ==>
          e.t.charge.value.windowStart <= e.r.now < e.t.charge.value.windowStart + BreakerWindow(cfg))
    && (e.t.ipHit.Some? ==>
          e.t.ipHit.value.windowStart <= e.r.now < e.t.ipHit.value.windowStart + HOUR_MS)
  }

  predicate HitsApart(g: IpHit, h: IpHit) { g.bucket == h.bucket ==> Apart(g.windowStart, h.windowStart, HOUR_MS) }

  ghost predicate AllApart(reqs: map<nat, Entry>) {
    forall i, j :: i in reqs && j in reqs && reqs[i].t.ipHit.Some? && reqs[j].t.ipHit.Some? ==>
      HitsApart(reqs[i].t.ipHit.value, reqs[j].t.ipHit.value)
  }

  ghost predicate BreakerTimed(cfg: Config, s: State) {
    (forall id :: id in s.reqs ==> Timed(cfg, s.reqs[id])) && AllApart(s.reqs)
  }

  /** The breaker and the per-IP rows of `/email/verify`. */
  const Concerned: Bucket -> bool := (b: Bucket) => Counting(b)

  lemma HitApart(reqs: map<nat, Entry>, limits: map<Bucket, LimitRow>, id: nat, e: Entry, now: Time)
    requires AllApart(reqs) && HitsPlaced(reqs, limits) && id in reqs && reqs[id].t.ipHit.None? && e.t.ipHit.Some?
    requires e.t.ipHit.value.windowStart == CountedRow(limits, e.t.ipHit.value.bucket, HOUR_MS, now).windowStart
    ensures AllApart(reqs[id := e])
  {
    forall j | j in reqs && reqs[j].t.ipHit.Some?
      ensures HitsApart(e.t.ipHit.value, reqs[j].t.ipHit.value) && HitsApart(reqs[j].t.ipHit.value, e.t.ipHit.value)
    {}
  }

  /** A request moves without counting anything. */
  lemma TimedKeeps(cfg: Config, s: State, id: nat, e: Entry, s': State)
    requires BreakerTimed(cfg, s) && s'.reqs == s.reqs[id := e]
    requires if id in s.reqs then e.r.now == s.reqs[id].r.now && SameCounts(s.reqs[id].t, e.t) else e.t == NoTrace
    ensures BreakerTimed(cfg, s')
  {}

  predicate SameCounts(t: Trace, t': Trace) { t'.charge == t.charge && t'.ipHit == t.ipHit }

  lemma TimedCharge(cfg: Config, s: State, id: nat, e: Entry, s': State, failed: bool)
    requires ValidConfig(cfg) && cfg.breaker.Some? && BreakerTimed(cfg, s) && id in s.reqs
    requires s'.reqs == s.reqs[id := e] && e.r.now == s.reqs[id].r.now && NotBefore(s, VerifyBreaker, e.r.now)
    requires var row := BreakerRow(s.tables.limits, VerifyBreaker, BreakerWindow(cfg), e.r.now, failed);
      && s'.tables.limits == s.tables.limits[VerifyBreaker := row]
      && e.t == s.reqs[id].t.(charge := Some(Charge(row.windowStart, failed)))
    ensures BreakerTimed(cfg, s')
  {}

  lemma TimedHit(cfg: Config, s: State, id: nat, e: Entry, s': State, b: Bucket)
    requires BreakerTimed(cfg, s) && HitsPlaced(s.reqs, s.tables.limits) && id in s.reqs && s.reqs[id].t.ipHit.None?
    requires s'.reqs == s.reqs[id := e] && e.r.now == s.reqs[id].r.now && NotBefore(s, b, e.r.now)
    requires var row := CountedRow(s.tables.limits, b, HOUR_MS, e.r.now);
      && b.PerIp? && b.action.OtpVerify? && s'.tables.limits == s.tables.limits[b := row]
      && e.t == s.reqs[id].t.(ipHit := Some(IpHit(b, row.windowStart, row.count)))
    ensures BreakerTimed(cfg, s')
  {
    HitApart(s.reqs, s.tables.limits, id, e, e.r.now);
  }

  lemma TimedDb(cfg: Config, s: State, id: nat, st: Statement, told: bool)
    requires ValidConfig(cfg) && BreakerOk(cfg, s) && BreakerTimed(cfg, s) && id in s.reqs
    requires Emit(cfg, s.reqs[id].r) == Db(st)
    requires CountsOn(st).Some? && Counting(CountsOn(st).value) ==> NotBefore(s, CountsOn(st).value, s.reqs[id].r.now)
    ensures BreakerTimed(cfg, LandDb(cfg, s, id, st, told))
  {
    var e, s' := s.reqs[id], LandDb(cfg, s, id, st, told);
    assert ChargeInv(cfg, e);
    ChargeCalls(cfg, e, st);
    if st.HitCircuitBreaker? {
      TimedCharge(cfg, s, id, s'.reqs[id], s', st.failed);
    } else if st.HitRateLimit? && Counting(st.bucket) {
      TimedHit(cfg, s, id, s'.reqs[id], s', st.bucket);
    } else {
      OtherStatements(s.tables, st);
      OtherRecords(s.tables, st, e.t, EpochOf(s, e.r.input.email));
      TimedKeeps(cfg, s, id, s'.reqs[id], s');
    }
  }

  lemma TimedLand(cfg: Config, s: State, id: nat, fate: Fate, visible: bool)
    requires ValidConfig(cfg) && BreakerOk(cfg, s) && BreakerTimed(cfg, s) && Waiting(s, id)
    requires ForwardStep(cfg, s, Land(id, fate, visible), Concerned)
    ensures BreakerTimed(cfg, Next(cfg, s, Land(id, fate, visible)))
  {
    var c, s' := Emit(cfg, s.reqs[id].r), Next(cfg, s, Land(id, fate, visible));
    if !fate.RolledBack? && c.Db? {
      TimedDb(cfg, s, id, c.statement, fate.Committed?);
    } else {
      TimedKeeps(cfg, s, id, s'.reqs[id], s');
    }
  }

  lemma TimedStep(cfg: Config, s: State, a: Action)
    requires ValidConfig(cfg) && BreakerOk(cfg, s) && BreakerTimed(cfg, s) && Enabled(s, a) && !a.Sweep?
    requires ForwardStep(cfg, s, a, Concerned)
    ensures BreakerTimed(cfg, Next(cfg, s, a))
  {
    match a
    case Arrive(id, input, now) => TimedKeeps(cfg, s, id, Next(cfg, s, a).reqs[id], Next(cfg, s, a));
    case Land(id, fate, visible) => TimedLand(cfg, s, id, fate, visible);
    case OwnerRevokes(st) =>
    case AppMints(_, _) =>
  }

  lemma {:induction false} BreakerStaysTimed(cfg: Config, s: State, acts: seq<Action>)
    requires ValidConfig(cfg) && BreakerOk(cfg, s) && BreakerTimed(cfg, s)
    requires IsRun(cfg, s, acts) && NoSweep(acts) && CountsForward(cfg, s, acts, Concerned)
    ensures BreakerOk(cfg, After(cfg, s, acts)) && BreakerTimed(cfg, After(cfg, s, acts))
    decreases |acts|
  {
    if acts != [] {
      BreakerStep(cfg, s, acts[0]);
      TimedStep(cfg, s, acts[0]);
      BreakerStaysTimed(cfg, Next(cfg, s, acts[0]), acts[1..]);
    }
  }

  // ----- counting the IP keys -----

  ghost function FailedIn(reqs: map<nat, Entry>, w: Time): set<nat> {
    Matching(reqs, (e: Entry) => e.t.charge == Some(Charge(w, true)))
  }

  function IpOf(reqs: map<nat, Entry>, id: nat): string {
    if id in reqs && reqs[id].r.input.ip.Some? then reqs[id].r.input.ip.value else ""
  }

  function HitStart(reqs: map<nat, Entry>, id: nat): Time {
    if id in reqs && reqs[id].t.ipHit.Some? then reqs[id].t.ipHit.value.windowStart else 0
  }

  /** One IP key's share of a breaker window: two of its own windows at most. */
  lemma SharePerIp(cfg: Config, s: State, w: Time, key: string, ids: set<nat>)
    requires BreakerOk(cfg, s) && BreakerTimed(cfg, s) && BreakerWindow(cfg) <= HOUR_MS
    requires forall id :: id in ids ==>
      && id in FailedIn(s.reqs, w) && s.reqs[id].r.input.ip == Some(key)
    ensures |ids| <= 2 * cfg.verifiesPerIp
  {
    var start := (id: nat) => HitStart(s.reqs, id);
    forall i | i in ids
      ensures s.reqs[i].t.ipHit.Some? && PassedHit(cfg, s.reqs[i], key, start(i))
      ensures w - HOUR_MS < start(i) < w + HOUR_MS
    {
      assert ChargeInv(cfg, s.reqs[i]) && Timed(cfg, s.reqs[i]);
    }
    forall i, j | i in ids && j in ids ensures Apart(start(i), start(j), HOUR_MS) {
      assert HitsApart(s.reqs[i].t.ipHit.value, s.reqs[j].t.ipHit.value);
    }
    forall i | i in ids ensures |Fibre(ids, start, start(i))| <= cfg.verifiesPerIp {
      Subset(Fibre(ids, start, start(i)), Matching(s.reqs, (e: Entry) => PassedHit(cfg, e, key, start(i))));
      assert PassedHits(cfg, s.reqs, key, start(i)) <= cfg.verifiesPerIp;
    }
    TwoWindowsCover(ids, start, HOUR_MS, w, cfg.verifiesPerIp);
  }

  lemma FailuresPerKeys(cfg: Config, s: State, w: Time, keys: set<string>)
    requires BreakerOk(cfg, s) && BreakerTimed(cfg, s) && BreakerWindow(cfg) <= HOUR_MS
    requires forall id :: id in FailedIn(s.reqs, w) ==> s.reqs[id].r.input.ip.Some? && s.reqs[id].r.input.ip.value in keys
    ensures FailuresIn(s.reqs, w) <= (2 * cfg.verifiesPerIp) * |keys|
  {
    var ids, ipOf := FailedIn(s.reqs, w), (id: nat) => IpOf(s.reqs, id);
    forall k | k in keys ensures |Fibre(ids, ipOf, k)| <= 2 * cfg.verifiesPerIp {
      SharePerIp(cfg, s, w, k, Fibre(ids, ipOf, k));
    }
    Fibres(ids, ipOf, keys, 2 * cfg.verifiesPerIp);
  }

  /** Every failed verification charged in the window came with an IP, one of `keys`. */
  ghost predicate FromKeys(reqs: map<nat, Entry>, w: Time, keys: set<string>) {
    forall id :: id in FailedIn(reqs, w) ==> reqs[id].r.input.ip.Some? && reqs[id].r.input.ip.value in keys
  }

  /**
   * Whenever a request would find the breaker open, its window holds failures
   * from at least minFailures / (2 * verifiesPerIp) distinct IP keys, if no
   * statement counted on the breaker or a per-IP limit lands with a reading
   * from before the window it finds there, every failed request came with an
   * IP, and the breaker's window is at most an hour.
   */
  lemma OpeningTakesManyIps(cfg: Config, acts: seq<Action>, now: Time, keys: set<string>)
    requires ValidConfig(cfg) && cfg.breaker.Some? && cfg.breaker.value.windowMs <= HOUR_MS
    requires IsRun(cfg, Init, acts) && NoSweep(acts)
    requires CountsForward(cfg, Init, acts, Concerned)
    requires var s := After(cfg, Init, acts);
      && BreakerOpen(cfg.breaker.value, LiveCounts(s.tables.limits, VerifyBreaker, cfg.breaker.value.windowMs, now))
      && (VerifyBreaker in s.tables.limits ==> FromKeys(s.reqs, s.tables.limits[VerifyBreaker].windowStart, keys))
    ensures cfg.breaker.value.minFailures <= (2 * cfg.verifiesPerIp) * |keys|
  {
    BreakersBegin(cfg);
    BreakerStaysTimed(cfg, Init, acts);
    var s := After(cfg, Init, acts);
    FailuresPerKeys(cfg, s, s.tables.limits[VerifyBreaker].windowStart, keys);
  }
}

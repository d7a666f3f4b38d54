/** What the failure budgets promise: per window (any clocks) and per interval (clocks in landing order). */
module BudgetWindows {
  import opened Basics
  import opened Tables
  import opened Routes
  import opened Runs
  import opened Budgets

  /** Guesses compared with a live code and found wrong, on slots of bucket `b` in the window that opened at `w`. */
  ghost function WrongGuesses(reqs: map<nat, Entry>, b: Bucket, w: Time): nat {
    Count(reqs, (e: Entry) => e.t.slot == Some(HeldSlot(b, w)) && e.r.guess == Some(false))
  }

  /** Requests that hold a slot in the window and still run: what the handlers themselves know to be charged. */
  ghost function KnownHolders(reqs: map<nat, Entry>, b: Bucket, w: Time): nat {
    Count(reqs, (e: Entry) => e.t.slot == Some(HeldSlot(b, w)) && !e.r.pc.Crashed?)
  }

  /**
   * From the empty store, under any interleaving without cleanup: at most
   * `max` wrong guesses per window of a budget, all of them on slots still
   * charged; the row is exact, so a lost reply or a retry never leaves it
   * below what the surviving requests hold.
   */
  lemma GuessesPerWindow(cfg: Config, acts: seq<Action>, b: Bucket, w: Time)
    requires ValidConfig(cfg) && IsRun(cfg, Init, acts) && NoSweep(acts) && IsFailureBucket(b)
    ensures var s := After(cfg, Init, acts);
      && WrongGuesses(s.reqs, b, w) <= Held(s.reqs, b, w) <= MaxFailures(cfg, b)
      && (forall id :: id in s.reqs && s.reqs[id].r.guess == Some(false) ==> s.reqs[id].t.slot.Some?)
      && (b in s.tables.limits ==>
          var row := s.tables.limits[b];
          && row.count == Held(s.reqs, b, row.windowStart) <= MaxFailures(cfg, b)
          && row.count >= KnownHolders(s.reqs, b, row.windowStart))
  {
    BudgetsBegin(cfg);
    BudgetsHold(cfg, Init, acts);
    var s := After(cfg, Init, acts);
    HeldBounds(s.reqs, b, w);
    if b in s.tables.limits { HeldBounds(s.reqs, b, s.tables.limits[b].windowStart); }
  }

  lemma HeldBounds(reqs: map<nat, Entry>, b: Bucket, w: Time)
    ensures WrongGuesses(reqs, b, w) <= Held(reqs, b, w) && KnownHolders(reqs, b, w) <= Held(reqs, b, w)
  {
    var held := (e: Entry) => e.t.slot == Some(HeldSlot(b, w));
    CountMonotone(reqs, (e: Entry) => e.t.slot == Some(HeldSlot(b, w)) && e.r.guess == Some(false), held);
    CountMonotone(reqs, (e: Entry) => e.t.slot == Some(HeldSlot(b, w)) && !e.r.pc.Crashed?, held);
  }

  // ----- readings that do not go back behind a window -----

  /**
   * On the buckets concerned: every slot's window contains the reading it was
   * taken at, and two windows of a bucket are a window length apart.
   */
  ghost predicate SlotsTimed(cfg: Config, reqs: map<nat, Entry>, which: Bucket -> bool) {
    && (forall id :: id in reqs && TakenOn(reqs[id], which) ==>
          var w := reqs[id].t.slot.value.windowStart;
          w <= reqs[id].r.now < w + cfg.failureWindowMs)
    && (forall i, j :: i in reqs && j in reqs && TakenOn(reqs[i], which) && TakenOn(reqs[j], which) ==>
          SlotsApart(cfg, reqs[i].t.slot.value, reqs[j].t.slot.value))
  }

  predicate TakenOn(e: Entry, which: Bucket -> bool) { e.t.slot.Some? && which(e.t.slot.value.bucket) }

  predicate SlotsApart(cfg: Config, g: HeldSlot, h: HeldSlot) {
    g.bucket == h.bucket ==> Apart(g.windowStart, h.windowStart, cfg.failureWindowMs)
  }

  /** A step that takes no slot. */
  lemma TimedKeeps(cfg: Config, reqs: map<nat, Entry>, id: nat, e: Entry, which: Bucket -> bool)
    requires SlotsTimed(cfg, reqs, which)
    requires e.t.slot.Some? ==> id in reqs && e.t.slot == reqs[id].t.slot && e.r.now == reqs[id].r.now
    ensures SlotsTimed(cfg, reqs[id := e], which)
  {}

  lemma TimedTakes(cfg: Config, s: State, id: nat, e: Entry, b: Bucket, which: Bucket -> bool)
    requires ValidConfig(cfg) && SlotsTimed(cfg, s.reqs, which) && BudgetOk(cfg, s) && IsFailureBucket(b)
    requires id in s.reqs && s.reqs[id].t.slot.None? && e.r.now == s.reqs[id].r.now
    requires which(b) ==> NotBefore(s, b, e.r.now)
    requires e.t.slot == Some(HeldSlot(b, CountedRow(s.tables.limits, b, cfg.failureWindowMs, e.r.now).windowStart))
    ensures SlotsTimed(cfg, s.reqs[id := e], which)
  {
    forall j | j in s.reqs && TakenOn(s.reqs[j], which) && which(b)
      ensures SlotsApart(cfg, e.t.slot.value, s.reqs[j].t.slot.value)
      ensures SlotsApart(cfg, s.reqs[j].t.slot.value, e.t.slot.value)
    {}
  }

  lemma TimedStep(cfg: Config, s: State, a: Action, which: Bucket -> bool)
    requires ValidConfig(cfg) && BudgetOk(cfg, s) && SlotsTimed(cfg, s.reqs, which) && Enabled(s, a) && !a.Sweep?
    requires ForwardStep(cfg, s, a, which)
    ensures SlotsTimed(cfg, Next(cfg, s, a).reqs, which)
  {
    match a
    case Arrive(id, input, now) => TimedKeeps(cfg, s.reqs, id, Next(cfg, s, a).reqs[id], which);
    case Land(id, fate, visible) => TimedLand(cfg, s, id, fate, visible, which);
    case OwnerRevokes(st) =>
    case AppMints(_, _) =>
  }

  lemma TimedLand(cfg: Config, s: State, id: nat, fate: Fate, visible: bool, which: Bucket -> bool)
    requires ValidConfig(cfg) && BudgetOk(cfg, s) && SlotsTimed(cfg, s.reqs, which) && Waiting(s, id)
    requires ForwardStep(cfg, s, Land(id, fate, visible), which)
    ensures SlotsTimed(cfg, Next(cfg, s, Land(id, fate, visible)).reqs, which)
  {
    var c, s' := Emit(cfg, s.reqs[id].r), Next(cfg, s, Land(id, fate, visible));
    if !fate.RolledBack? && c.Db? {
      TimedDb(cfg, s, id, c.statement, fate.Committed?, which);
    } else {
      TimedKeeps(cfg, s.reqs, id, s'.reqs[id], which);
    }
  }

  lemma TimedDb(cfg: Config, s: State, id: nat, st: Statement, told: bool, which: Bucket -> bool)
    requires ValidConfig(cfg) && BudgetOk(cfg, s) && SlotsTimed(cfg, s.reqs, which) && id in s.reqs
    requires Emit(cfg, s.reqs[id].r) == Db(st)
    requires st.ReserveRateLimit? && which(st.bucket) ==> NotBefore(s, st.bucket, s.reqs[id].r.now)
    ensures SlotsTimed(cfg, LandDb(cfg, s, id, st, told).reqs, which)
  {
    hide Exec, Record, Emit, ResumeDb, SlotsTimed, NotBefore;
    var e, s' := s.reqs[id], LandDb(cfg, s, id, st, told);
    assert SlotInv(e);
    BudgetCalls(cfg, e, st);
    if st.ReserveRateLimit? && HasRoom(s.tables.limits, st.bucket, st.windowMs, st.now, st.max) {
      TakesSlot(s.tables, st, e.t, EpochOf(s, e.r.input.email));
      TimedTakes(cfg, s, id, s'.reqs[id], st.bucket, which);
    } else {
      TakesNone(s.tables, st, e.t, EpochOf(s, e.r.input.email));
      TimedKeeps(cfg, s.reqs, id, s'.reqs[id], which);
    }
  }

  lemma TakesSlot(t: Tables, st: Statement, trace: Trace, epoch: nat)
    requires st.ReserveRateLimit? && HasRoom(t.limits, st.bucket, st.windowMs, st.now, st.max)
    ensures Record(trace, st, Exec(t, st).1, epoch).slot
            == Some(HeldSlot(st.bucket, CountedRow(t.limits, st.bucket, st.windowMs, st.now).windowStart))
  {}

  /** A statement other than a granted reservation takes no slot. */
  lemma TakesNone(t: Tables, st: Statement, trace: Trace, epoch: nat)
    requires !st.Cleanup? && (st.HitRateLimit? || st.HitCircuitBreaker? ==> !IsFailureBucket(st.bucket))
    requires st.ReserveRateLimit? ==> !HasRoom(t.limits, st.bucket, st.windowMs, st.now, st.max)
    ensures Record(trace, st, Exec(t, st).1, epoch).slot in {trace.slot, None}
  {
    if !st.ReserveRateLimit? && !st.RefundRateLimit? { OtherStatements(t, st, trace, epoch); }
  }

  lemma {:induction false} SlotsStayTimed(cfg: Config, s: State, acts: seq<Action>, which: Bucket -> bool)
    requires ValidConfig(cfg) && BudgetOk(cfg, s) && SlotsTimed(cfg, s.reqs, which)
    requires IsRun(cfg, s, acts) && NoSweep(acts) && CountsForward(cfg, s, acts, which)
    ensures BudgetOk(cfg, After(cfg, s, acts)) && SlotsTimed(cfg, After(cfg, s, acts).reqs, which)
    decreases |acts|
  {
    hide Next, Enabled, BudgetOk, SlotsTimed, ForwardStep;
    if acts != [] {
      BudgetStep(cfg, s, acts[0]);
      TimedStep(cfg, s, acts[0], which);
      SlotsStayTimed(cfg, Next(cfg, s, acts[0]), acts[1..], which);
    }
  }

  // ----- any interval as long as the window -----

  /** Wrong guesses on bucket `b` by requests whose reading lies in [from, from + window). */
  ghost predicate WrongIn(cfg: Config, e: Entry, from: Time) {
    e.r.guess == Some(false) && from <= e.r.now < from + cfg.failureWindowMs
  }

  ghost function WrongOnBucket(cfg: Config, reqs: map<nat, Entry>, b: Bucket, from: Time): set<nat> {
    set id | id in reqs && WrongIn(cfg, reqs[id], from) && reqs[id].t.slot.Some? && reqs[id].t.slot.value.bucket == b
  }

  function WindowOf(reqs: map<nat, Entry>, id: nat): Time {
    if id in reqs && reqs[id].t.slot.Some? then reqs[id].t.slot.value.windowStart else 0
  }

  lemma TwoWindows(cfg: Config, s: State, b: Bucket, from: Time, which: Bucket -> bool)
    requires WithinMax(cfg, s.reqs) && SlotsTimed(cfg, s.reqs, which) && IsFailureBucket(b) && which(b)
    ensures |WrongOnBucket(cfg, s.reqs, b, from)| <= 2 * MaxFailures(cfg, b)
  {
    var ids := WrongOnBucket(cfg, s.reqs, b, from);
    var start := (id: nat) => WindowOf(s.reqs, id);
    forall i, j | i in ids && j in ids ensures Apart(start(i), start(j), cfg.failureWindowMs) {
      assert SlotsApart(cfg, s.reqs[i].t.slot.value, s.reqs[j].t.slot.value);
    }
    forall i | i in ids ensures |Fibre(ids, start, start(i))| <= MaxFailures(cfg, b) {
      Subset(Fibre(ids, start, start(i)), Matching(s.reqs, (e: Entry) => e.t.slot == Some(HeldSlot(b, start(i)))));
      assert Held(s.reqs, b, start(i)) <= MaxFailures(cfg, b);
    }
    TwoWindowsCover(ids, start, cfg.failureWindowMs, from, MaxFailures(cfg, b));
  }

  /** Wrong guesses against one address by requests whose reading lies in [from, from + window). */
  ghost function WrongAgainst(cfg: Config, reqs: map<nat, Entry>, email: Email, from: Time): set<nat> {
    set id | id in reqs && WrongIn(cfg, reqs[id], from) && reqs[id].r.input.email == email
  }

  ghost predicate OnlyDevices(cfg: Config, reqs: map<nat, Entry>, email: Email, from: Time, devices: set<DeviceId>) {
    forall id :: id in WrongAgainst(cfg, reqs, email, from) && reqs[id].r.budgetDevice.Some? ==>
      reqs[id].r.budgetDevice.value in devices
  }

  /** The budgets that guesses against the address on these devices draw on. */
  function Concerned(email: Email, devices: set<DeviceId>): Bucket -> bool {
    (b: Bucket) => b == FailuresOfEmail(email) || (b.FailuresOfDevice? && b.device in devices)
  }

  lemma WrongPerAddress(cfg: Config, s: State, email: Email, from: Time, devices: set<DeviceId>)
    requires AllSlotInv(s.reqs) && WithinMax(cfg, s.reqs) && SlotsTimed(cfg, s.reqs, Concerned(email, devices))
    requires OnlyDevices(cfg, s.reqs, email, from, devices)
    ensures |WrongAgainst(cfg, s.reqs, email, from)|
            <= 2 * cfg.maxFailuresPerEmail + (2 * cfg.maxFailuresPerDevice) * |devices|
  {
    var all := WrongAgainst(cfg, s.reqs, email, from);
    var plain := set id | id in all && s.reqs[id].r.budgetDevice.None?;
    var byDevice := all - plain;
    WrongPlain(cfg, s, plain, email, from, devices);
    WrongByDevice(cfg, s, byDevice, email, from, devices);
    assert |all| == |plain| + |byDevice|;
  }

  lemma WrongPlain(cfg: Config, s: State, ids: set<nat>, email: Email, from: Time, devices: set<DeviceId>)
    requires AllSlotInv(s.reqs) && WithinMax(cfg, s.reqs) && SlotsTimed(cfg, s.reqs, Concerned(email, devices))
    requires forall id :: id in ids ==>
      && id in s.reqs && WrongIn(cfg, s.reqs[id], from)
      && s.reqs[id].r.budgetDevice.None? && s.reqs[id].r.input.email == email
    ensures |ids| <= 2 * cfg.maxFailuresPerEmail
  {
    forall id | id in ids ensures id in WrongOnBucket(cfg, s.reqs, FailuresOfEmail(email), from) {
      assert SlotInv(s.reqs[id]);
    }
    Subset(ids, WrongOnBucket(cfg, s.reqs, FailuresOfEmail(email), from));
    TwoWindows(cfg, s, FailuresOfEmail(email), from, Concerned(email, devices));
  }

  function BudgetDeviceOf(reqs: map<nat, Entry>, id: nat): DeviceId {
    if id in reqs && reqs[id].r.budgetDevice.Some? then reqs[id].r.budgetDevice.value else ""
  }

  lemma WrongByDevice(cfg: Config, s: State, ids: set<nat>, email: Email, from: Time, devices: set<DeviceId>)
    requires AllSlotInv(s.reqs) && WithinMax(cfg, s.reqs) && SlotsTimed(cfg, s.reqs, Concerned(email, devices))
    requires forall id :: id in ids ==>
      && id in s.reqs && WrongIn(cfg, s.reqs[id], from)
      && s.reqs[id].r.budgetDevice.Some? && s.reqs[id].r.budgetDevice.value in devices
    ensures |ids| <= (2 * cfg.maxFailuresPerDevice) * |devices|
  {
    var deviceOf := (id: nat) => BudgetDeviceOf(s.reqs, id);
    forall d | d in devices ensures |Fibre(ids, deviceOf, d)| <= 2 * cfg.maxFailuresPerDevice {
      forall id | id in Fibre(ids, deviceOf, d) ensures id in WrongOnBucket(cfg, s.reqs, FailuresOfDevice(d), from) {
        assert SlotInv(s.reqs[id]);
      }
      Subset(Fibre(ids, deviceOf, d), WrongOnBucket(cfg, s.reqs, FailuresOfDevice(d), from));
      TwoWindows(cfg, s, FailuresOfDevice(d), from, Concerned(email, devices));
    }
    Fibres(ids, deviceOf, devices, 2 * cfg.maxFailuresPerDevice);
  }

  /**
   * Unless a reservation on one of the budgets concerned lands with a reading
   * from before the window it is counted in: any half-open interval as long as
   * the failure window holds at most twice the address budget plus twice a
   * device budget per device used against the address.
   */
  lemma GuessesPerInterval(cfg: Config, acts: seq<Action>, email: Email, from: Time, devices: set<DeviceId>)
    requires ValidConfig(cfg) && IsRun(cfg, Init, acts) && NoSweep(acts)
    requires CountsForward(cfg, Init, acts, Concerned(email, devices))
    requires OnlyDevices(cfg, After(cfg, Init, acts).reqs, email, from, devices)
    ensures |WrongAgainst(cfg, After(cfg, Init, acts).reqs, email, from)|
            <= 2 * cfg.maxFailuresPerEmail + (2 * cfg.maxFailuresPerDevice) * |devices|
  {
    BudgetsBegin(cfg);
    SlotsStayTimed(cfg, Init, acts, Concerned(email, devices));
    WrongPerAddress(cfg, After(cfg, Init, acts), email, from, devices);
  }

  // ----- statements landing in the order of their readings -----

  /** No window opened after the last reading that landed. */
  predicate RowsBefore(s: State) { forall b :: b in s.tables.limits ==> s.tables.limits[b].windowStart <= s.clock }

  lemma CountingCall(cfg: Config, r: Request, st: Statement)
    requires Emit(cfg, r) == Db(st)
    ensures st.HitRateLimit? || st.ReserveRateLimit? || st.HitCircuitBreaker? ==> st.now == r.now
    ensures !st.Cleanup?
  {}

  lemma RowsStayBefore(t: Tables, st: Statement, clock: Time, now: Time)
    requires (forall b :: b in t.limits ==> t.limits[b].windowStart <= clock) && clock <= now && !st.Cleanup?
    requires st.HitRateLimit? || st.ReserveRateLimit? || st.HitCircuitBreaker? ==> st.now == now
    ensures forall b :: b in Exec(t, st).0.limits ==> Exec(t, st).0.limits[b].windowStart <= now
  {
    if !WritesLimits(st) {
      hide Exec;
      Frame(t, st);
    }
  }

  lemma OrderedStep(cfg: Config, s: State, a: Action, which: Bucket -> bool)
    requires RowsBefore(s) && Enabled(s, a) && (a.Land? ==> s.reqs[a.id].r.now >= s.clock)
    ensures ForwardStep(cfg, s, a, which) && RowsBefore(Next(cfg, s, a))
  {
    hide Emit, Exec, ResumeDb, Begin;
    if a.Land? && !a.fate.RolledBack? && Emit(cfg, s.reqs[a.id].r).Db? {
      var st := Emit(cfg, s.reqs[a.id].r).statement;
      CountingCall(cfg, s.reqs[a.id].r, st);
      RowsStayBefore(s.tables, st, s.clock, s.reqs[a.id].r.now);
    } else if a.OwnerRevokes? {
      Frame(s.tables, a.statement);
    }
  }

  /** Where every statement lands in the order of its reading, all buckets are counted forward. */
  lemma {:induction false} InOrderCountsForward(cfg: Config, s: State, acts: seq<Action>, which: Bucket -> bool)
    requires RowsBefore(s) && IsRun(cfg, s, acts) && InOrder(cfg, s, acts)
    ensures CountsForward(cfg, s, acts, which)
    decreases |acts|
  {
    hide Next, Enabled, ForwardStep, RowsBefore;
    if acts != [] {
      OrderedStep(cfg, s, acts[0], which);
      InOrderCountsForward(cfg, Next(cfg, s, acts[0]), acts[1..], which);
    }
  }
}

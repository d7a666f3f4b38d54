/**
 * Limits that refuse (src/device-auth/index.ts:780-824, 1053-1056,
 * src/device-auth/store.ts:253-267): over every run, in one window of a
 * cooldown, an hourly cap or a per-IP limit no more requests get through than
 * it allows.
 */
module SendLimits {
  import opened Basics
  import opened PinCredential
  import opened Tables
  import opened Routes
  import opened Runs
  import opened Answers
  import opened StartAnswers
  import CleanupRuns

  // ----- the counters -----

  /** Codes an hour, one per cooldown, and an hour's requests of an IP. */
  function Allowed(cfg: Config, b: Bucket): nat {
    match b
    case SendsToEmail(_) => cfg.sendsPerHour
    case SendsToDevice(_) => cfg.sendsPerHour
    case CooldownOfEmail(_) => 1
    case CooldownOfDevice(_) => 1
    case PerIp(OtpStart, _) => cfg.startsPerIp
    case PerIp(PinLoginIp, _) => cfg.pinLoginsPerIp
    case _ => 0
  }

  function WindowOf(cfg: Config, b: Bucket): int {
    if b.CooldownOfEmail? || b.CooldownOfDevice? then cfg.cooldownMs else HOUR_MS
  }

  /** The counters these limits keep. */
  predicate Metered(b: Bucket) {
    || b.SendsToEmail? || b.SendsToDevice? || b.CooldownOfEmail? || b.CooldownOfDevice?
    || (b.PerIp? && !b.action.OtpVerify?)
  }

  // ----- one request -----

  predicate Counts(t: Trace, cfg: Config, b: Bucket) { b in t.hits && t.hits[b].count <= Allowed(cfg, b) }

  predicate IpPassed(cfg: Config, e: Entry, action: IpAction) {
    e.r.input.ip.Some? ==> Counts(e.t, cfg, PerIp(action, e.r.input.ip.value))
  }

  predicate CoolPassed(cfg: Config, e: Entry) { Counts(e.t, cfg, CooldownOf(e.r.budgetDevice, e.r.input.email)) }

  predicate CapPassed(cfg: Config, e: Entry) { Counts(e.t, cfg, SendsOf(e.r.budgetDevice, e.r.input.email)) }

  /** Counted on its own limits alone. */
  predicate Own(r: Request, b: Bucket) {
    || b == SendsOf(r.budgetDevice, r.input.email) || b == CooldownOf(r.budgetDevice, r.input.email)
    || (r.input.ip.Some? && (b == PerIp(OtpStart, r.input.ip.value) || b == PerIp(PinLoginIp, r.input.ip.value)))
  }

  predicate IpAlone(t: Trace) { forall b :: b in t.hits ==> b.PerIp? }

  predicate Uncapped(t: Trace) { forall b :: b in t.hits ==> !b.SendsToEmail? && !b.SendsToDevice? }

  predicate StartInv(cfg: Config, e: Entry, at: StartPc) {
    && !e.t.issued && e.t.attempted.None?
    && (if at.StartIp? then e.t.hits == map[] && e.r.input.ip.Some? else IpPassed(cfg, e, OtpStart))
    && (at.StartDevice? || at.StartBudget? || at.StartCooldown? ==> IpAlone(e.t))
    && (at.StartHourly? ==> Uncapped(e.t) && CoolPassed(cfg, e))
    && (at.StartPut? ==> CoolPassed(cfg, e) && CapPassed(cfg, e))
  }

  /** A code is written only past the three limits, a PIN tried only past its IP's; no limit counts a request twice. */
  predicate SendInv(cfg: Config, e: Entry) {
    && (forall b :: b in e.t.hits ==> Own(e.r, b))
    && (e.t.issued ==> IpPassed(cfg, e, OtpStart) && CoolPassed(cfg, e) && CapPassed(cfg, e))
    && (e.t.attempted.Some? ==> IpPassed(cfg, e, PinLoginIp))
    && match e.r.pc
       case Starting(at) => StartInv(cfg, e, at)
       case LoggingIn(at) =>
         !e.t.issued && if at.LoginIp? then e.t.hits == map[] && e.r.input.ip.Some? else IpPassed(cfg, e, PinLoginIp)
       case Finished(_) => true
       case Crashed => true
       case _ => e.t.hits == map[] && !e.t.issued && e.t.attempted.None?
  }

  lemma SendBegins(cfg: Config, input: Input, now: Time)
    ensures SendInv(cfg, Entry(Begin(cfg, input, now), NoTrace))
  {}

  /** The counter a step of `/email/start` or `/pin/login` counts on. */
  function Counter(r: Request): Option<Bucket> {
    var ip := if r.input.ip.Some? then r.input.ip.value else "";
    match r.pc
    case Starting(StartIp) => Some(PerIp(OtpStart, ip))
    case Starting(StartCooldown) => Some(CooldownOf(r.budgetDevice, r.input.email))
    case Starting(StartHourly) => Some(SendsOf(r.budgetDevice, r.input.email))
    case LoggingIn(LoginIp) => Some(PerIp(PinLoginIp, ip))
    case _ => None
  }

  /** Every other counter is that of `/email/verify`'s IP. */
  lemma CountCalls(cfg: Config, r: Request, st: Statement)
    requires Emit(cfg, r) == Db(st)
    ensures Counter(r).Some? ==> st == HitRateLimit(Counter(r).value, WindowOf(cfg, Counter(r).value), r.now)
    ensures Counter(r).None? && st.HitRateLimit? ==> st.bucket.PerIp? && st.bucket.action.OtpVerify?
    ensures st.PutEmailCode? <==> r.pc == Starting(StartPut)
    ensures st.ReserveLoginAttempt? <==> r.pc == LoggingIn(LoginReserve)
    ensures st.ReserveRateLimit? || st.RefundRateLimit? || st.HitCircuitBreaker? ==> !Metered(st.bucket)
    ensures !st.Cleanup?
  {}

  /** What one statement adds to what a request has counted. */
  predicate AddsTo(e: Entry, a: Result, t: Trace) {
    && t.hits == (if Counter(e.r).Some? && a.Hits? then e.t.hits[Counter(e.r).value := a.hits] else e.t.hits)
    && (t.issued <==> e.t.issued || e.r.pc == Starting(StartPut))
    && (t.attempted.Some? ==> e.t.attempted.Some? || e.r.pc == LoggingIn(LoginReserve))
  }

  lemma RecordAdds(cfg: Config, e: Entry, st: Statement, a: Result, epoch: nat)
    requires Emit(cfg, e.r) == Db(st)
    ensures AddsTo(e, a, Record(e.t, st, a, epoch))
  {
    CountCalls(cfg, e.r, st);
    hide Emit, Counter, WindowOf;
  }

  /** Where a step of `/email/start` leads when it is not over. */
  predicate StartGoes(cfg: Config, r: Request, at: StartPc, a: Result, r': Request) {
    && r'.input == r.input && (!at.StartDevice? ==> r'.budgetDevice == r.budgetDevice)
    && (r'.pc.Finished? || r'.pc.Crashed? ||
        (r'.pc.Starting? &&
         var to := r'.pc.start;
         match at
         case StartIp => a.Hits? && a.hits.count <= cfg.startsPerIp && (to.StartDevice? || to.StartBudget?)
         case StartDevice => to.StartBudget?
         case StartBudget => to.StartCooldown?
         case StartCooldown => a.Hits? && a.hits.count <= 1 && to.StartHourly?
         case StartHourly => a.Hits? && a.hits.count <= cfg.sendsPerHour && to.StartPut?
         case StartPut => false))
  }

  lemma StartMoves(cfg: Config, r: Request, at: StartPc, a: Result)
    ensures StartGoes(cfg, r, at, a, ResumeStart(cfg, r, at, a))
  {
    hide RetryAfterSec, PresentsDeviceOfAddress, MaxFailures, FailureBucket;
  }

  lemma SendStarts(cfg: Config, e: Entry, at: StartPc, a: Result, t: Trace, r': Request)
    requires SendInv(cfg, e) && e.r.pc == Starting(at) && AddsTo(e, a, t) && StartGoes(cfg, e.r, at, a, r')
    requires at.StartIp? || at.StartDevice? || at.StartBudget?
    ensures SendInv(cfg, Entry(r', t))
  {}

  lemma SendSends(cfg: Config, e: Entry, at: StartPc, a: Result, t: Trace, r': Request)
    requires SendInv(cfg, e) && e.r.pc == Starting(at) && AddsTo(e, a, t) && StartGoes(cfg, e.r, at, a, r')
    requires at.StartCooldown? || at.StartHourly? || at.StartPut?
    ensures SendInv(cfg, Entry(r', t))
  {}

  /** Where a step of `/pin/login` leads when it is not over. */
  predicate LoginGoes(cfg: Config, r: Request, at: LoginPc, a: Result, r': Request) {
    && r'.input == r.input && r'.budgetDevice == r.budgetDevice
    && (r'.pc.Finished? || r'.pc.Crashed? || (r'.pc.LoggingIn? && !r'.pc.login.LoginIp?))
    && (at.LoginIp? && r'.pc.LoggingIn? ==> a.Hits? && a.hits.count <= cfg.pinLoginsPerIp)
  }

  lemma LoginMoves(cfg: Config, r: Request, at: LoginPc, a: Result)
    ensures LoginGoes(cfg, r, at, a, ResumeLogin(cfg, r, at, a))
  {
    hide RetryAfterSec, Presents, Verify;
  }

  lemma SendLogins(cfg: Config, e: Entry, at: LoginPc, a: Result, t: Trace, r': Request)
    requires SendInv(cfg, e) && e.r.pc == LoggingIn(at) && AddsTo(e, a, t) && LoginGoes(cfg, e.r, at, a, r')
    ensures SendInv(cfg, Entry(r', t))
  {}

  lemma SendElsewhere(cfg: Config, r: Request, a: Result)
    requires !r.pc.Starting? && !r.pc.LoggingIn?
    ensures var r' := ResumeDb(cfg, r, a); !r'.pc.Starting? && (r'.pc.LoggingIn? ==> r' == r)
  {
    hide RetryAfterSec, BreakerOpen, PresentsDeviceOfAddress, CodeMatches, Presents;
  }

  lemma SendLost(cfg: Config, e: Entry, a: Result, t: Trace)
    requires SendInv(cfg, e) && AddsTo(e, a, t) && !e.r.pc.Finished? && !e.r.pc.Crashed?
    ensures SendInv(cfg, Entry(To(e.r.(retried := false), Crashed), t))
  {}

  lemma SendDb(cfg: Config, e: Entry, st: Statement, a: Result, epoch: nat)
    requires SendInv(cfg, e) && Emit(cfg, e.r) == Db(st)
    ensures var t, r := Record(e.t, st, a, epoch), e.r.(retried := false);
      SendInv(cfg, Entry(ResumeDb(cfg, r, a), t)) && SendInv(cfg, Entry(To(r, Crashed), t))
  {
    RecordAdds(cfg, e, st, a, epoch);
    InFlight(cfg, e.r, st);
    var t := Record(e.t, st, a, epoch);
    hide Emit, Record, ResumeStart, ResumeLogin, SendInv, AddsTo;
    SendLost(cfg, e, a, t);
    match e.r.pc
    case Starting(at) =>
      var r' := ResumeStart(cfg, e.r.(retried := false), at, a);
      StartMoves(cfg, e.r.(retried := false), at, a);
      if at.StartIp? || at.StartDevice? || at.StartBudget? {
        SendStarts(cfg, e, at, a, t, r');
      } else {
        SendSends(cfg, e, at, a, t, r');
      }
    case LoggingIn(at) =>
      LoginMoves(cfg, e.r.(retried := false), at, a);
      SendLogins(cfg, e, at, a, t, ResumeLogin(cfg, e.r.(retried := false), at, a));
    case _ => SendIdle(cfg, e, a, t);
  }

  lemma InFlight(cfg: Config, r: Request, st: Statement)
    requires Emit(cfg, r) == Db(st)
    ensures !r.pc.Finished? && !r.pc.Crashed?
  {}

  lemma SendIdle(cfg: Config, e: Entry, a: Result, t: Trace)
    requires SendInv(cfg, e) && AddsTo(e, a, t) && !e.r.pc.Starting? && !e.r.pc.LoggingIn?
    requires !e.r.pc.Finished? && !e.r.pc.Crashed?
    ensures SendInv(cfg, Entry(ResumeDb(cfg, e.r.(retried := false), a), t))
  {
    SendElsewhere(cfg, e.r.(retried := false), a);
    hide ResumeDb;
  }

  lemma SendOther(cfg: Config, e: Entry, found: Option<Session>, told: bool)
    requires SendInv(cfg, e) && !Emit(cfg, e.r).Db? && !e.r.pc.Finished? && !e.r.pc.Crashed?
    ensures SendInv(cfg, e.(r := AfterOther(cfg, e.r, Emit(cfg, e.r), found, told)))
  {
    hide NewDeviceRow, Enroll;
  }

  lemma SendRollBack(cfg: Config, e: Entry, retryable: bool)
    requires SendInv(cfg, e)
    ensures SendInv(cfg, RollBack(e, retryable))
  {}

  /** No counter is counted on twice. */
  lemma NotYet(cfg: Config, e: Entry)
    requires SendInv(cfg, e) && Counter(e.r).Some?
    ensures Counter(e.r).value !in e.t.hits && Metered(Counter(e.r).value)
  {}

  // ----- all requests -----

  /** A count a request was given: in a window running when it read its clock, the counter's present or an older one. */
  predicate Placed(cfg: Config, limits: map<Bucket, LimitRow>, b: Bucket, h: Counted, now: Time) {
    && b in limits && h.count >= 1 && now < h.windowStart + WindowOf(cfg, b)
    && (if h.windowStart == limits[b].windowStart then h.count <= limits[b].count
        else h.windowStart + WindowOf(cfg, b) <= limits[b].windowStart)
  }

  predicate HitPlaced(cfg: Config, e: Entry, limits: map<Bucket, LimitRow>, b: Bucket) {
    b in e.t.hits ==> Metered(b) && Placed(cfg, limits, b, e.t.hits[b], e.r.now)
  }

  /** Two requests counted on one counter: not with the same count in one window, and windows do not overlap. */
  predicate HitsDiffer(cfg: Config, e: Entry, e': Entry, b: Bucket) {
    b in e.t.hits && b in e'.t.hits ==>
      && e.t.hits[b] != e'.t.hits[b]
      && Apart(e.t.hits[b].windowStart, e'.t.hits[b].windowStart, WindowOf(cfg, b))
  }

  ghost predicate SendsOk(cfg: Config, s: State) {
    && (forall id :: id in s.reqs ==> SendInv(cfg, s.reqs[id]))
    && (forall id, b :: id in s.reqs ==> HitPlaced(cfg, s.reqs[id], s.tables.limits, b))
    && (forall i, j, b :: i in s.reqs && j in s.reqs && i != j ==> HitsDiffer(cfg, s.reqs[i], s.reqs[j], b))
  }

  predicate SameMeters(limits: map<Bucket, LimitRow>, limits': map<Bucket, LimitRow>) {
    forall b :: b in limits && Metered(b) ==> b in limits' && limits'[b] == limits[b]
  }

  lemma SendsQuiet(cfg: Config, s: State, id: nat, e: Entry, s': State)
    requires SendsOk(cfg, s) && SendInv(cfg, e) && s'.reqs == s.reqs[id := e]
    requires e.t.hits == (if id in s.reqs then s.reqs[id].t.hits else map[])
    requires id in s.reqs ==> e.r.now == s.reqs[id].r.now
    requires SameMeters(s.tables.limits, s'.tables.limits)
    ensures SendsOk(cfg, s')
  {
    hide SendInv, Placed, Apart, WindowOf, Metered;
    forall i, b | i in s'.reqs
      ensures HitPlaced(cfg, s'.reqs[i], s'.tables.limits, b)
    {
      if b in s'.reqs[i].t.hits {
        assert HitPlaced(cfg, s.reqs[i], s.tables.limits, b);
        PlacedOn(cfg, s.tables.limits, s'.tables.limits, b, s'.reqs[i].t.hits[b], s'.reqs[i].r.now);
      }
    }
    forall i, j, b | i in s'.reqs && j in s'.reqs && i != j
      ensures HitsDiffer(cfg, s'.reqs[i], s'.reqs[j], b)
    {
      if b in s'.reqs[i].t.hits && b in s'.reqs[j].t.hits { assert HitsDiffer(cfg, s.reqs[i], s.reqs[j], b); }
    }
  }

  lemma PlacedOn(cfg: Config, limits: map<Bucket, LimitRow>, limits': map<Bucket, LimitRow>, b: Bucket, h: Counted,
      now: Time)
    requires Placed(cfg, limits, b, h, now) && Metered(b) && SameMeters(limits, limits')
    ensures Placed(cfg, limits', b, h, now)
  {}

  /** One hit: the count is new, and every older one stays placed. */
  lemma HitCounts(cfg: Config, limits: map<Bucket, LimitRow>, b: Bucket, now: Time)
    requires WindowOf(cfg, b) > 0
    ensures var limits' := Counting(limits, b, WindowOf(cfg, b), now);
      var h := Counted(limits'[b].count, limits'[b].windowStart);
      && Placed(cfg, limits', b, h, now)
      && forall h', t :: Placed(cfg, limits, b, h', t) ==>
        Placed(cfg, limits', b, h', t) && h' != h && Apart(h'.windowStart, h.windowStart, WindowOf(cfg, b))
  {}

  lemma SendsCount(cfg: Config, s: State, id: nat, e: Entry, s': State, b: Bucket)
    requires SendsOk(cfg, s) && SendInv(cfg, e) && id in s.reqs && s'.reqs == s.reqs[id := e]
    requires Metered(b) && WindowOf(cfg, b) > 0 && b !in s.reqs[id].t.hits && e.r.now == s.reqs[id].r.now
    requires s'.tables.limits == Counting(s.tables.limits, b, WindowOf(cfg, b), e.r.now)
    requires e.t.hits == s.reqs[id].t.hits[b := Counted(s'.tables.limits[b].count, s'.tables.limits[b].windowStart)]
    ensures SendsOk(cfg, s')
  {
    HitCounts(cfg, s.tables.limits, b, e.r.now);
    OthersKeep(s.tables.limits, b, WindowOf(cfg, b), e.r.now);
    hide SendInv, Counting, Apart, WindowOf, Metered;
    forall i, k | i in s'.reqs
      ensures HitPlaced(cfg, s'.reqs[i], s'.tables.limits, k)
    {
      if k in s'.reqs[i].t.hits && (i != id || k != b) { assert HitPlaced(cfg, s.reqs[i], s.tables.limits, k); }
    }
    hide Placed;
    forall i, j, k | i in s'.reqs && j in s'.reqs && i != j
      ensures HitsDiffer(cfg, s'.reqs[i], s'.reqs[j], k)
    {
      CountDiffers(cfg, s, id, e, s', b, i, j, k);
    }
  }

  lemma OthersKeep(limits: map<Bucket, LimitRow>, b: Bucket, windowMs: int, now: Time)
    ensures var limits' := Counting(limits, b, windowMs, now);
      forall k :: k != b ==> (k in limits <==> k in limits') && (k in limits ==> limits[k] == limits'[k])
  {}

  /** A count already there, and the new one. */
  lemma NewDiffers(cfg: Config, limits: map<Bucket, LimitRow>, b: Bucket, now: Time, e: Entry, other: Entry)
    requires WindowOf(cfg, b) > 0 && HitPlaced(cfg, other, limits, b)
    requires var limits' := Counting(limits, b, WindowOf(cfg, b), now);
      b in e.t.hits && e.t.hits[b] == Counted(limits'[b].count, limits'[b].windowStart)
    ensures HitsDiffer(cfg, e, other, b) && HitsDiffer(cfg, other, e, b)
  {
    HitCounts(cfg, limits, b, now);
    hide Counting, WindowOf, Placed;
  }

  lemma CountDiffers(cfg: Config, s: State, id: nat, e: Entry, s': State, b: Bucket, i: nat, j: nat, k: Bucket)
    requires SendsOk(cfg, s) && id in s.reqs && s'.reqs == s.reqs[id := e] && i in s'.reqs && j in s'.reqs && i != j
    requires WindowOf(cfg, b) > 0 && b !in s.reqs[id].t.hits
    requires s'.tables.limits == Counting(s.tables.limits, b, WindowOf(cfg, b), e.r.now)
    requires e.t.hits == s.reqs[id].t.hits[b := Counted(s'.tables.limits[b].count, s'.tables.limits[b].windowStart)]
    ensures HitsDiffer(cfg, s'.reqs[i], s'.reqs[j], k)
  {
    hide SendInv, Counting, WindowOf, HitPlaced, Apart;
    assert HitPlaced(cfg, s.reqs[i], s.tables.limits, b) && HitPlaced(cfg, s.reqs[j], s.tables.limits, b);
    assert HitsDiffer(cfg, s.reqs[i], s.reqs[j], k);
    hide SendsOk;
    if k == b && i == id {
      NewDiffers(cfg, s.tables.limits, b, e.r.now, e, s.reqs[j]);
    } else if k == b && j == id {
      NewDiffers(cfg, s.tables.limits, b, e.r.now, e, s.reqs[i]);
    }
  }

  // ----- landings -----

  lemma MetersKept(t: Tables, st: Statement)
    requires !st.Cleanup? && (st.HitRateLimit? ==> !Metered(st.bucket))
    requires st.ReserveRateLimit? || st.RefundRateLimit? || st.HitCircuitBreaker? ==> !Metered(st.bucket)
    ensures SameMeters(t.limits, Exec(t, st).0.limits)
  {
    if !WritesLimits(st) {
      Frame(t, st);
      hide Exec;
    }
  }

  lemma SendsDb(cfg: Config, s: State, id: nat, st: Statement, told: bool)
    requires ValidConfig(cfg) && SendsOk(cfg, s) && id in s.reqs && Emit(cfg, s.reqs[id].r) == Db(st)
    ensures SendsOk(cfg, LandDb(cfg, s, id, st, told))
  {
    hide Emit, ResumeDb, SendInv, Record, Counter;
    var e, s', a := s.reqs[id], LandDb(cfg, s, id, st, told), Exec(s.tables, st).1;
    assert SendInv(cfg, e);
    hide SendsOk;
    SendDb(cfg, e, st, a, EpochOf(s, e.r.input.email));
    CountCalls(cfg, e.r, st);
    RecordAdds(cfg, e, st, a, EpochOf(s, e.r.input.email));
    if Counter(e.r).Some? {
      var b := Counter(e.r).value;
      Hit(s.tables, b, WindowOf(cfg, b), e.r.now);
      NotYet(cfg, e);
      hide Exec, Counting;
      CountingGives(s.tables.limits, b, WindowOf(cfg, b), e.r.now);
      SendsCount(cfg, s, id, s'.reqs[id], s', b);
    } else {
      MetersKept(s.tables, st);
      hide Exec;
      SendsQuiet(cfg, s, id, s'.reqs[id], s');
    }
  }

  lemma CountingGives(limits: map<Bucket, LimitRow>, b: Bucket, windowMs: int, now: Time)
    ensures var limits' := Counting(limits, b, windowMs, now);
      && b in limits' && limits'[b].count == Used(limits, b, windowMs, now) + 1
      && limits'[b].windowStart == Opened(limits, b, windowMs, now)
  {}

  lemma SendsLand(cfg: Config, s: State, id: nat, fate: Fate, visible: bool)
    requires ValidConfig(cfg) && SendsOk(cfg, s) && Waiting(s, id)
    ensures SendsOk(cfg, Next(cfg, s, Land(id, fate, visible)))
  {
    hide Emit, ResumeDb, SendInv, Exec, AfterOther, ValidConfig;
    var e, c, s' := s.reqs[id], Emit(cfg, s.reqs[id].r), Next(cfg, s, Land(id, fate, visible));
    assert SendInv(cfg, e);
    hide SendsOk;
    if fate.RolledBack? {
      SendRollBack(cfg, e, fate.retryable);
      SendsQuiet(cfg, s, id, RollBack(e, fate.retryable), s');
    } else if c.Db? {
      SendsDb(cfg, s, id, c.statement, fate.Committed?);
    } else {
      SendOther(cfg, e, SessionFound(s, c, visible), fate.Committed?);
      SendsQuiet(cfg, s, id, s'.reqs[id], s');
    }
  }

  lemma SendsStep(cfg: Config, s: State, a: Action)
    requires ValidConfig(cfg) && SendsOk(cfg, s) && Enabled(s, a) && !a.Sweep?
    ensures SendsOk(cfg, Next(cfg, s, a))
  {
    hide Emit, Begin, ResumeDb, SendInv, Exec, AfterOther, HitPlaced, HitsDiffer;
    match a
    case Arrive(id, input, now) =>
      SendBegins(cfg, input, now);
      SendsQuiet(cfg, s, id, Entry(Begin(cfg, input, now), NoTrace), Next(cfg, s, a));
    case Land(id, fate, visible) => SendsLand(cfg, s, id, fate, visible);
    case OwnerRevokes(st) => Frame(s.tables, st);
    case AppMints(_, _) =>
  }

  lemma {:induction false} SendsHold(cfg: Config, s: State, acts: seq<Action>)
    requires ValidConfig(cfg) && SendsOk(cfg, s) && IsRun(cfg, s, acts) && NoSweep(acts)
    ensures SendsOk(cfg, After(cfg, s, acts))
    decreases |acts|
  {
    hide SendsOk, Next, Enabled, ValidConfig;
    if acts != [] {
      SendsStep(cfg, s, acts[0]);
      SendsHold(cfg, Next(cfg, s, acts[0]), acts[1..]);
    }
  }

  // ----- what the limits allow -----

  /** Requests given a count within the limit, in the counter's window that began at `w`. */
  ghost function Through(cfg: Config, reqs: map<nat, Entry>, b: Bucket, w: Time): set<nat> {
    set id | id in reqs && Counts(reqs[id].t, cfg, b) && reqs[id].t.hits[b].windowStart == w
  }

  function UpTo(n: nat): set<nat> { if n == 0 then {} else UpTo(n - 1) + {n} }

  lemma {:induction false} UpToHas(n: nat)
    ensures |UpTo(n)| == n && forall k: nat :: k in UpTo(n) <==> 1 <= k <= n
  {
    if n > 0 { UpToHas(n - 1); }
  }

  lemma NoMoreThanAllowed(cfg: Config, s: State, b: Bucket, w: Time)
    requires SendsOk(cfg, s)
    ensures |Through(cfg, s.reqs, b, w)| <= Allowed(cfg, b)
  {
    hide SendInv, Allowed;
    var n, ids := Allowed(cfg, b), Through(cfg, s.reqs, b, w);
    var count := (id: nat) => if id in s.reqs && b in s.reqs[id].t.hits then s.reqs[id].t.hits[b].count else 0;
    UpToHas(n);
    forall id | id in ids ensures count(id) in UpTo(n) { assert HitPlaced(cfg, s.reqs[id], s.tables.limits, b); }
    forall k | k in UpTo(n) ensures |Fibre(ids, count, k)| <= 1 {
      forall i, j | i in Fibre(ids, count, k) && j in Fibre(ids, count, k) ensures i == j {
        assert i != j ==> HitsDiffer(cfg, s.reqs[i], s.reqs[j], b);
      }
      AtMostOne(Fibre(ids, count, k));
    }
    Fibres(ids, count, UpTo(n), 1);
  }

  lemma AtMostOne<T>(ids: set<T>)
    requires forall i, j :: i in ids && j in ids ==> i == j
    ensures |ids| <= 1
  {
    if i :| i in ids { assert ids == {i}; }
  }

  /** Requests that issued a code, counted on `b` in that window. */
  ghost function Issuers(reqs: map<nat, Entry>, b: Bucket, w: Time): set<nat> {
    set id | id in reqs && reqs[id].t.issued && b in reqs[id].t.hits && reqs[id].t.hits[b].windowStart == w
  }

  /** Requests that had a PIN attempt counted, seen on an IP in that window. */
  ghost function Triers(reqs: map<nat, Entry>, b: Bucket, w: Time): set<nat> {
    set id | id in reqs && reqs[id].t.attempted.Some? && b in reqs[id].t.hits && reqs[id].t.hits[b].windowStart == w
  }

  predicate LimitsCodes(b: Bucket) {
    || b.SendsToEmail? || b.SendsToDevice? || b.CooldownOfEmail? || b.CooldownOfDevice?
    || (b.PerIp? && b.action.OtpStart?)
  }

  /** Counted by the limit of whoever pays for it, and by its IP's, in windows still running at its reading. */
  predicate CountedByAll(cfg: Config, e: Entry) {
    && RunningIn(cfg, e, SendsOf(e.r.budgetDevice, e.r.input.email))
    && RunningIn(cfg, e, CooldownOf(e.r.budgetDevice, e.r.input.email))
    && (e.r.input.ip.Some? ==> RunningIn(cfg, e, PerIp(OtpStart, e.r.input.ip.value)))
  }

  predicate RunningIn(cfg: Config, e: Entry, b: Bucket) {
    b in e.t.hits && e.r.now < e.t.hits[b].windowStart + WindowOf(cfg, b)
  }

  lemma IssuersGotThrough(cfg: Config, s: State, b: Bucket, w: Time)
    requires SendsOk(cfg, s) && LimitsCodes(b)
    ensures Issuers(s.reqs, b, w) <= Through(cfg, s.reqs, b, w)
  {
    forall id | id in Issuers(s.reqs, b, w) ensures id in Through(cfg, s.reqs, b, w) {
      assert SendInv(cfg, s.reqs[id]);
    }
  }

  lemma TriersGotThrough(cfg: Config, s: State, ipKey: string, w: Time)
    requires SendsOk(cfg, s)
    ensures Triers(s.reqs, PerIp(PinLoginIp, ipKey), w) <= Through(cfg, s.reqs, PerIp(PinLoginIp, ipKey), w)
  {
    var b := PerIp(PinLoginIp, ipKey);
    forall id | id in Triers(s.reqs, b, w) ensures id in Through(cfg, s.reqs, b, w) {
      assert SendInv(cfg, s.reqs[id]);
    }
  }

  lemma IssuerMetered(cfg: Config, s: State, id: nat)
    requires SendsOk(cfg, s) && id in s.reqs && s.reqs[id].t.issued
    ensures CountedByAll(cfg, s.reqs[id])
  {
    var e := s.reqs[id];
    assert SendInv(cfg, e);
    var sends, cooldown := SendsOf(e.r.budgetDevice, e.r.input.email), CooldownOf(e.r.budgetDevice, e.r.input.email);
    assert HitPlaced(cfg, e, s.tables.limits, sends) && HitPlaced(cfg, e, s.tables.limits, cooldown);
    if e.r.input.ip.Some? { assert HitPlaced(cfg, e, s.tables.limits, PerIp(OtpStart, e.r.input.ip.value)); }
  }

  lemma SendsBegin(cfg: Config)
    ensures SendsOk(cfg, Init)
  {}

  /**
   * Any interleaving without cleanup, any clocks: in each window of an
   * address's or a device's hourly cap at most `sendsPerHour` requests issue a
   * code, at most one in each cooldown, and at most `startsPerIp` from one IP
   * in each of its windows; and each of them was counted by the limits of
   * whoever pays.
   */
  lemma CodesPerWindow(cfg: Config, acts: seq<Action>, b: Bucket, w: Time)
    requires ValidConfig(cfg) && IsRun(cfg, Init, acts) && NoSweep(acts) && LimitsCodes(b)
    ensures var reqs := After(cfg, Init, acts).reqs;
      && |Issuers(reqs, b, w)| <= Allowed(cfg, b)
      && forall id :: id in reqs && reqs[id].t.issued ==> CountedByAll(cfg, reqs[id])
  {
    hide SendsOk, CountedByAll, ValidConfig;
    SendsBegin(cfg);
    SendsHold(cfg, Init, acts);
    var s := After(cfg, Init, acts);
    IssuersGotThrough(cfg, s, b, w);
    NoMoreThanAllowed(cfg, s, b, w);
    Subset(Issuers(s.reqs, b, w), Through(cfg, s.reqs, b, w));
    forall id | id in s.reqs && s.reqs[id].t.issued ensures CountedByAll(cfg, s.reqs[id]) { IssuerMetered(cfg, s, id); }
  }

  /** And at most `pinLoginsPerIp` PIN attempts from one IP in each of its windows. */
  lemma AttemptsPerIp(cfg: Config, acts: seq<Action>, ipKey: string, w: Time)
    requires ValidConfig(cfg) && IsRun(cfg, Init, acts) && NoSweep(acts)
    ensures var reqs := After(cfg, Init, acts).reqs;
      && |Triers(reqs, PerIp(PinLoginIp, ipKey), w)| <= cfg.pinLoginsPerIp
      && forall id :: id in reqs && reqs[id].t.attempted.Some? && reqs[id].r.input.ip.Some? ==>
        RunningIn(cfg, reqs[id], PerIp(PinLoginIp, reqs[id].r.input.ip.value))
  {
    hide SendsOk, ValidConfig, RunningIn;
    SendsBegin(cfg);
    SendsHold(cfg, Init, acts);
    var s, b := After(cfg, Init, acts), PerIp(PinLoginIp, ipKey);
    TriersGotThrough(cfg, s, ipKey, w);
    NoMoreThanAllowed(cfg, s, b, w);
    Subset(Triers(s.reqs, b, w), Through(cfg, s.reqs, b, w));
    forall id | id in s.reqs && s.reqs[id].t.attempted.Some? && s.reqs[id].r.input.ip.Some?
      ensures RunningIn(cfg, s.reqs[id], PerIp(PinLoginIp, s.reqs[id].r.input.ip.value))
    {
      TrierMetered(cfg, s, id);
    }
  }

  lemma TrierMetered(cfg: Config, s: State, id: nat)
    requires SendsOk(cfg, s) && id in s.reqs && s.reqs[id].t.attempted.Some? && s.reqs[id].r.input.ip.Some?
    ensures RunningIn(cfg, s.reqs[id], PerIp(PinLoginIp, s.reqs[id].r.input.ip.value))
  {
    assert SendInv(cfg, s.reqs[id]);
    assert HitPlaced(cfg, s.reqs[id], s.tables.limits, PerIp(PinLoginIp, s.reqs[id].r.input.ip.value));
  }

  /** The same with cleanup running, if horizons cover every window and readings move forward. */
  lemma CapsSurviveCleanup(cfg: Config, acts: seq<Action>, b: Bucket, ipKey: string, w: Time)
    requires ValidConfig(cfg) && IsRun(cfg, Init, acts) && CleanupRuns.TimeForward(cfg, Init, acts, 0) && LimitsCodes(b)
    ensures var reqs := After(cfg, Init, acts).reqs;
      && |Issuers(reqs, b, w)| <= Allowed(cfg, b)
      && |Triers(reqs, PerIp(PinLoginIp, ipKey), w)| <= cfg.pinLoginsPerIp
  {
    hide ValidConfig, CleanupRuns.TimeForward;
    CleanupRuns.CleanupIsInvisible(cfg, acts, None, CleanupRuns.SweptBy(acts, 0));
    CleanupRuns.UnsweptHasNone(acts);
    CodesPerWindow(cfg, CleanupRuns.Unswept(acts), b, w);
    AttemptsPerIp(cfg, CleanupRuns.Unswept(acts), ipKey, w);
  }
}

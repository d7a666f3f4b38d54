/**
 * Runs: any number of requests, interleaved at statement boundaries in any
 * order, with any clock reading per request, lost replies, rolled-back
 * statements and their single retry (src/store/pg/executor.ts), revocations
 * by the account's owner, sessions minted by the application, and cleanup.
 */
module Runs {
  import opened Basics
  import opened PinCredential
  import opened Tables
  import opened Routes

  datatype HeldSlot = HeldSlot(bucket: Bucket, windowStart: Time)
  datatype Charge = Charge(windowStart: Time, failed: bool)
  datatype IpHit = IpHit(bucket: Bucket, windowStart: Time, count: nat)

  /** What one request has really done to the tables, whether or not it was told. */
  datatype Trace = Trace(
    slot: Option<HeldSlot>,      // taken from a failure budget and not given back
    charge: Option<Charge>,      // counted on the circuit breaker
    ipHit: Option<IpHit>,        // counted on the per-IP limit of /email/verify
    hits: map<Bucket, Counted>,  // counted on a cooldown, an hourly cap or another per-IP limit
    tried: Option<nat>,          // an attempt taken on the address's code, in this attempt epoch
    compared: Option<ReservedCode>, // the code that attempt was on
    issued: bool,                // wrote a code
    consumed: bool,              // deleted the code it matched
    registered: Option<DeviceId>,// created this device
    attempted: Option<AccountId>,// reserved a login attempt on this account
    reset: Option<AccountId>,    // cleared this account's login guard
    touched: Option<DeviceId>,   // extended this live device
    replaced: Option<AccountId>) // replaced this account's PIN

  const NoTrace := Trace(None, None, None, map[], None, None, false, false, None, None, None, None, None)

  datatype Entry = Entry(r: Request, t: Trace)

  /**
   * `epochs[e]` numbers the attempt allowances of an address: it moves exactly
   * when a new code starts a fresh count. `clock` is the reading of the
   * request whose statement landed last.
   */
  datatype State = State(
    tables: Tables, minted: map<SessionId, Session>, reqs: map<nat, Entry>, epochs: map<Email, nat>, clock: Time)

  const Init := State(EmptyTables, map[], map[], map[], 0)

  /** What became of a statement sent: answered, committed but the reply lost, or rolled back. */
  datatype Fate = Committed | ReplyLost | RolledBack(retryable: bool)

  datatype Action =
    | Arrive(id: nat, input: Input, now: Time)
    | Land(id: nat, fate: Fate, visible: bool)
    | OwnerRevokes(statement: Statement)
    | AppMints(sid: SessionId, user: AccountId)
    | Sweep(now: Time, horizon: int)

  function EpochOf(s: State, email: Email): nat { if email in s.epochs then s.epochs[email] else 0 }

  function Record(t: Trace, s: Statement, a: Result, epoch: nat): Trace {
    if s.ReserveRateLimit? && a.Slot? && a.slot.Some? then t.(slot := Some(HeldSlot(s.bucket, a.slot.value.windowStart)))
    else if s.RefundRateLimit? then t.(slot := None)
    else if s.HitCircuitBreaker? && a.Breaker? then t.(charge := Some(Charge(a.counts.windowStart, s.failed)))
    else if s.HitRateLimit? && a.Hits? then
      if s.bucket.PerIp? && s.bucket.action.OtpVerify? then t.(ipHit := Some(IpHit(s.bucket, a.hits.windowStart, a.hits.count)))
      else t.(hits := t.hits[s.bucket := a.hits])
    else if s.PutEmailCode? then t.(issued := true)
    else if s.ReserveEmailCodeAttempt? && a.Attempt? && a.reserved.Some? then
      t.(tried := Some(epoch), compared := a.reserved)
    else if s.ConsumeEmailCode? && a.Flag? && a.yes then t.(consumed := true)
    else if s.CreateDevice? && a.Done? then t.(registered := Some(s.deviceId))
    else if s.ReserveLoginAttempt? && a.LoginAttempt? && a.failedCount.Some? then t.(attempted := Some(s.account))
    else if s.ResetLoginGuard? then t.(reset := Some(s.account))
    else if s.TouchDevice? && a.Touched? && a.idleExpiresAt.Some? then t.(touched := Some(s.deviceId))
    else if s.ReplaceCredential? && a.Replaced? then
      t.(replaced := Some(s.pin.accountId), reset := if s.resetGuard then Some(s.pin.accountId) else t.reset)
    else t
  }

  /** Each statement records itself and nothing else. */
  lemma RecordWrites(t: Trace, s: Statement, a: Result, epoch: nat)
    ensures var t' := Record(t, s, a, epoch);
      && (!s.ReserveRateLimit? && !s.RefundRateLimit? ==> t'.slot == t.slot)
      && (!s.HitCircuitBreaker? ==> t'.charge == t.charge) && (!s.HitRateLimit? ==> t'.ipHit == t.ipHit && t'.hits == t.hits)
      && (!s.PutEmailCode? ==> t'.issued == t.issued)
      && (!s.ReserveEmailCodeAttempt? ==> t'.tried == t.tried && t'.compared == t.compared)
      && (!s.ConsumeEmailCode? ==> t'.consumed == t.consumed) && (!s.CreateDevice? ==> t'.registered == t.registered)
      && (!s.ReserveLoginAttempt? ==> t'.attempted == t.attempted)
      && (!s.ResetLoginGuard? && !s.ReplaceCredential? ==> t'.reset == t.reset)
      && (!s.ReplaceCredential? ==> t'.replaced == t.replaced) && (!s.TouchDevice? ==> t'.touched == t.touched)
  {}

  /** A code written over no row, or over one whose deadline has passed, starts a new allowance. */
  function EpochsAfter(s: State, st: Statement): map<Email, nat> {
    if st.PutEmailCode? && !KeepsAttempts(s.tables.codes, st.issue.email, st.issue.createdAt)
    then s.epochs[st.issue.email := EpochOf(s, st.issue.email) + 1]
    else s.epochs
  }

  predicate Waiting(s: State, id: nat) {
    id in s.reqs && !s.reqs[id].r.pc.Finished? && !s.reqs[id].r.pc.Crashed?
  }

  /** Random ids are new: never drawn before, never in a table. */
  ghost predicate FreshIds(s: State, input: Input) {
    && input.newDevice !in s.tables.devices && input.newSession !in s.minted
    && input.newCredential !in s.tables.credentials
    && forall j :: j in s.reqs ==>
      && s.reqs[j].r.input.newDevice != input.newDevice
      && s.reqs[j].r.input.newSession != input.newSession
      && s.reqs[j].r.input.newCredential != input.newCredential
  }

  ghost predicate Enabled(s: State, a: Action) {
    match a
    case Arrive(id, input, _) => id !in s.reqs && FreshIds(s, input)
    case Land(id, _, _) => Waiting(s, id)
    case OwnerRevokes(st) => st.RevokeDevice? || st.RevokeAllDevices?
    case AppMints(sid, _) =>
      sid !in s.minted && forall j :: j in s.reqs ==> s.reqs[j].r.input.newSession != sid
    case Sweep(_, _) => true
  }

  /** A database statement that took effect; `told` says whether the request learned of it. */
  ghost function LandDb(cfg: Config, s: State, id: nat, st: Statement, told: bool): State
    requires id in s.reqs
  {
    var e := s.reqs[id];
    var (tables, result) := Exec(s.tables, st);
    var r := e.r.(retried := false);
    s.(tables := tables, epochs := EpochsAfter(s, st), clock := e.r.now,
       reqs := s.reqs[id := Entry(if told then ResumeDb(cfg, r, result) else To(r, Crashed),
                                  Record(e.t, st, result, EpochOf(s, e.r.input.email)))])
  }

  /** Rolled back: retried once if the code says it is safe, otherwise thrown. */
  function RollBack(e: Entry, retryable: bool): Entry {
    if retryable && !e.r.retried then e.(r := e.r.(retried := true)) else e.(r := To(e.r, Crashed))
  }

  /** What the session store answers: any session ever minted may be live, or not. */
  function SessionFound(s: State, c: Call, visible: bool): Option<Session> {
    if c.ReadSession? && visible && c.sid in s.minted then Some(s.minted[c.sid]) else None
  }

  /** A call to anything but the database. */
  function AfterOther(cfg: Config, r: Request, c: Call, found: Option<Session>, told: bool): (r': Request)
    ensures r'.now == r.now && r'.input == r.input
  {
    if !told || c.NoCall? || c.Db? then To(r, Crashed)
    else if c.ReadSession? then ResumePinSession(cfg, r, found)
    else ResumeAcknowledged(r)
  }

  ghost function LandOther(cfg: Config, s: State, id: nat, c: Call, told: bool, visible: bool): State
    requires id in s.reqs
  {
    var e := s.reqs[id];
    s.(minted := if c.MintSession? then s.minted[c.sid := c.session] else s.minted,
       reqs := s.reqs[id := e.(r := AfterOther(cfg, e.r, c, SessionFound(s, c, visible), told))])
  }

  ghost function LandCall(cfg: Config, s: State, id: nat, told: bool, visible: bool): State
    requires id in s.reqs
  {
    var c := Emit(cfg, s.reqs[id].r);
    if c.Db? then LandDb(cfg, s, id, c.statement, told) else LandOther(cfg, s, id, c, told, visible)
  }

  ghost function Next(cfg: Config, s: State, a: Action): State
    requires Enabled(s, a)
  {
    match a
    case Arrive(id, input, now) => s.(reqs := s.reqs[id := Entry(Begin(cfg, input, now), NoTrace)])
    case Land(id, fate, visible) =>
      if fate.RolledBack? then s.(reqs := s.reqs[id := RollBack(s.reqs[id], fate.retryable)])
      else LandCall(cfg, s, id, fate.Committed?, visible)
    case OwnerRevokes(st) => s.(tables := Exec(s.tables, st).0)
    case AppMints(sid, user) => s.(minted := s.minted[sid := Session(user, None, None)])
    case Sweep(now, horizon) => s.(tables := Swept(s.tables, now, horizon))
  }

  /** A sequence of actions, each enabled where it happens. */
  ghost predicate IsRun(cfg: Config, s: State, acts: seq<Action>)
    decreases |acts|
  {
    acts == [] || (Enabled(s, acts[0]) && IsRun(cfg, Next(cfg, s, acts[0]), acts[1..]))
  }

  ghost function After(cfg: Config, s: State, acts: seq<Action>): State
    requires IsRun(cfg, s, acts)
    decreases |acts|
  {
    if acts == [] then s else After(cfg, Next(cfg, s, acts[0]), acts[1..])
  }

  ghost predicate NoSweep(acts: seq<Action>) { forall i :: 0 <= i < |acts| ==> !acts[i].Sweep? }

  /** The bucket a statement may open a window of. */
  function CountsOn(st: Statement): Option<Bucket> {
    match st
    case HitRateLimit(b, _, _) => Some(b)
    case ReserveRateLimit(b, _, _, _) => Some(b)
    case HitCircuitBreaker(b, _, _, _) => Some(b)
    case _ => None
  }

  /** Counting on one of these buckets, a request's reading is not from before the window it finds there. */
  predicate ForwardStep(cfg: Config, s: State, a: Action, which: Bucket -> bool) {
    a.Land? && !a.fate.RolledBack? && a.id in s.reqs ==>
      var r, c := s.reqs[a.id].r, Emit(cfg, s.reqs[a.id].r);
      c.Db? && CountsOn(c.statement).Some? && which(CountsOn(c.statement).value) ==> NotBefore(s, CountsOn(c.statement).value, r.now)
  }

  predicate NotBefore(s: State, b: Bucket, now: Time) { b in s.tables.limits ==> s.tables.limits[b].windowStart <= now }

  /** On these buckets, no statement lands with a reading from before the window it is counted in. */
  ghost predicate CountsForward(cfg: Config, s: State, acts: seq<Action>, which: Bucket -> bool)
    requires IsRun(cfg, s, acts)
    decreases |acts|
  {
    acts == [] || (ForwardStep(cfg, s, acts[0], which) && CountsForward(cfg, Next(cfg, s, acts[0]), acts[1..], which))
  }

  /** Statements land in the order of their requests' clock readings. */
  ghost predicate InOrder(cfg: Config, s: State, acts: seq<Action>)
    requires IsRun(cfg, s, acts)
    decreases |acts|
  {
    acts == [] || ((acts[0].Land? ==> s.reqs[acts[0].id].r.now >= s.clock)
                   && InOrder(cfg, Next(cfg, s, acts[0]), acts[1..]))
  }
}

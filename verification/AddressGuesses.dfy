/** The README's bound on one address, counting its live devices (README.md:869-873, 902-905). */
module AddressGuesses {
  import opened Basics
  import opened PinCredential
  import opened Tables
  import opened Routes
  import opened Runs
  import opened BudgetWindows

  /** The devices of the address that are live at the state's own clock, if that lies in [from, from + window). */
  ghost function LiveNow(cfg: Config, s: State, email: Email, from: Time): set<DeviceId> {
    set d | d in s.tables.devices && from <= s.clock < from + cfg.failureWindowMs
            && s.tables.devices[d].email == email && DeviceLive(s.tables.devices[d], s.clock)
  }

  /** The devices of the address that are present, unrevoked and unexpired at some moment of the interval. */
  ghost function LiveDuring(cfg: Config, s: State, acts: seq<Action>, email: Email, from: Time): set<DeviceId>
    requires IsRun(cfg, s, acts)
    decreases |acts|
  {
    LiveNow(cfg, s, email, from)
    + if acts == [] then {} else LiveDuring(cfg, Next(cfg, s, acts[0]), acts[1..], email, from)
  }

  // ----- one step -----

  /** The request was granted this device's budget. */
  predicate Draws(e: Entry, email: Email, d: DeviceId) { e.r.input.email == email && e.r.budgetDevice == Some(d) }

  /** An answer grants a device's budget only by showing that device live, and of the very address. */
  lemma GrantedByLookup(cfg: Config, r: Request, st: Statement, a: Result, d: DeviceId)
    requires Emit(cfg, r) == Db(st) && ResumeDb(cfg, r, a).budgetDevice == Some(d) && r.budgetDevice != Some(d)
    ensures st == FindDevice(d) && a.Found? && PresentsDeviceOfAddress(r, a.device)
  {
    if r.pc.Starting? {
      StartGrants(cfg, r, r.pc.start, a);
    } else if r.pc.Gating? {
      GateGrants(cfg, r, r.pc.gate, a);
    } else {
      LaterGrantsNothing(cfg, r, a);
    }
  }

  lemma StartGrants(cfg: Config, r: Request, at: StartPc, a: Result)
    ensures var got := ResumeStart(cfg, r, at, a).budgetDevice;
      || got == r.budgetDevice
      || (at.StartDevice? && a.Found? && PresentsDeviceOfAddress(r, a.device) && got == Some(PresentedId(r)))
  {}

  lemma GateGrants(cfg: Config, r: Request, at: GatePc, a: Result)
    ensures var got := ResumeGate(cfg, r, at, a).budgetDevice;
      || got == r.budgetDevice
      || (at.VerifyDevice? && a.Found? && PresentsDeviceOfAddress(r, a.device) && got == Some(PresentedId(r)))
  {}

  lemma LaterGrantsNothing(cfg: Config, r: Request, a: Result)
    requires !r.pc.Starting? && !r.pc.Gating?
    ensures ResumeDb(cfg, r, a).budgetDevice == r.budgetDevice
  {
    hide Verify, CodeMatches, RetryAfterSec, Presents;
  }

  lemma OtherGrantsNothing(cfg: Config, r: Request, found: Option<Session>, told: bool)
    ensures AfterOther(cfg, r, Emit(cfg, r), found, told).budgetDevice == r.budgetDevice
  {}

  lemma BeginsWithout(cfg: Config, input: Input, now: Time)
    ensures Begin(cfg, input, now).budgetDevice.None?
  {}

  lemma LandedDraw(cfg: Config, s: State, id: nat, st: Statement, told: bool, email: Email, from: Time, d: DeviceId)
    requires id in s.reqs && Emit(cfg, s.reqs[id].r) == Db(st)
    requires Draws(LandDb(cfg, s, id, st, told).reqs[id], email, d) && !Draws(s.reqs[id], email, d)
    requires from <= s.reqs[id].r.now < from + cfg.failureWindowMs
    ensures d in LiveNow(cfg, LandDb(cfg, s, id, st, told), email, from)
  {
    hide Emit, ResumeDb;
    SameCall(cfg, s.reqs[id].r);
    GrantedByLookup(cfg, s.reqs[id].r.(retried := false), st, Exec(s.tables, st).1, d);
  }

  /** Every request's draw on a device's budget is either old, or made at a moment the device is live. */
  lemma DrawStep(cfg: Config, s: State, a: Action, email: Email, from: Time, id: nat, d: DeviceId)
    requires Enabled(s, a) && id in Next(cfg, s, a).reqs && Draws(Next(cfg, s, a).reqs[id], email, d)
    requires from <= Next(cfg, s, a).reqs[id].r.now < from + cfg.failureWindowMs
    ensures (id in s.reqs && Draws(s.reqs[id], email, d)) || d in LiveNow(cfg, Next(cfg, s, a), email, from)
    ensures id in s.reqs ==> s.reqs[id].r.now == Next(cfg, s, a).reqs[id].r.now
  {
    hide Exec, Emit, ResumeDb, Begin, LiveNow;
    match a
    case Arrive(j, input, now) => BeginsWithout(cfg, input, now);
    case Land(j, fate, visible) =>
      if j == id && !fate.RolledBack? {
        var c := Emit(cfg, s.reqs[id].r);
        if c.Db? {
          if !Draws(s.reqs[id], email, d) { LandedDraw(cfg, s, id, c.statement, fate.Committed?, email, from, d); }
        } else {
          OtherGrantsNothing(cfg, s.reqs[id].r, SessionFound(s, c, visible), fate.Committed?);
        }
      }
    case _ =>
  }

  lemma {:induction false} DrawsWereLive(cfg: Config, s: State, acts: seq<Action>, email: Email, from: Time,
      id: nat, d: DeviceId)
    requires IsRun(cfg, s, acts) && id in After(cfg, s, acts).reqs && Draws(After(cfg, s, acts).reqs[id], email, d)
    requires from <= After(cfg, s, acts).reqs[id].r.now < from + cfg.failureWindowMs
    ensures (id in s.reqs && Draws(s.reqs[id], email, d)) || d in LiveDuring(cfg, s, acts, email, from)
    ensures id in s.reqs ==> s.reqs[id].r.now == After(cfg, s, acts).reqs[id].r.now
    decreases |acts|
  {
    hide Next, Enabled, LiveNow, Draws;
    if acts != [] {
      var next := Next(cfg, s, acts[0]);
      RequestsStay(cfg, s, acts[0], id);
      DrawsWereLive(cfg, next, acts[1..], email, from, id, d);
      LiveNowCounts(cfg, next, acts[1..], email, from);
      if id in next.reqs && Draws(next.reqs[id], email, d) { DrawStep(cfg, s, acts[0], email, from, id, d); }
    }
  }

  lemma LiveNowCounts(cfg: Config, s: State, acts: seq<Action>, email: Email, from: Time)
    requires IsRun(cfg, s, acts)
    ensures LiveNow(cfg, s, email, from) <= LiveDuring(cfg, s, acts, email, from)
  {
    hide LiveNow, Next, Enabled;
  }

  lemma RequestsStay(cfg: Config, s: State, a: Action, id: nat)
    requires Enabled(s, a)
    ensures id in s.reqs ==> id in Next(cfg, s, a).reqs && Next(cfg, s, a).reqs[id].r.now == s.reqs[id].r.now
  {
    hide Exec, Emit, ResumeDb, Begin;
  }

  // ----- the bound -----

  /** Whoever guesses wrongly on a device's budget does so on a device of the address live in that interval. */
  lemma DevicesAreLive(cfg: Config, acts: seq<Action>, email: Email, from: Time)
    requires IsRun(cfg, Init, acts)
    ensures OnlyDevices(cfg, After(cfg, Init, acts).reqs, email, from, LiveDuring(cfg, Init, acts, email, from))
  {
    hide LiveDuring, IsRun, After;
    var reqs := After(cfg, Init, acts).reqs;
    forall id | id in WrongAgainst(cfg, reqs, email, from) && reqs[id].r.budgetDevice.Some?
      ensures reqs[id].r.budgetDevice.value in LiveDuring(cfg, Init, acts, email, from)
    {
      DrawsWereLive(cfg, Init, acts, email, from, id, reqs[id].r.budgetDevice.value);
    }
  }

  /**
   * Unless a reservation on the address's budget or one of these devices'
   * lands with a reading from before the window it is counted in: in any
   * interval as long as the failure window, the wrong guesses against one
   * address are at most twice the address budget plus twice a device budget
   * per device of the address that is live at a moment of that interval.
   */
  lemma GuessesPerAddress(cfg: Config, acts: seq<Action>, email: Email, from: Time)
    requires ValidConfig(cfg) && IsRun(cfg, Init, acts) && NoSweep(acts)
    requires CountsForward(cfg, Init, acts, Concerned(email, LiveDuring(cfg, Init, acts, email, from)))
    ensures |WrongAgainst(cfg, After(cfg, Init, acts).reqs, email, from)|
            <= 2 * cfg.maxFailuresPerEmail + (2 * cfg.maxFailuresPerDevice) * |LiveDuring(cfg, Init, acts, email, from)|
  {
    DevicesAreLive(cfg, acts, email, from);
    GuessesPerInterval(cfg, acts, email, from, LiveDuring(cfg, Init, acts, email, from));
  }
}

/**
 * `/email/verify` (src/device-auth/index.ts:845-971), run alone: when a code
 * logs in, when it does not, and what either leaves in every table.
 */
module VerifyAnswers {
  import opened Basics
  import opened PinCredential
  import opened Tables
  import opened Routes
  import opened Alone
  import opened Answers

  // ----- the breaker -----

  function FailedOn(limits: map<Bucket, LimitRow>, windowMs: int, now: Time): nat {
    if Running(limits, VerifyBreaker, windowMs, now) then limits[VerifyBreaker].failures else 0
  }

  /** Enough failures, and a large enough share of the attempts, in the window running now. */
  predicate Tripped(cfg: Config, limits: map<Bucket, LimitRow>, now: Time) {
    cfg.breaker.Some? &&
    var b := cfg.breaker.value;
    var failures, attempts := FailedOn(limits, b.windowMs, now), Used(limits, VerifyBreaker, b.windowMs, now);
    failures >= b.minFailures && failures as real >= b.ratio * (if attempts == 0 then 1.0 else attempts as real)
  }

  /** One more verification on the breaker, if there is one. */
  function Judging(cfg: Config, limits: map<Bucket, LimitRow>, now: Time, failed: bool): map<Bucket, LimitRow> {
    if cfg.breaker.None? then limits
    else
      var ms := cfg.breaker.value.windowMs;
      limits[VerifyBreaker := LimitRow(Opened(limits, VerifyBreaker, ms, now), Used(limits, VerifyBreaker, ms, now) + 1,
                                       FailedOn(limits, ms, now) + if failed then 1 else 0)]
  }

  // ----- the code -----

  /** A code for the address, unexpired, with attempts left. */
  predicate LiveCode(cfg: Config, codes: map<Email, CodeRow>, email: Email, now: Time) {
    email in codes && codes[email].attempts < cfg.codeMaxAttempts && now < codes[email].expiresAt
  }

  /** And it is the hash of these digits under the key it was made with, which the ring still holds. */
  predicate RightCode(cfg: Config, codes: map<Email, CodeRow>, input: Input, now: Time) {
    && LiveCode(cfg, codes, input.email, now) && codes[input.email].keyId in cfg.ring.byId
    && codes[input.email].codeHash == CodeHash(cfg.ring.byId[codes[input.email].keyId].secret, input.email, input.code)
  }

  // ----- the login -----

  /** The device to keep: the presented one, if it is the account's. */
  predicate OwnDevice(devices: map<DeviceId, DeviceRow>, input: Input, now: Time, account: AccountId) {
    HoldsDevice(devices, input, now) && Holder(devices, input).accountId == account
  }

  function NewDevice(cfg: Config, input: Input, now: Time, account: AccountId): DeviceRow {
    var absolute, idle := now + cfg.deviceAbsoluteMs, now + cfg.deviceIdleMs;
    DeviceRow(account, input.email, input.newSecretHash, now, now,
              if idle < absolute then idle else absolute, absolute, None)
  }

  /** A session with its email verified now, on the device trusted. */
  predicate Minted(w: Site, w': Site, input: Input, now: Time, account: AccountId, device: Option<DeviceId>,
      answer: Option<Response>)
  {
    && answer == Some(Verified(account, input.newSession))
    && w'.minted == w.minted[input.newSession := Session(account, Some(now), device)]
  }

  /** The device: kept and extended, registered, or none; no answer if a new one draws a taken id. */
  predicate Trusted(cfg: Config, w: Site, input: Input, now: Time, account: AccountId, w': Site,
      answer: Option<Response>)
  {
    var devices, devices' := w.tables.devices, w'.tables.devices;
    if !input.trustDevice then devices' == devices && Minted(w, w', input, now, account, None, answer)
    else if OwnDevice(devices, input, now, account) then
      && devices' == Extended(cfg, devices, input, now)
      && Minted(w, w', input, now, account, Some(input.presented.value.deviceId), answer)
    else if input.newDevice in devices then devices' == devices && w'.minted == w.minted && answer == None
    else
      && devices' == devices[input.newDevice := NewDevice(cfg, input, now, account)]
      && Minted(w, w', input, now, account, Some(input.newDevice), answer)
  }

  // ----- statement by statement, from the end -----

  /** Only devices and sessions differ. */
  predicate SameButDevices(w: Site, w': Site) { w'.tables == w.tables.(devices := w'.tables.devices) }

  lemma Mints(cfg: Config, w: Site, r: Request, n: nat)
    requires n >= 2 && r.pc == Entering(VerifyMint)
    ensures var (w', r') := Finish(cfg, w, r, n);
      Over(r') && w'.tables == w.tables && Minted(w, w', r.input, r.now, r.account, r.device, Told(r'))
  {
    var (w1, r1) := Step(cfg, w, r);
    assert Finish(cfg, w, r, n) == Finish(cfg, w1, r1, n - 1);
    hide Finish, Step;
    var st := GetActivePin(r.account);
    var (t, a) := Exec(w1.tables, st);
    assert t == w1.tables && a.Active?;
    hide Exec;
    var r2 := TrackEnter(cfg, w1, r1, VerifyPinSet, n - 1, st, w1, a);
    Ended(cfg, w1, r2, n - 2);
  }

  lemma Registers(cfg: Config, w: Site, r: Request, n: nat)
    requires n >= 3 && r.pc == Entering(VerifyRegister)
    ensures var (w', r') := Finish(cfg, w, r, n);
      && Over(r')
      && if r.input.newDevice in w.tables.devices then w' == w && Told(r') == None
         else
           && w'.tables == w.tables.(devices :=
                w.tables.devices[r.input.newDevice := NewDevice(cfg, r.input, r.now, r.account)])
           && Minted(w, w', r.input, r.now, r.account, Some(r.input.newDevice), Told(r'))
  {
    hide Finish, Step, Minted;
    var st := CreateDevice(r.input.newDevice, NewDevice(cfg, r.input, r.now, r.account));
    var (t, a) := Exec(w.tables, st);
    assert EmitEnter(cfg, r, VerifyRegister) == Db(st);
    hide EmitEnter;
    var w1 := w.(tables := t);
    var r' := TrackEnter(cfg, w, r, VerifyRegister, n, st, w1, a);
    hide NewDevice;
    if r.input.newDevice in w.tables.devices {
      Ended(cfg, w1, r', n - 1);
    } else {
      Mints(cfg, w1, r', n - 1);
      SameMint(w, w1, Finish(cfg, w1, r', n - 1).0, r.input, r.now, r.account, Some(r.input.newDevice),
               Told(Finish(cfg, w1, r', n - 1).1));
    }
  }

  lemma SameMint(w: Site, w1: Site, w': Site, input: Input, now: Time, account: AccountId, device: Option<DeviceId>,
      answer: Option<Response>)
    requires w1.minted == w.minted && Minted(w1, w', input, now, account, device, answer)
    ensures Minted(w, w', input, now, account, device, answer)
  {}

  lemma Keeps(cfg: Config, w: Site, r: Request, n: nat)
    requires n >= 3 && r.pc == Entering(VerifyTouchTrusted) && HoldsDevice(w.tables.devices, r.input, r.now)
    ensures var (w', r') := Finish(cfg, w, r, n);
      && Over(r') && w'.tables == w.tables.(devices := Extended(cfg, w.tables.devices, r.input, r.now))
      && Minted(w, w', r.input, r.now, r.account, Some(r.input.presented.value.deviceId), Told(r'))
  {
    hide Finish, Step, Minted;
    var st := TouchDevice(PresentedId(r), r.now, r.now + cfg.deviceIdleMs);
    DeviceExtended(cfg, w.tables, r.input, r.now);
    var (t, a) := Exec(w.tables, st);
    hide Exec, Extended;
    var w1 := w.(tables := t);
    var r' := TrackEnter(cfg, w, r, VerifyTouchTrusted, n, st, w1, a);
    Mints(cfg, w1, r', n - 1);
    SameMint(w, w1, Finish(cfg, w1, r', n - 1).0, r.input, r.now, r.account, Some(PresentedId(r)),
             Told(Finish(cfg, w1, r', n - 1).1));
  }

  lemma Trusts(cfg: Config, w: Site, r: Request, n: nat)
    requires n >= 4 && r.input.trustDevice
    requires r.pc == Entering(if r.input.presented.Some? then VerifyFindTrusted else VerifyRegister)
    ensures var (w', r') := Finish(cfg, w, r, n);
      Over(r') && SameButDevices(w, w') && Trusted(cfg, w, r.input, r.now, r.account, w', Told(r'))
  {
    hide Finish, Step, Minted, NewDevice, Extended;
    if r.input.presented.None? {
      Registers(cfg, w, r, n);
    } else {
      var st := FindDevice(PresentedId(r));
      var (t, a) := Exec(w.tables, st);
      assert t == w.tables && a == Found(Lookup(w.tables.devices, PresentedId(r)));
      hide Exec;
      var r' := TrackEnter(cfg, w, r, VerifyFindTrusted, n, st, w, a);
      if OwnDevice(w.tables.devices, r.input, r.now, r.account) {
        Keeps(cfg, w, r', n - 1);
      } else {
        Registers(cfg, w, r', n - 1);
      }
    }
  }

  /** The lockout is lifted first. */
  lemma Unlocks(cfg: Config, w: Site, r: Request, n: nat)
    requires n >= 5 && r.pc == Entering(VerifyUnlock) && r.device.None?
    ensures var (w', r') := Finish(cfg, w, r, n);
      && Over(r')
      && w'.tables == w.tables.(devices := w'.tables.devices, guards := Cleared(w.tables.guards, r.account, r.now))
      && Trusted(cfg, w, r.input, r.now, r.account, w', Told(r'))
  {
    hide Finish, Step, NewDevice, Extended;
    var st := ResetLoginGuard(r.account, r.now);
    var (t, a) := Exec(w.tables, st);
    assert t == w.tables.(guards := Cleared(w.tables.guards, r.account, r.now)) && a.Guard?;
    hide Exec, Cleared, OwnDevice;
    var w1 := w.(tables := t);
    var r' := TrackEnter(cfg, w, r, VerifyUnlock, n, st, w1, a);
    if r.input.trustDevice {
      Trusts(cfg, w1, r', n - 1);
    } else {
      Mints(cfg, w1, r', n - 1);
    }
  }

  // ----- the guess -----

  /** A slot is held in this counter. */
  predicate Held(limits: map<Bucket, LimitRow>, b: Bucket, start: Time) {
    b in limits && limits[b].windowStart == start && limits[b].count > 0
  }

  function GivenBack(limits: map<Bucket, LimitRow>, b: Bucket): map<Bucket, LimitRow>
    requires b in limits && limits[b].count > 0
  {
    limits[b := LimitRow(limits[b].windowStart, limits[b].count - 1, limits[b].failures)]
  }

  /** The rest of a login whose code was right, once its slot is given back. */
  ghost predicate Entered(cfg: Config, w: Site, input: Input, now: Time, account: AccountId, w': Site,
      answer: Option<Response>)
  {
    && w'.tables == w.tables.(limits := Judging(cfg, w.tables.limits, now, false), devices := w'.tables.devices,
                              guards := Cleared(w.tables.guards, account, now))
    && Trusted(cfg, w, input, now, account, w', answer)
  }

  lemma JudgedOn(cfg: Config, t: Tables, now: Time, failed: bool)
    requires cfg.breaker.Some?
    ensures var (t', a) := Exec(t, HitCircuitBreaker(VerifyBreaker, cfg.breaker.value.windowMs, now, failed));
      t' == t.(limits := Judging(cfg, t.limits, now, failed)) && a.Breaker?
  {}

  lemma Enters(cfg: Config, w: Site, r: Request, n: nat)
    requires n >= 6 && r.pc == Entering(if cfg.breaker.Some? then VerifyPassed else VerifyUnlock) && r.device.None?
    ensures var (w', r') := Finish(cfg, w, r, n);
      Over(r') && Entered(cfg, w, r.input, r.now, r.account, w', Told(r'))
  {
    hide Finish, Step;
    if cfg.breaker.None? {
      hide Trusted;
      Unlocks(cfg, w, r, n);
    } else {
      var st := HitCircuitBreaker(VerifyBreaker, cfg.breaker.value.windowMs, r.now, false);
      JudgedOn(cfg, w.tables, r.now, false);
      var (t, a) := Exec(w.tables, st);
      hide Exec, Judging, Extended, NewDevice, Cleared, OwnDevice;
      var w1 := w.(tables := t);
      var r' := TrackEnter(cfg, w, r, VerifyPassed, n, st, w1, a);
      Unlocks(cfg, w1, r', n - 1);
    }
  }

  lemma GivesBack(t: Tables, b: Bucket, start: Time)
    requires Held(t.limits, b, start)
    ensures Exec(t, RefundRateLimit(b, start)) == (t.(limits := GivenBack(t.limits, b)), Done)
  {}

  lemma Refunds(cfg: Config, w: Site, r: Request, n: nat)
    requires n >= 7 && r.pc == Guessing(VerifyRefund) && r.device.None?
    requires Held(w.tables.limits, FailuresOf(r.budgetDevice, r.input.email), r.slotStart)
    ensures var (w', r') := Finish(cfg, w, r, n);
      var limits := GivenBack(w.tables.limits, FailuresOf(r.budgetDevice, r.input.email));
      Over(r') && Entered(cfg, w.(tables := w.tables.(limits := limits)), r.input, r.now, r.account, w', Told(r'))
  {
    hide Finish, Step, Entered;
    var b := FailuresOf(r.budgetDevice, r.input.email);
    var st := RefundRateLimit(b, r.slotStart);
    GivesBack(w.tables, b, r.slotStart);
    var (t, a) := Exec(w.tables, st);
    hide Exec;
    var w1 := w.(tables := t);
    var r' := TrackGuess(cfg, w, r, VerifyRefund, n, st, w1, a);
    Enters(cfg, w1, r', n - 1);
  }

  /** Refused, and counted as a failure on the breaker. */
  lemma Fails(cfg: Config, w: Site, r: Request, n: nat)
    requires n >= 1 && r.pc == if cfg.breaker.Some? then Guessing(VerifyCharge) else Finished(InvalidCode)
    ensures var (w', r') := Finish(cfg, w, r, n);
      && w' == w.(tables := w.tables.(limits := Judging(cfg, w.tables.limits, r.now, true)))
      && r'.pc == Finished(InvalidCode)
  {
    hide Finish, Step;
    if cfg.breaker.None? {
      Ended(cfg, w, r, n);
    } else {
      var st := HitCircuitBreaker(VerifyBreaker, cfg.breaker.value.windowMs, r.now, true);
      JudgedOn(cfg, w.tables, r.now, true);
      var (t, a) := Exec(w.tables, st);
      hide Exec, Judging;
      var r' := TrackGuess(cfg, w, r, VerifyCharge, n, st, w.(tables := t), a);
      Ended(cfg, w.(tables := t), r', n - 1);
    }
  }

  /** A right code is used up; then it is the user. */
  ghost predicate Spelt(cfg: Config, w: Site, payer: Option<DeviceId>, input: Input, now: Time, w': Site,
      answer: Option<Response>)
    requires FailuresOf(payer, input.email) in w.tables.limits
    requires w.tables.limits[FailuresOf(payer, input.email)].count > 0
  {
    var t := w.tables.(codes := w.tables.codes - {input.email});
    if input.resolved.None? then
      w' == w.(tables := t.(limits := Judging(cfg, t.limits, now, true))) && answer == Some(InvalidCode)
    else
      Entered(cfg, w.(tables := t.(limits := GivenBack(t.limits, FailuresOf(payer, input.email)))), input, now,
              input.resolved.value, w', answer)
  }

  lemma Consumes(cfg: Config, w: Site, r: Request, n: nat)
    requires n >= 8 && r.pc == Guessing(VerifyConsume) && r.device.None?
    requires Held(w.tables.limits, FailuresOf(r.budgetDevice, r.input.email), r.slotStart)
    requires r.input.email in w.tables.codes && r.matched == Some(w.tables.codes[r.input.email].codeHash)
    ensures var (w', r') := Finish(cfg, w, r, n);
      Over(r') && Spelt(cfg, w, r.budgetDevice, r.input, r.now, w', Told(r'))
  {
    hide Finish, Step, Entered, GivenBack;
    var st := ConsumeEmailCode(r.input.email, r.matched.value);
    var t := w.tables.(codes := w.tables.codes - {r.input.email});
    assert Exec(w.tables, st) == (t, Flag(true));
    hide Exec;
    var w1 := w.(tables := t);
    var r' := TrackGuess(cfg, w, r, VerifyConsume, n, st, w1, Flag(true));
    if r.input.resolved.None? {
      Fails(cfg, w1, r', n - 1);
    } else {
      Refunds(cfg, w1, r', n - 1);
    }
  }

  /** One attempt on the code. */
  function Tried(codes: map<Email, CodeRow>, email: Email): map<Email, CodeRow>
    requires email in codes
  {
    codes[email := codes[email].(attempts := codes[email].attempts + 1)]
  }

  /**
   * With a slot held: given back at once if there is no live code; kept, and
   * an attempt with it, for a wrong one; given back again for a right one.
   */
  ghost predicate Guessed(cfg: Config, w: Site, payer: Option<DeviceId>, input: Input, now: Time, w': Site,
      answer: Option<Response>)
    requires FailuresOf(payer, input.email) in w.tables.limits
    requires w.tables.limits[FailuresOf(payer, input.email)].count > 0
  {
    var t := w.tables;
    if !LiveCode(cfg, t.codes, input.email, now) then
      && w' == w.(tables := t.(limits := GivenBack(t.limits, FailuresOf(payer, input.email))))
      && answer == Some(InvalidCode)
    else
      var tried := t.(codes := Tried(t.codes, input.email));
      if RightCode(cfg, t.codes, input, now) then Spelt(cfg, w.(tables := tried), payer, input, now, w', answer)
      else
        && w' == w.(tables := tried.(limits := Judging(cfg, t.limits, now, true))) && answer == Some(InvalidCode)
  }

  lemma GivesUp(cfg: Config, w: Site, r: Request, n: nat)
    requires n >= 1 && r.pc == Guessing(VerifyRefundUnused)
    requires Held(w.tables.limits, FailuresOf(r.budgetDevice, r.input.email), r.slotStart)
    ensures var (w', r') := Finish(cfg, w, r, n);
      && w' == w.(tables := w.tables.(limits := GivenBack(w.tables.limits, FailuresOf(r.budgetDevice, r.input.email))))
      && r'.pc == Finished(InvalidCode)
  {
    hide Finish, Step;
    var b := FailuresOf(r.budgetDevice, r.input.email);
    var st := RefundRateLimit(b, r.slotStart);
    GivesBack(w.tables, b, r.slotStart);
    var (t, a) := Exec(w.tables, st);
    hide Exec;
    var r' := TrackGuess(cfg, w, r, VerifyRefundUnused, n, st, w.(tables := t), a);
    Ended(cfg, w.(tables := t), r', n - 1);
  }

  lemma Guesses(cfg: Config, w: Site, r: Request, n: nat)
    requires n >= 9 && r.pc == Guessing(VerifyAttempt) && r.device.None?
    requires Held(w.tables.limits, FailuresOf(r.budgetDevice, r.input.email), r.slotStart)
    ensures var (w', r') := Finish(cfg, w, r, n);
      Over(r') && Guessed(cfg, w, r.budgetDevice, r.input, r.now, w', Told(r'))
  {
    hide Finish, Step, Spelt, GivenBack, Judging;
    var st := ReserveEmailCodeAttempt(r.input.email, r.now, cfg.codeMaxAttempts);
    var (t, a) := Exec(w.tables, st);
    if !LiveCode(cfg, w.tables.codes, r.input.email, r.now) {
      assert t == w.tables && a == Attempt(None);
      hide Exec;
      var r' := TrackGuess(cfg, w, r, VerifyAttempt, n, st, w, a);
      GivesUp(cfg, w, r', n - 1);
    } else {
      var row := w.tables.codes[r.input.email];
      assert t == w.tables.(codes := Tried(w.tables.codes, r.input.email));
      assert a == Attempt(Some(ReservedCode(row.codeHash, row.keyId, row.attempts + 1)));
      hide Exec;
      var r' := TrackGuess(cfg, w, r, VerifyAttempt, n, st, w.(tables := t), a);
      if RightCode(cfg, w.tables.codes, r.input, r.now) {
        Consumes(cfg, w.(tables := t), r', n - 1);
      } else {
        Fails(cfg, w.(tables := t), r', n - 1);
      }
    }
  }

  // ----- the gates -----

  /** The budget of whoever pays is used up. */
  predicate Exhausted(cfg: Config, limits: map<Bucket, LimitRow>, payer: Option<DeviceId>, email: Email, now: Time) {
    && Running(limits, FailuresOf(payer, email), cfg.failureWindowMs, now)
    && limits[FailuresOf(payer, email)].count >= FailuresAllowed(cfg, payer)
  }

  /** A slot of the payer's budget, or the refusal that leaves nothing behind. */
  ghost predicate OnBudget(cfg: Config, w: Site, payer: Option<DeviceId>, input: Input, now: Time, w': Site,
      answer: Option<Response>)
  {
    var t, b := w.tables, FailuresOf(payer, input.email);
    if Exhausted(cfg, t.limits, payer, input.email, now) then
      && w' == w && answer.Some? && answer.value.RateLimited?
      && UntilOver(answer.value.retryAfterSec, t.limits, b, cfg.failureWindowMs, now)
    else
      Guessed(cfg, w.(tables := t.(limits := Counting(t.limits, b, cfg.failureWindowMs, now))), payer, input, now, w',
              answer)
  }

  lemma Full(cfg: Config, w: Site, r: Request, n: nat)
    requires n >= 1 && r.pc == Gating(VerifyFull)
    ensures var (w', r') := Finish(cfg, w, r, n);
      && w' == w && r'.pc.Finished? && r'.pc.response.RateLimited?
      && UntilOver(r'.pc.response.retryAfterSec, w.tables.limits, FailuresOf(r.budgetDevice, r.input.email),
                   cfg.failureWindowMs, r.now)
  {
    hide Finish, Step;
    var b := FailuresOf(r.budgetDevice, r.input.email);
    var st := ReadRateLimit(b, cfg.failureWindowMs, r.now);
    Read(w.tables, b, cfg.failureWindowMs, r.now);
    var (t, a) := Exec(w.tables, st);
    hide Exec;
    var r' := TrackGate(cfg, w, r, VerifyFull, n, st, w, a);
    RetryWaits(a.hits.windowStart, cfg.failureWindowMs, r.now);
    Ended(cfg, w, r', n - 1);
  }

  lemma Takes(t: Tables, b: Bucket, windowMs: int, now: Time, max: nat)
    ensures Exec(t, ReserveRateLimit(b, windowMs, now, max))
      == if Running(t.limits, b, windowMs, now) && t.limits[b].count >= max then (t, Slot(None))
         else (t.(limits := Counting(t.limits, b, windowMs, now)),
               Slot(Some(Counted(Used(t.limits, b, windowMs, now) + 1, Opened(t.limits, b, windowMs, now)))))
  {}

  lemma Reserves(cfg: Config, w: Site, r: Request, n: nat)
    requires n >= 10 && r.pc == Gating(VerifyReserve) && r.device.None?
    ensures var (w', r') := Finish(cfg, w, r, n);
      Over(r') && OnBudget(cfg, w, r.budgetDevice, r.input, r.now, w', Told(r'))
  {
    hide Finish, Step, Guessed;
    var b, max := FailuresOf(r.budgetDevice, r.input.email), FailuresAllowed(cfg, r.budgetDevice);
    var st := ReserveRateLimit(b, cfg.failureWindowMs, r.now, max);
    Takes(w.tables, b, cfg.failureWindowMs, r.now, max);
    var (t, a) := Exec(w.tables, st);
    hide Exec;
    var r' := TrackGate(cfg, w, r, VerifyReserve, n, st, w.(tables := t), a);
    if a.slot.Some? {
      Guesses(cfg, w.(tables := t), r', n - 1);
    } else {
      Full(cfg, w, r', n - 1);
    }
  }

  lemma LooksUp(cfg: Config, w: Site, r: Request, n: nat)
    requires n >= 11 && r.pc == AfterVerifyBreaker(r).pc && r.budgetDevice.None? && r.device.None?
    ensures var (w', r') := Finish(cfg, w, r, n);
      Over(r') && OnBudget(cfg, w, Payer(w.tables.devices, r.input, r.now), r.input, r.now, w', Told(r'))
  {
    hide Finish, Step, OnBudget;
    if r.input.presented.None? {
      Reserves(cfg, w, r, n);
    } else {
      var st := FindDevice(PresentedId(r));
      var (t, a) := Exec(w.tables, st);
      assert t == w.tables && a == Found(Lookup(w.tables.devices, PresentedId(r)));
      hide Exec;
      var r' := TrackGate(cfg, w, r, VerifyDevice, n, st, w, a);
      Reserves(cfg, w, r', n - 1);
    }
  }

  /** The breaker, then the budget. */
  ghost predicate OnBreaker(cfg: Config, w: Site, input: Input, now: Time, w': Site, answer: Option<Response>) {
    if Tripped(cfg, w.tables.limits, now) then
      && w' == w && answer.Some? && answer.value.Unavailable?
      && UntilOver(answer.value.retryAfterSec, w.tables.limits, VerifyBreaker, cfg.breaker.value.windowMs, now)
    else OnBudget(cfg, w, Payer(w.tables.devices, input, now), input, now, w', answer)
  }

  lemma BreakerRead(t: Tables, windowMs: int, now: Time)
    ensures Exec(t, ReadCircuitBreaker(VerifyBreaker, windowMs, now))
      == (t, Breaker(BreakerCounts(Used(t.limits, VerifyBreaker, windowMs, now), FailedOn(t.limits, windowMs, now),
                                   Opened(t.limits, VerifyBreaker, windowMs, now))))
  {}

  lemma Asks(cfg: Config, w: Site, r: Request, n: nat)
    requires n >= 12 && r.pc == AfterVerifyIp(cfg, r).pc && r.budgetDevice.None? && r.device.None?
    ensures var (w', r') := Finish(cfg, w, r, n);
      Over(r') && OnBreaker(cfg, w, r.input, r.now, w', Told(r'))
  {
    hide Finish, Step, OnBudget, Payer;
    if cfg.breaker.None? {
      LooksUp(cfg, w, r, n);
    } else {
      var ms := cfg.breaker.value.windowMs;
      var st := ReadCircuitBreaker(VerifyBreaker, ms, r.now);
      BreakerRead(w.tables, ms, r.now);
      var (t, a) := Exec(w.tables, st);
      hide Exec;
      var r' := TrackGate(cfg, w, r, VerifyBreakerRead, n, st, w, a);
      RetryWaits(a.counts.windowStart, ms, r.now);
      hide RetryAfterSec, Waits;
      assert BreakerOpen(cfg.breaker.value, a.counts) <==> Tripped(cfg, w.tables.limits, r.now);
      hide BreakerOpen, Tripped;
      if Tripped(cfg, w.tables.limits, r.now) {
        Ended(cfg, w, r', n - 1);
      } else {
        LooksUp(cfg, w, r', n - 1);
      }
    }
  }

  // ----- the whole verification -----

  /**
   * What `/email/verify` answers, and leaves: the IP's limit, the breaker, the
   * budget, the code, the user, the device, in that order. No answer when it
   * registers a device under a taken id.
   */
  ghost predicate VerifyAnswered(cfg: Config, w: Site, input: Input, now: Time, w': Site, answer: Option<Response>) {
    var t := w.tables;
    var counted := w.(tables := t.(limits := IpCounted(t.limits, input, OtpVerify, now)));
    if NoIp(cfg, input) then w' == w && answer == Some(ClientIpRequired)
    else if IpFull(t.limits, input, OtpVerify, cfg.verifiesPerIp, now) then
      && w' == counted && answer.Some? && answer.value.RateLimited?
      && UntilOver(answer.value.retryAfterSec, t.limits, PerIp(OtpVerify, input.ip.value), HOUR_MS, now)
    else OnBreaker(cfg, counted, input, now, w', answer)
  }

  // ----- in one step -----

  /** Past the IP limit, the breaker and the budget, each seen as it was stored before the request. */
  predicate LetIn(cfg: Config, t: Tables, input: Input, now: Time) {
    && !NoIp(cfg, input) && !IpFull(t.limits, input, OtpVerify, cfg.verifiesPerIp, now)
    && !Tripped(cfg, t.limits, now)
    && !Exhausted(cfg, t.limits, Payer(t.devices, input, now), input.email, now)
  }

  /** The account logged in: let in, with the right code, for a user there is. */
  predicate LogsIn(cfg: Config, t: Tables, input: Input, now: Time) {
    LetIn(cfg, t, input, now) && RightCode(cfg, t.codes, input, now) && input.resolved.Some?
  }

  /** A device is to be registered under an id another one has. */
  predicate Collides(t: Tables, input: Input, now: Time, account: AccountId) {
    input.trustDevice && !OwnDevice(t.devices, input, now, account) && input.newDevice in t.devices
  }

  lemma GuessedCases(cfg: Config, w: Site, payer: Option<DeviceId>, input: Input, now: Time, w': Site,
      answer: Option<Response>)
    requires FailuresOf(payer, input.email) in w.tables.limits
    requires w.tables.limits[FailuresOf(payer, input.email)].count > 0
    requires Guessed(cfg, w, payer, input, now, w', answer)
    ensures var t, entered := w.tables, RightCode(cfg, w.tables.codes, input, now) && input.resolved.Some?;
      && (answer == Some(InvalidCode) <==> !entered)
      && (answer == None <==> entered && Collides(t, input, now, input.resolved.value))
      && (answer.Some? && answer.value != InvalidCode ==>
            answer == Some(Verified(input.resolved.value, input.newSession)))
      && (w'.minted != w.minted ==> answer.Some? && answer.value.Verified?)
      && w'.tables.codes == (if RightCode(cfg, t.codes, input, now) then t.codes - {input.email}
                             else if LiveCode(cfg, t.codes, input.email, now) then Tried(t.codes, input.email)
                             else t.codes)
      && w'.tables.guards == (if entered then Cleared(t.guards, input.resolved.value, now) else t.guards)
      && w'.tables.credentials == t.credentials
  {
    hide Extended, NewDevice, Judging, OwnDevice;
    if LiveCode(cfg, w.tables.codes, input.email, now) {
      assert Tried(w.tables.codes, input.email) - {input.email} == w.tables.codes - {input.email};
    }
  }

  /** Counting on other rows changes neither gate. */
  lemma GatesApart(cfg: Config, t: Tables, input: Input, now: Time)
    ensures var limits := IpCounted(t.limits, input, OtpVerify, now);
      && (Tripped(cfg, limits, now) <==> Tripped(cfg, t.limits, now))
      && (Exhausted(cfg, limits, Payer(t.devices, input, now), input.email, now)
          <==> Exhausted(cfg, t.limits, Payer(t.devices, input, now), input.email, now))
  {}

  /**
   * Exactly when `/email/verify` logs in, exactly when it says the code is
   * wrong, exactly when it asks to come back, and what becomes of the code
   * and of the lockout.
   */
  lemma VerifiesExactlyWhen(cfg: Config, w: Site, input: Input, now: Time, w': Site, answer: Option<Response>)
    requires VerifyAnswered(cfg, w, input, now, w', answer)
    ensures var t, enters := w.tables, LogsIn(cfg, w.tables, input, now);
      && (answer == Some(InvalidCode) <==> LetIn(cfg, t, input, now) && !enters)
      && (answer == None <==> enters && Collides(t, input, now, input.resolved.value))
      && (answer.Some? && answer.value.Verified? <==> enters && !Collides(t, input, now, input.resolved.value))
      && (enters && answer.Some? ==> answer == Some(Verified(input.resolved.value, input.newSession)))
      && (w'.minted != w.minted ==> answer.Some? && answer.value.Verified?)
    ensures var t := w.tables;
      && w'.tables.codes == (if !LetIn(cfg, t, input, now) then t.codes
                             else if RightCode(cfg, t.codes, input, now) then t.codes - {input.email}
                             else if LiveCode(cfg, t.codes, input.email, now) then Tried(t.codes, input.email)
                             else t.codes)
      && w'.tables.guards
         == (if LogsIn(cfg, t, input, now) then Cleared(t.guards, input.resolved.value, now) else t.guards)
      && w'.tables.credentials == t.credentials
  {
    var t, payer := w.tables, Payer(w.tables.devices, input, now);
    GatesApart(cfg, t, input, now);
    var limits := IpCounted(t.limits, input, OtpVerify, now);
    if LetIn(cfg, t, input, now) {
      var b := FailuresOf(payer, input.email);
      var slot := w.(tables := t.(limits := Counting(limits, b, cfg.failureWindowMs, now)));
      hide Tripped, Exhausted, IpFull, Payer, IpCounted, RightCode, LiveCode, Collides, Guessed;
      GuessedCases(cfg, slot, payer, input, now, w', answer);
    }
  }

  /** What a verification that was let in adds to its budget, and to the breaker. */
  ghost predicate Charged(cfg: Config, limits: map<Bucket, LimitRow>, limits': map<Bucket, LimitRow>, b: Bucket,
      now: Time, compared: bool, failed: bool)
  {
    && Used(limits', b, cfg.failureWindowMs, now) == Used(limits, b, cfg.failureWindowMs, now) + (if failed then 1 else 0)
    && (cfg.breaker.Some? ==>
          var ms := cfg.breaker.value.windowMs;
          && Used(limits', VerifyBreaker, ms, now) == Used(limits, VerifyBreaker, ms, now) + (if compared then 1 else 0)
          && FailedOn(limits', ms, now) == FailedOn(limits, ms, now) + (if failed then 1 else 0))
  }

  /** A slot taken, and one given back, or not. */
  lemma SlotCounts(limits: map<Bucket, LimitRow>, b: Bucket, windowMs: int, now: Time)
    requires windowMs > 0
    ensures var slot := Counting(limits, b, windowMs, now);
      && b in slot && slot[b].count > 0 && Used(slot, b, windowMs, now) == Used(limits, b, windowMs, now) + 1
      && Used(GivenBack(slot, b), b, windowMs, now) == Used(limits, b, windowMs, now)
  {}

  lemma JudgingCounts(cfg: Config, limits: map<Bucket, LimitRow>, b: Bucket, now: Time, failed: bool)
    requires ValidConfig(cfg) && !b.VerifyBreaker?
    ensures var limits' := Judging(cfg, limits, now, failed);
      && Used(limits', b, cfg.failureWindowMs, now) == Used(limits, b, cfg.failureWindowMs, now)
      && (cfg.breaker.Some? ==>
            var ms := cfg.breaker.value.windowMs;
            && Used(limits', VerifyBreaker, ms, now) == Used(limits, VerifyBreaker, ms, now) + 1
            && FailedOn(limits', ms, now) == FailedOn(limits, ms, now) + (if failed then 1 else 0))
  {}

  /** The three ways a slot can end. */
  lemma SlotEnds(cfg: Config, limits: map<Bucket, LimitRow>, b: Bucket, now: Time)
    requires ValidConfig(cfg) && !b.VerifyBreaker?
    ensures var slot := Counting(limits, b, cfg.failureWindowMs, now);
      && b in slot && slot[b].count > 0
      && Charged(cfg, limits, GivenBack(slot, b), b, now, false, false)
      && Charged(cfg, limits, Judging(cfg, slot, now, true), b, now, true, true)
      && Charged(cfg, limits, Judging(cfg, GivenBack(slot, b), now, false), b, now, true, false)
  {
    SlotCounts(limits, b, cfg.failureWindowMs, now);
    var slot := Counting(limits, b, cfg.failureWindowMs, now);
    var back := GivenBack(slot, b);
    assert forall k :: k != b ==> (k in slot <==> k in limits) && (k in back <==> k in limits);
    assert forall k :: k in limits && k != b ==> slot[k] == limits[k] && back[k] == limits[k];
    hide Counting, GivenBack;
    JudgingCounts(cfg, slot, b, now, true);
    JudgingCounts(cfg, back, b, now, false);
    hide Judging;
  }

  lemma GuessedLimits(cfg: Config, w: Site, payer: Option<DeviceId>, input: Input, now: Time, w': Site,
      answer: Option<Response>)
    requires FailuresOf(payer, input.email) in w.tables.limits
    requires w.tables.limits[FailuresOf(payer, input.email)].count > 0
    requires Guessed(cfg, w, payer, input, now, w', answer)
    ensures var slot, back := w.tables.limits, GivenBack(w.tables.limits, FailuresOf(payer, input.email));
      w'.tables.limits
        == if !LiveCode(cfg, w.tables.codes, input.email, now) then back
           else if RightCode(cfg, w.tables.codes, input, now) && input.resolved.Some? then Judging(cfg, back, now, false)
           else Judging(cfg, slot, now, true)
  {
    hide Judging, GivenBack, Trusted, Cleared;
  }

  /** Charged to the budget exactly for a code compared that let no one in; to the breaker for every code compared. */
  lemma ChargesExactlyWhen(cfg: Config, w: Site, input: Input, now: Time, w': Site, answer: Option<Response>)
    requires ValidConfig(cfg) && VerifyAnswered(cfg, w, input, now, w', answer) && LetIn(cfg, w.tables, input, now)
    ensures var t, payer := w.tables, Payer(w.tables.devices, input, now);
      var compared := LiveCode(cfg, t.codes, input.email, now);
      Charged(cfg, t.limits, w'.tables.limits, FailuresOf(payer, input.email), now, compared,
              compared && !LogsIn(cfg, t, input, now))
  {
    var t, payer := w.tables, Payer(w.tables.devices, input, now);
    GatesApart(cfg, t, input, now);
    var limits, b := IpCounted(t.limits, input, OtpVerify, now), FailuresOf(payer, input.email);
    var slot := w.(tables := t.(limits := Counting(limits, b, cfg.failureWindowMs, now)));
    assert Charged(cfg, t.limits, limits, b, now, false, false);
    hide Tripped, Exhausted, IpFull, Payer, IpCounted, RightCode, LiveCode, Guessed, Counting, Used, FailedOn;
    SlotEnds(cfg, limits, b, now);
    GuessedLimits(cfg, slot, payer, input, now, w', answer);
    hide GivenBack, Judging;
  }

  lemma CountsIp(cfg: Config, w: Site, r: Request, n: nat)
    requires n >= 13 && r.pc == Gating(VerifyIp) && r.input.ip.Some? && r.budgetDevice.None? && r.device.None?
    ensures var (w', r') := Finish(cfg, w, r, n); Over(r') && VerifyAnswered(cfg, w, r.input, r.now, w', Told(r'))
  {
    hide Finish, Step;
    var b := PerIp(OtpVerify, r.input.ip.value);
    var st := HitRateLimit(b, HOUR_MS, r.now);
    Hit(w.tables, b, HOUR_MS, r.now);
    var (t, a) := Exec(w.tables, st);
    hide Exec;
    var w1 := w.(tables := t);
    var r' := TrackGate(cfg, w, r, VerifyIp, n, st, w1, a);
    RetryWaits(a.hits.windowStart, HOUR_MS, r.now);
    hide RetryAfterSec, Waits, OnBreaker;
    if IpFull(w.tables.limits, r.input, OtpVerify, cfg.verifiesPerIp, r.now) {
      Ended(cfg, w1, r', n - 1);
    } else {
      Asks(cfg, w1, r', n - 1);
    }
  }

  lemma EmailVerifyAnswers(cfg: Config, w: Site, input: Input, now: Time)
    requires input.route.EmailVerify?
    ensures var (w', r) := Finish(cfg, w, Begin(cfg, input, now), 17);
      Over(r) && VerifyAnswered(cfg, w, input, now, w', Told(r))
  {
    hide Finish, Step, OnBreaker;
    var r := Begin(cfg, input, now);
    if NoIp(cfg, input) {
      Ended(cfg, w, r, 17);
    } else if input.ip.Some? {
      CountsIp(cfg, w, r, 17);
    } else {
      Asks(cfg, w, r, 17);
    }
  }
}

/**
 * The route handlers of src/device-auth/index.ts as they are written, against
 * the store object: run alone, each does what its program in `Routes` does
 * when every statement is answered.
 */
module Handlers {
  import opened Basics
  import opened PinCredential
  import opened Tables
  import opened Routes
  import opened Alone
  import opened DeviceStore
  import StartAnswers
  import VerifyAnswers
  import PinAnswers
  import LoginAnswers
  import StatementFacts

  /** The secret is the row's, and the row is live. */
  predicate Matches(row: DeviceRow, token: Token, now: Time) { row.secretHash == token.secretHash && DeviceLive(row, now) }

  class DeviceAuth {
    const cfg: Config
    const store: DeviceAuthStore
    var sessions: map<SessionId, Session>

    ghost function Where(): Site
      reads this, store
    {
      Site(store.Contents(), sessions)
    }

    constructor (cfg: Config, store: DeviceAuthStore)
      ensures this.cfg == cfg && this.store == store && sessions == map[]
    {
      this.cfg, this.store, sessions := cfg, store, map[];
    }

    /** `readDevice`: the presented device, if it is real, unrevoked and unexpired. */
    method ReadDevice(token: Token, now: Time) returns (device: Option<DeviceRow>, found: Option<DeviceRow>)
      ensures (store.Contents(), Found(found)) == Exec(store.Contents(), FindDevice(token.deviceId))
      ensures device == if found.Some? && Matches(found.value, token, now) then found else None
    {
      found := store.FindDevice(token.deviceId);
      device := found;
      if found.None? { return; }
      var row := found.value;
      if row.secretHash != token.secretHash || row.revokedAt.Some? || now >= row.idleExpiresAt || now >= row.absoluteExpiresAt {
        device := None;
      }
    }

    // ----- /email/start -----

    /** The device's own budgets pay if it is registered to the address. */
    method EmailStart(input: Input, now: Time) returns (response: Response)
      requires input.route.EmailStart?
      modifies store`limits, store`codes
      ensures Ends(cfg, old(Where()), Begin(cfg, input, now), 6, Where(), response)
      ensures StartAnswers.StartAnswered(cfg, old(Where()), input, now, Where(), response)
      ensures old(store.Valid()) ==> store.Valid()
    {
      hide Exec, StartAnswers.StartAnswered;
      StartAnswers.EmailStartAnswers(cfg, Where(), input, now);
      ghost var r := Begin(cfg, input, now);
      if input.ip.None? && cfg.requireClientIp { return ClientIpRequired; }
      if input.ip.Some? {
        ghost var w := Where();
        var hit := store.HitRateLimit(PerIp(OtpStart, input.ip.value), HOUR_MS, now);
        r := TrackStart(cfg, w, r, StartIp, 6,
          Statement.HitRateLimit(PerIp(OtpStart, input.ip.value), HOUR_MS, now), Where(), Hits(hit));
        if hit.count > cfg.startsPerIp { return RateLimited(RetryAfterSec(hit.windowStart, HOUR_MS, now)); }
      }
      ghost var n := if input.ip.Some? then 5 else 6;
      var budget: Option<DeviceId> := None;
      if input.presented.Some? {
        ghost var w := Where();
        var device, found := ReadDevice(input.presented.value, now);
        r := TrackStart(cfg, w, r, StartDevice, n, FindDevice(input.presented.value.deviceId), Where(), Found(found));
        if device.Some? && device.value.email == input.email { budget := Some(input.presented.value.deviceId); }
      }
      n := if input.presented.Some? then n - 1 else n;
      assert r == To(Begin(cfg, input, now).(budgetDevice := budget), Starting(StartBudget));
      assert Finish(cfg, old(Where()), Begin(cfg, input, now), 6) == Finish(cfg, Where(), r, n);
      response := StartOnBudget(input, now, budget, r, n);
    }

    /** A code the requester could not verify anyway is not worth sending. */
    method StartOnBudget(input: Input, now: Time, budget: Option<DeviceId>, ghost r0: Request, ghost n: nat)
      returns (response: Response)
      requires r0.pc == Starting(StartBudget) && r0.input == input && r0.now == now && r0.budgetDevice == budget
      requires n >= 4
      modifies store`limits, store`codes
      ensures Ends(cfg, old(Where()), r0, n, Where(), response)
      ensures old(store.Valid()) ==> store.Valid()
    {
      var failures := if budget.Some? then FailuresOfDevice(budget.value) else FailuresOfEmail(input.email);
      var max := if budget.Some? then cfg.maxFailuresPerDevice else cfg.maxFailuresPerEmail;
      var used := store.ReadRateLimit(failures, cfg.failureWindowMs, now);
      ghost var r := TrackStart(cfg, Where(), r0, StartBudget, n,
        Statement.ReadRateLimit(failures, cfg.failureWindowMs, now), Where(), Hits(used));
      if used.count >= max { return RateLimited(RetryAfterSec(used.windowStart, cfg.failureWindowMs, now)); }
      assert r == To(r0, Starting(StartCooldown));
      response := StartCooled(input, now, budget, r, n - 1);
    }

    method StartCooled(input: Input, now: Time, budget: Option<DeviceId>, ghost r0: Request, ghost n: nat)
      returns (response: Response)
      requires r0.pc == Starting(StartCooldown) && r0.input == input && r0.now == now && r0.budgetDevice == budget
      requires n >= 3
      modifies store`limits, store`codes
      ensures Ends(cfg, old(Where()), r0, n, Where(), response)
      ensures old(store.Valid()) ==> store.Valid()
    {
      var cooldown := if budget.Some? then CooldownOfDevice(budget.value) else CooldownOfEmail(input.email);
      ghost var w := Where();
      var cooled := store.HitRateLimit(cooldown, cfg.cooldownMs, now);
      ghost var r := TrackStart(cfg, w, r0, StartCooldown, n,
        Statement.HitRateLimit(cooldown, cfg.cooldownMs, now), Where(), Hits(cooled));
      if cooled.count > 1 { return RateLimited(RetryAfterSec(cooled.windowStart, cfg.cooldownMs, now)); }
      assert r == To(r0, Starting(StartHourly));
      response := StartCapped(input, now, budget, r, n - 1);
    }

    method StartCapped(input: Input, now: Time, budget: Option<DeviceId>, ghost r0: Request, ghost n: nat)
      returns (response: Response)
      requires r0.pc == Starting(StartHourly) && r0.input == input && r0.now == now && r0.budgetDevice == budget
      requires n >= 2
      modifies store`limits, store`codes
      ensures Ends(cfg, old(Where()), r0, n, Where(), response)
      ensures old(store.Valid()) ==> store.Valid()
    {
      var sends := if budget.Some? then SendsToDevice(budget.value) else SendsToEmail(input.email);
      ghost var w := Where();
      var capped := store.HitRateLimit(sends, HOUR_MS, now);
      ghost var r := TrackStart(cfg, w, r0, StartHourly, n,
        Statement.HitRateLimit(sends, HOUR_MS, now), Where(), Hits(capped));
      if capped.count > cfg.sendsPerHour { return RateLimited(RetryAfterSec(capped.windowStart, HOUR_MS, now)); }
      assert r == To(r0, Starting(StartPut));
      response := StartSent(input, now, r, n - 1);
    }

    method StartSent(input: Input, now: Time, ghost r0: Request, ghost n: nat) returns (response: Response)
      requires r0.pc == Starting(StartPut) && r0.input == input && r0.now == now && n >= 1
      modifies store`codes
      ensures Ends(cfg, old(Where()), r0, n, Where(), response)
      ensures old(store.Valid()) ==> store.Valid()
    {

      var issue := CodeIssue(input.email, CodeHash(cfg.ring.current.secret, input.email, input.code), cfg.ring.current.keyId,
                             now + cfg.codeTtlMs, now, now + cfg.codeTtlMs);
      ghost var w := Where();
      store.PutEmailCode(issue);
      ghost var r := TrackStart(cfg, w, r0, StartPut, n, Statement.PutEmailCode(issue), Where(), Done);
      response := CodeSent;
    }

    // ----- /email/verify -----

    method EmailVerify(input: Input, now: Time) returns (response: Option<Response>)
      requires input.route.EmailVerify? && store.Valid()
      modifies this`sessions, store
      ensures Runs(cfg, old(Where()), Begin(cfg, input, now), 17, Where(), response)
      ensures VerifyAnswers.VerifyAnswered(cfg, old(Where()), input, now, Where(), response)
      ensures store.Valid()
    {
      hide VerifyAnswers.VerifyAnswered;
      VerifyAnswers.EmailVerifyAnswers(cfg, Where(), input, now);
      ghost var r := Begin(cfg, input, now);
      if input.ip.None? && cfg.requireClientIp { return Some(ClientIpRequired); }
      if input.ip.Some? {
        ghost var w := Where();
        var hit := store.HitRateLimit(PerIp(OtpVerify, input.ip.value), HOUR_MS, now);
        r := TrackGate(cfg, w, r, VerifyIp, 17,
          Statement.HitRateLimit(PerIp(OtpVerify, input.ip.value), HOUR_MS, now), Where(), Hits(hit));
        if hit.count > cfg.verifiesPerIp { return Some(RateLimited(RetryAfterSec(hit.windowStart, HOUR_MS, now))); }
      }
      ghost var n := if input.ip.Some? then 16 else 17;
      assert Finish(cfg, old(Where()), Begin(cfg, input, now), 17) == Finish(cfg, Where(), r, n);
      response := VerifyBroken(input, now, r, n);
    }

    /** Then the breaker. */
    method VerifyBroken(input: Input, now: Time, ghost r0: Request, ghost n: nat) returns (response: Option<Response>)
      requires store.Valid() && n >= 16 && Asked(r0, input, now) && r0.budgetDevice.None? && r0.device.None?
      requires r0.pc == if cfg.breaker.Some? then Gating(VerifyBreakerRead) else AtDevice(input)
      modifies this`sessions, store
      ensures Runs(cfg, old(Where()), r0, n, Where(), response)
      ensures store.Valid()
    {
      ghost var r, m := r0, n;
      if cfg.breaker.Some? {
        var breaker := cfg.breaker.value;
        var counts := store.ReadCircuitBreaker(VerifyBreaker, breaker.windowMs, now);
        r := TrackGate(cfg, Where(), r, VerifyBreakerRead, n,
          Statement.ReadCircuitBreaker(VerifyBreaker, breaker.windowMs, now), Where(), Breaker(counts));
        m := n - 1;
        if BreakerOpen(breaker, counts) {
          return Some(Unavailable(RetryAfterSec(counts.windowStart, breaker.windowMs, now)));
        }
      }
      assert Finish(cfg, old(Where()), r0, n) == Finish(cfg, Where(), r, m);
      response := VerifyBudget(input, now, r, m);
    }

    /** Whose budget pays. */
    method VerifyBudget(input: Input, now: Time, ghost r0: Request, ghost n: nat) returns (response: Option<Response>)
      requires store.Valid() && n >= 15 && Asked(r0, input, now) && r0.budgetDevice.None? && r0.device.None?
      requires r0.pc == AtDevice(input)
      modifies this`sessions, store
      ensures Runs(cfg, old(Where()), r0, n, Where(), response)
      ensures store.Valid()
    {
      ghost var r, m := r0, n;
      var budget: Option<DeviceId> := None;
      if input.presented.Some? {
        var device, found := ReadDevice(input.presented.value, now);
        r := TrackGate(cfg, Where(), r, VerifyDevice, n,
          FindDevice(input.presented.value.deviceId), Where(), Found(found));
        m := n - 1;
        if device.Some? && device.value.email == input.email { budget := Some(input.presented.value.deviceId); }
      }
      assert r == To(r0.(budgetDevice := budget), Gating(VerifyReserve));
      assert Finish(cfg, old(Where()), r0, n) == Finish(cfg, Where(), r, m);
      response := VerifyReserved(input, now, budget, r, m);
    }

    /** Reserve a failure before checking anything. */
    method VerifyReserved(input: Input, now: Time, budget: Option<DeviceId>, ghost r0: Request, ghost n: nat)
      returns (response: Option<Response>)
      requires store.Valid() && n >= 14 && Asked(r0, input, now) && r0.device.None?
      requires r0.budgetDevice == budget && r0.pc == Gating(VerifyReserve)
      modifies this`sessions, store
      ensures Runs(cfg, old(Where()), r0, n, Where(), response)
      ensures store.Valid()
    {
      hide Finish, Step;
      var failures := if budget.Some? then FailuresOfDevice(budget.value) else FailuresOfEmail(input.email);
      var max := if budget.Some? then cfg.maxFailuresPerDevice else cfg.maxFailuresPerEmail;
      ghost var w := Where();
      var slot := store.ReserveRateLimit(failures, cfg.failureWindowMs, now, max);
      ghost var r := TrackGate(cfg, w, r0, VerifyReserve, n,
        Statement.ReserveRateLimit(failures, cfg.failureWindowMs, now, max), Where(), Slot(slot));
      if slot.None? {
        response := VerifyRefused(failures, now, r, n - 1);
        return;
      }
      assert r == To(r0.(slotStart := slot.value.windowStart), Guessing(VerifyAttempt));
      response := VerifyGuess(input, now, failures, slot.value.windowStart, r, n - 1);
    }

    method VerifyRefused(failures: Bucket, now: Time, ghost r0: Request, ghost n: nat)
      returns (response: Option<Response>)
      requires n >= 1 && r0.now == now && FailureBucket(r0) == failures && r0.pc == Gating(VerifyFull)
      ensures Runs(cfg, Where(), r0, n, Where(), response)
    {
      var current := store.ReadRateLimit(failures, cfg.failureWindowMs, now);
      ghost var r := TrackGate(cfg, Where(), r0, VerifyFull, n,
        Statement.ReadRateLimit(failures, cfg.failureWindowMs, now), Where(), Hits(current));
      response := Some(RateLimited(RetryAfterSec(current.windowStart, cfg.failureWindowMs, now)));
    }

    /** Reserve the attempt on the code, compare, and delete what matched. */
    method VerifyGuess(input: Input, now: Time, failures: Bucket, slotStart: Time, ghost r0: Request, ghost n: nat)
      returns (response: Option<Response>)
      requires store.Valid() && n >= 13 && Asked(r0, input, now) && r0.device.None?
      requires FailureBucket(r0) == failures && r0.slotStart == slotStart && r0.pc == Guessing(VerifyAttempt)
      modifies this`sessions, store
      ensures Runs(cfg, old(Where()), r0, n, Where(), response)
      ensures store.Valid()
    {
      hide Exec;
      ghost var w := Where();
      var reserved := store.ReserveEmailCodeAttempt(input.email, now, cfg.codeMaxAttempts);
      ghost var r := TrackGuess(cfg, w, r0, VerifyAttempt, n,
        Statement.ReserveEmailCodeAttempt(input.email, now, cfg.codeMaxAttempts), Where(), Attempt(reserved));
      if reserved.None? {
        w := Where();
        store.RefundRateLimit(failures, slotStart);
        r := TrackGuess(cfg, w, r, VerifyRefundUnused, n - 1,
          Statement.RefundRateLimit(failures, slotStart), Where(), Done);
        return Some(InvalidCode);
      }
      var keyId, codeHash := reserved.value.keyId, reserved.value.codeHash;
      if keyId !in cfg.ring.byId || CodeHash(cfg.ring.byId[keyId].secret, input.email, input.code) != codeHash {
        response := Invalid(now, r, n - 1);
        return;
      }
      assert r == To(r0.(guess := Some(true), matched := Some(codeHash)), Guessing(VerifyConsume));
      response := VerifyConsumed(input, now, codeHash, failures, slotStart, r, n - 1);
    }

    /** Of two correct submissions racing, one delete wins; then the account. */
    method VerifyConsumed(input: Input, now: Time, codeHash: CodeHash, failures: Bucket, slotStart: Time,
        ghost r0: Request, ghost n: nat)
      returns (response: Option<Response>)
      requires store.Valid() && n >= 12 && Asked(r0, input, now) && r0.device.None? && r0.matched == Some(codeHash)
      requires FailureBucket(r0) == failures && r0.slotStart == slotStart && r0.pc == Guessing(VerifyConsume)
      modifies this`sessions, store
      ensures Runs(cfg, old(Where()), r0, n, Where(), response)
      ensures store.Valid()
    {
      hide Exec;
      hide Finish, Step;
      ghost var w := Where();
      var won := store.ConsumeEmailCode(input.email, codeHash);
      ghost var r := TrackGuess(cfg, w, r0, VerifyConsume, n,
        Statement.ConsumeEmailCode(input.email, codeHash), Where(), Flag(won));
      if !won || input.resolved.None? {
        response := Invalid(now, r, n - 1);
        return;
      }
      w := Where();
      store.RefundRateLimit(failures, slotStart);
      r := TrackGuess(cfg, w, r, VerifyRefund, n - 1, Statement.RefundRateLimit(failures, slotStart), Where(), Done);
      response := VerifyEntered(input, now, input.resolved.value, r, n - 2);
    }

    /** `invalid(...)`. */
    method Invalid(now: Time, ghost r0: Request, ghost n: nat) returns (response: Option<Response>)
      requires n >= 1 && r0.now == now
      requires r0.pc == if cfg.breaker.Some? then Guessing(VerifyCharge) else Finished(InvalidCode)
      modifies store`limits
      ensures Runs(cfg, old(Where()), r0, n, Where(), response)
      ensures old(store.Valid()) ==> store.Valid()
    {
      if cfg.breaker.Some? {
        ghost var w := Where();
        var counts := store.HitCircuitBreaker(VerifyBreaker, cfg.breaker.value.windowMs, now, true);
        ghost var r := TrackGuess(cfg, w, r0, VerifyCharge, n,
          Statement.HitCircuitBreaker(VerifyBreaker, cfg.breaker.value.windowMs, now, true), Where(), Breaker(counts));
      }
      response := Some(InvalidCode);
    }

    /** Verified: count it on the breaker, lift the lockout, trust a device. */
    method VerifyEntered(input: Input, now: Time, account: AccountId, ghost r0: Request, ghost n: nat)
      returns (response: Option<Response>)
      requires store.Valid() && n >= 10 && Asked(r0, input, now) && r0.device.None? && r0.account == account
      requires r0.pc == if cfg.breaker.Some? then Entering(VerifyPassed) else Entering(VerifyUnlock)
      modifies this`sessions, store
      ensures Runs(cfg, old(Where()), r0, n, Where(), response)
      ensures store.Valid()
    {
      hide Finish, Step;
      ghost var r, m := r0, n;
      if cfg.breaker.Some? {
        ghost var w := Where();
        var counts := store.HitCircuitBreaker(VerifyBreaker, cfg.breaker.value.windowMs, now, false);
        r := TrackEnter(cfg, w, r, VerifyPassed, n,
          Statement.HitCircuitBreaker(VerifyBreaker, cfg.breaker.value.windowMs, now, false), Where(), Breaker(counts));
        m := n - 1;
      }
      assert Finish(cfg, old(Where()), r0, n) == Finish(cfg, Where(), r, m);
      response := VerifyUnlocked(input, now, account, r, m);
    }

    method VerifyUnlocked(input: Input, now: Time, account: AccountId, ghost r0: Request, ghost n: nat)
      returns (response: Option<Response>)
      requires store.Valid() && n >= 9 && Asked(r0, input, now) && r0.device.None? && r0.account == account
      requires r0.pc == Entering(VerifyUnlock)
      modifies this`sessions, store
      ensures Runs(cfg, old(Where()), r0, n, Where(), response)
      ensures store.Valid()
    {
      hide Finish, Step;
      ghost var w := Where();
      var before := store.ResetLoginGuard(account, now);
      ghost var r := TrackEnter(cfg, w, r0, VerifyUnlock, n,
        Statement.ResetLoginGuard(account, now), Where(), Guard(before));
      if input.trustDevice {
        response := VerifyTrusted(input, now, account, r, n - 1);
      } else {
        response := VerifyMinted(input, now, account, None, r, n - 1);
      }
    }

    /** A device already trusted by the account is kept and extended; otherwise a new one is registered. */
    method VerifyTrusted(input: Input, now: Time, account: AccountId, ghost r0: Request, ghost n: nat)
      returns (response: Option<Response>)
      requires store.Valid() && n >= 8 && Asked(r0, input, now) && r0.device.None? && r0.account == account
      requires r0.pc == if input.presented.Some? then Entering(VerifyFindTrusted) else Entering(VerifyRegister)
      modifies this`sessions, store
      ensures Runs(cfg, old(Where()), r0, n, Where(), response)
      ensures store.Valid()
    {
      hide Exec;
      hide Finish, Step;
      if input.presented.None? {
        response := VerifyRegistered(input, now, account, r0, n);
        return;
      }
      var device, found := ReadDevice(input.presented.value, now);
      ghost var r := TrackEnter(cfg, Where(), r0, VerifyFindTrusted, n,
        FindDevice(input.presented.value.deviceId), Where(), Found(found));
      if device.Some? && device.value.accountId == account {
        response := VerifyTouched(input, now, account, input.presented.value.deviceId, r, n - 1);
      } else {
        response := VerifyRegistered(input, now, account, r, n - 1);
      }
    }

    method VerifyTouched(input: Input, now: Time, account: AccountId, id: DeviceId, ghost r0: Request, ghost n: nat)
      returns (response: Option<Response>)
      requires store.Valid() && n >= 7 && Asked(r0, input, now) && r0.device.None? && r0.account == account
      requires r0.pc == Entering(VerifyTouchTrusted) && PresentedId(r0) == id
      modifies this`sessions, store
      ensures Runs(cfg, old(Where()), r0, n, Where(), response)
      ensures store.Valid()
    {
      hide Finish, Step;
      ghost var w := Where();
      var idle := store.TouchDevice(id, now, now + cfg.deviceIdleMs);
      ghost var r := TrackEnter(cfg, w, r0, VerifyTouchTrusted, n,
        Statement.TouchDevice(id, now, now + cfg.deviceIdleMs), Where(), Touched(idle));
      if idle.Some? {
        response := VerifyMinted(input, now, account, Some(id), r, n - 1);
      } else {
        response := VerifyRegistered(input, now, account, r, n - 1);
      }
    }

    method VerifyRegistered(input: Input, now: Time, account: AccountId, ghost r0: Request, ghost n: nat)
      returns (response: Option<Response>)
      requires store.Valid() && n >= 6 && Asked(r0, input, now) && r0.account == account
      requires r0.pc == Entering(VerifyRegister)
      modifies this`sessions, store
      ensures Runs(cfg, old(Where()), r0, n, Where(), response)
      ensures store.Valid()
    {
      hide Exec;
      var absoluteExpiresAt := now + cfg.deviceAbsoluteMs;
      var row := DeviceRow(account, input.email, input.newSecretHash, now, now, Min(now + cfg.deviceIdleMs, absoluteExpiresAt), absoluteExpiresAt, None);
      ghost var w := Where();
      var stored := store.CreateDevice(input.newDevice, row);
      ghost var r := TrackEnter(cfg, w, r0, VerifyRegister, n,
        Statement.CreateDevice(input.newDevice, row), Where(), if stored then Done else Failed);
      if !stored { return None; }
      response := VerifyMinted(input, now, account, Some(input.newDevice), r, n - 1);
    }

    method VerifyMinted(input: Input, now: Time, account: AccountId, device: Option<DeviceId>, ghost r0: Request,
        ghost n: nat)
      returns (response: Option<Response>)
      requires store.Valid() && n >= 2 && Asked(r0, input, now) && r0.account == account && r0.device == device
      requires r0.pc == Entering(VerifyMint)
      modifies this`sessions
      ensures Runs(cfg, old(Where()), r0, n, Where(), response)
      ensures store.Valid()
    {
      hide Exec;
      sessions := sessions[input.newSession := Session(account, Some(now), device)];
      ghost var w, r := Where(), To(r0, Entering(VerifyPinSet));
      assert Step(cfg, old(Where()), r0) == (w, r);
      var active := store.GetActivePin(account);
      r := TrackEnter(cfg, w, r, VerifyPinSet, n - 1, Statement.GetActivePin(account), w, Active(active));
      response := Some(Verified(account, input.newSession));
    }

    // ----- /pin -----

    method SetPin(input: Input, now: Time) returns (response: Option<Response>)
      requires input.route.SetPin?
      modifies this`sessions, store
      ensures Runs(cfg, old(Where()), Begin(cfg, input, now), 3, Where(), response)
      ensures PinAnswers.SetPinAnswered(cfg, old(Where()), input, now, Where(), response)
      ensures old(store.Valid()) ==> store.Valid()
    {
      hide Exec, Enroll, PinAnswers.SetPinAnswered, StatementFacts.BatchDone;
      PinAnswers.SetPinAnswers(cfg, Where(), input, now);
      ghost var r0 := Begin(cfg, input, now);
      if input.session !in sessions { return Some(Unauthenticated); }
      var session := sessions[input.session];
      ghost var r := ResumePinSession(cfg, r0, Some(session));
      assert Step(cfg, Where(), r0) == (Where(), r);
      if session.emailVerifiedAt.None? || now - session.emailVerifiedAt.value > cfg.freshMs { return Some(EmailVerificationRequired); }

      var pin := NewPin(input.newCredential, session.userId, Enroll(cfg.ring, cfg.pinIterations, input.pin, input.salt), now);
      var others := if cfg.revokeOthersOnChange then Some(session.deviceId) else None;
      ghost var w := Where();
      var replaced := store.ReplaceCredential(pin, true, others);
      ghost var a := if replaced.Some? then Replaced(replaced.value) else Failed;
      r := TrackSetPin(cfg, w, r, PinReplace, 2, Statement.ReplaceCredential(pin, true, others), Where(), a);
      if replaced.None? { return None; }
      if replaced.value.replaced && cfg.revokeOthersOnChange {
        w := Where();
        sessions := map sid | sid in sessions && sessions[sid].userId != session.userId :: sessions[sid];
        assert Step(cfg, w, r) == (Where(), ResumeAcknowledged(r));
        return Some(PinStored(true));
      }
      response := Some(PinStored(false));
    }

    // ----- /pin/login -----

    method PinLogin(input: Input, now: Time) returns (response: Option<Response>)
      requires input.route.PinLogin? && store.Valid()
      modifies this`sessions, store
      ensures Runs(cfg, old(Where()), Begin(cfg, input, now), 9, Where(), response)
      ensures response.Some? && LoginAnswers.LoginAnswered(cfg, old(Where()), input, now, Where(), response.value)
      ensures store.Valid()
    {
      hide LoginAnswers.LoginAnswered;
      LoginAnswers.PinLoginAnswers(cfg, Where(), input, now);
      ghost var r := Begin(cfg, input, now);
      if input.ip.None? && cfg.requireClientIp { return Some(ClientIpRequired); }
      if input.ip.Some? {
        ghost var w := Where();
        var hit := store.HitRateLimit(PerIp(PinLoginIp, input.ip.value), HOUR_MS, now);
        r := TrackLogin(cfg, w, r, LoginIp, 9,
          Statement.HitRateLimit(PerIp(PinLoginIp, input.ip.value), HOUR_MS, now), Where(), Hits(hit));
        if hit.count > cfg.pinLoginsPerIp { return Some(RateLimited(RetryAfterSec(hit.windowStart, HOUR_MS, now))); }
      }
      ghost var n := if input.ip.Some? then 8 else 9;
      if input.presented.None? { return Some(EmailVerificationRequired); }
      assert Finish(cfg, old(Where()), Begin(cfg, input, now), 9) == Finish(cfg, Where(), r, n);
      response := LoginOnDevice(input, now, input.presented.value, r, n);
    }

    /** Everything that can be decided without hashing is decided first. */
    method LoginOnDevice(input: Input, now: Time, token: Token, ghost r0: Request, ghost n: nat)
      returns (response: Option<Response>)
      requires store.Valid() && n >= 8 && Asked(r0, input, now) && input.presented == Some(token)
      requires r0.pc == LoggingIn(LoginDevice)
      modifies this`sessions, store
      ensures Runs(cfg, old(Where()), r0, n, Where(), response)
      ensures store.Valid()
    {
      var device, found := ReadDevice(token, now);
      ghost var r := TrackLogin(cfg, Where(), r0, LoginDevice, n, FindDevice(token.deviceId), Where(), Found(found));
      if device.None? { return Some(EmailVerificationRequired); }
      response := LoginWithPin(input, now, device.value.accountId, token.deviceId, r, n - 1);
    }

    method LoginWithPin(input: Input, now: Time, account: AccountId, device: DeviceId, ghost r0: Request, ghost n: nat)
      returns (response: Option<Response>)
      requires store.Valid() && n >= 7 && Asked(r0, input, now) && r0.account == account && PresentedId(r0) == device
      requires r0.pc == LoggingIn(LoginCredential)
      modifies this`sessions, store
      ensures Runs(cfg, old(Where()), r0, n, Where(), response)
      ensures store.Valid()
    {
      hide Finish, Step;
      var active := store.GetActivePin(account);
      ghost var r := TrackLogin(cfg, Where(), r0, LoginCredential, n,
        Statement.GetActivePin(account), Where(), Active(active));
      if active.None? {
        Ended(cfg, Where(), r, n - 1);
        return Some(EmailVerificationRequired);
      }
      response := LoginAttempted(input, now, account, device, active.value, r, n - 1);
    }

    /** Reserve the attempt, then compare. */
    method LoginAttempted(input: Input, now: Time, account: AccountId, device: DeviceId, active: ActiveCredential,
                          ghost r0: Request, ghost n: nat)
      returns (response: Option<Response>)
      requires n >= 6 && LoginAt(r0, input, now, account, device, active) && r0.pc == LoggingIn(LoginReserve)
      modifies this`sessions, store
      ensures Runs(cfg, old(Where()), r0, n, Where(), response)
      ensures old(store.Valid()) ==> store.Valid()
    {
      hide Exec;
      hide Finish, Step;
      ghost var w := Where();
      var failedCount := store.ReserveLoginAttempt(account, cfg.pinMaxAttempts, now);
      ghost var r := TrackLogin(cfg, w, r0, LoginReserve, n,
        Statement.ReserveLoginAttempt(account, cfg.pinMaxAttempts, now), Where(), LoginAttempt(failedCount));
      if failedCount.None? {
        Ended(cfg, Where(), r, n - 1);
        return Some(EmailVerificationRequired);
      }
      var check := Verify(cfg.ring, cfg.pinIterations, input.pin, active.row.material, input.salt);
      if check.ok {
        response := LoginVerified(input, now, account, device, active, check.upgraded, r, n - 1);
      } else if failedCount.value >= cfg.pinMaxAttempts {
        response := LoginLocked(now, account, r, n - 1);
      } else {
        Ended(cfg, Where(), r, n - 1);
        response := Some(InvalidPin(cfg.pinMaxAttempts - failedCount.value));
      }
    }

    method LoginLocked(now: Time, account: AccountId, ghost r0: Request, ghost n: nat)
      returns (response: Option<Response>)
      requires n >= 1 && r0.now == now && r0.account == account && r0.pc == LoggingIn(LoginLock)
      modifies store`guards
      ensures Runs(cfg, old(Where()), r0, n, Where(), response)
      ensures old(store.Valid()) ==> store.Valid()
    {
      ghost var w := Where();
      store.LockAccount(account, cfg.pinMaxAttempts, now);
      ghost var r := TrackLogin(cfg, w, r0, LoginLock, n,
        Statement.LockAccount(account, cfg.pinMaxAttempts, now), Where(), Done);
      response := Some(EmailVerificationRequired);
    }

    method LoginVerified(input: Input, now: Time, account: AccountId, device: DeviceId, active: ActiveCredential,
                         upgraded: Option<Material>, ghost r0: Request, ghost n: nat)
      returns (response: Option<Response>)
      requires n >= 5 && LoginAt(r0, input, now, account, device, active) && r0.upgraded == upgraded
      requires r0.pc == LoggingIn(LoginReset)
      modifies this`sessions, store
      ensures Runs(cfg, old(Where()), r0, n, Where(), response)
      ensures old(store.Valid()) ==> store.Valid()
    {
      hide Finish, Step;
      ghost var w := Where();
      var before := store.ResetLoginGuard(account, now);
      ghost var r := TrackLogin(cfg, w, r0, LoginReset, n,
        Statement.ResetLoginGuard(account, now), Where(), Guard(before));
      response := LoginMarked(input, now, account, device, active, upgraded, r, n - 1);
    }

    method LoginMarked(input: Input, now: Time, account: AccountId, device: DeviceId, active: ActiveCredential,
                       upgraded: Option<Material>, ghost r0: Request, ghost n: nat)
      returns (response: Option<Response>)
      requires n >= 4 && LoginAt(r0, input, now, account, device, active) && r0.upgraded == upgraded
      requires r0.pc == LoggingIn(LoginMark)
      modifies this`sessions, store
      ensures Runs(cfg, old(Where()), r0, n, Where(), response)
      ensures old(store.Valid()) ==> store.Valid()
    {
      hide Finish, Step;
      ghost var w := Where();
      store.MarkCredentialUsed(active.credentialId, now, upgraded);
      ghost var r := TrackLogin(cfg, w, r0, LoginMark, n,
        Statement.MarkCredentialUsed(active.credentialId, now, upgraded), Where(), Done);
      if input.resolved != Some(account) {
        Ended(cfg, Where(), r, n - 1);
        return Some(EmailVerificationRequired);
      }
      response := LoginTouched(input, now, account, device, active, r, n - 1);
    }

    /** No `emailVerifiedAt`: a session from a PIN login can never change the PIN. */
    method LoginTouched(input: Input, now: Time, account: AccountId, device: DeviceId, active: ActiveCredential,
                        ghost r0: Request, ghost n: nat)
      returns (response: Option<Response>)
      requires n >= 2 && LoginAt(r0, input, now, account, device, active) && r0.pc == LoggingIn(LoginTouch)
      modifies this`sessions, store
      ensures Runs(cfg, old(Where()), r0, n, Where(), response)
      ensures old(store.Valid()) ==> store.Valid()
    {
      hide Exec;
      ghost var w := Where();
      var idle := store.TouchDevice(device, now, now + cfg.deviceIdleMs);
      ghost var r := TrackLogin(cfg, w, r0, LoginTouch, n,
        Statement.TouchDevice(device, now, now + cfg.deviceIdleMs), Where(), Touched(idle));
      if idle.None? { return Some(EmailVerificationRequired); }
      w := Where();
      sessions := sessions[input.newSession := Session(account, None, Some(device))];
      assert Step(cfg, w, r) == (Where(), ResumeAcknowledged(r));
      response := Some(LoggedIn(account, input.newSession));
    }
  }

  /** Where a login stands once its device and credential are known. */
  predicate LoginAt(r: Request, input: Input, now: Time, account: AccountId, device: DeviceId,
      active: ActiveCredential) {
    Asked(r, input, now) && r.account == account && PresentedId(r) == device
    && r.credential == active.credentialId && r.stored == active.row.material
  }

  /** The request is this one, at this reading. */
  predicate Asked(r: Request, input: Input, now: Time) { r.input == input && r.now == now }

  function AtDevice(input: Input): Pc { if input.presented.Some? then Gating(VerifyDevice) else Gating(VerifyReserve) }
}

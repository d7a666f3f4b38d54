/**
 * Cleanup (src/device-auth/store.ts:585-596), one statement at a time: a store
 * that is swept and one that never is answer every decision alike.
 */
module Cleanup {
  import opened Basics
  import opened PinCredential
  import opened Tables
  import opened Routes

  /** Rows agree on what their readers look at; only the breaker reads `failures`. */
  predicate SameRow(b: Bucket, x: LimitRow, y: LimitRow) {
    x.windowStart == y.windowStart && x.count == y.count && (b.VerifyBreaker? ==> x.failures == y.failures)
  }

  /** A row only the unswept store has: its window had passed, for any window up to `longest`, at the last sweep. */
  predicate LimitsAgree(a: map<Bucket, LimitRow>, b: map<Bucket, LimitRow>, longest: int, swept: Time) {
    && (forall k :: k in b ==> k in a && SameRow(k, a[k], b[k]))
    && (forall k :: k in a && k !in b ==> a[k].windowStart <= swept - longest)
  }

  predicate CodesAgree(a: map<Email, CodeRow>, b: map<Email, CodeRow>, swept: Time) {
    && (forall k :: k in b ==> k in a && a[k] == b[k])
    && (forall k :: k in a && k !in b ==> a[k].expiresAt <= swept)
  }

  /** Codes live `ttl` from their issue, and their attempts never outlive them. */
  predicate CodesTimed(codes: map<Email, CodeRow>, ttl: int, clock: Time) {
    forall k :: k in codes ==>
      && codes[k].expiresAt == codes[k].createdAt + ttl && codes[k].createdAt <= clock
      && codes[k].attemptsResetAt <= codes[k].expiresAt
  }

  predicate DevicesAgree(a: map<DeviceId, DeviceRow>, b: map<DeviceId, DeviceRow>, swept: Time) {
    && (forall k :: k in b ==> k in a && a[k] == b[k])
    && (forall k :: k in a && k !in b ==> !DeviceLive(a[k], swept))
  }

  predicate PinsAgree(a: map<CredentialId, CredentialRow>, b: map<CredentialId, CredentialRow>) {
    && (forall k :: k in b ==> k in a && a[k] == b[k])
    && (forall k :: k in a && k !in b ==> a[k].revokedAt.Some?)
  }

  /** `a` never swept, `b` swept up to `swept`. */
  ghost predicate Agree(a: Tables, b: Tables, longest: int, swept: Time) {
    && LimitsAgree(a.limits, b.limits, longest, swept) && CodesAgree(a.codes, b.codes, swept)
    && DevicesAgree(a.devices, b.devices, swept) && PinsAgree(a.credentials, b.credentials) && a.guards == b.guards
    && OneLivePin(a.credentials)
  }

  /** A reading of the statement's clock, if it carries one. */
  function ReadingOf(st: Statement): Option<Time> {
    match st
    case HitRateLimit(_, _, now) => Some(now)
    case ReadRateLimit(_, _, now) => Some(now)
    case ReserveRateLimit(_, _, now, _) => Some(now)
    case HitCircuitBreaker(_, _, now, _) => Some(now)
    case ReadCircuitBreaker(_, _, now) => Some(now)
    case PutEmailCode(issue) => Some(issue.createdAt)
    case ReserveEmailCodeAttempt(_, now, _) => Some(now)
    case TouchDevice(_, now, _) => Some(now)
    case _ => None
  }

  /** No window longer than `longest`; the breaker's row is only the breaker's. */
  predicate Windowed(st: Statement, longest: int) {
    match st
    case HitRateLimit(b, w, _) => w <= longest && !b.VerifyBreaker?
    case ReadRateLimit(b, w, _) => w <= longest
    case ReserveRateLimit(b, w, _, _) => w <= longest && !b.VerifyBreaker?
    case HitCircuitBreaker(b, w, _, _) => w <= longest && b.VerifyBreaker?
    case ReadCircuitBreaker(b, w, _) => w <= longest && b.VerifyBreaker?
    case RefundRateLimit(b, _) => !b.VerifyBreaker?
    case _ => true
  }

  /** What random ids and live codes make true of the statements that name a row by key alone. */
  predicate Named(a: Tables, b: Tables, st: Statement) {
    match st
    case ConsumeEmailCode(email, hash) => email in a.codes && a.codes[email].codeHash == hash ==> email in b.codes
    case CreateDevice(d, _) => d in a.devices ==> d in b.devices
    case ReplaceCredential(pin, _, _) => pin.credentialId in a.credentials ==> pin.credentialId in b.credentials
    case _ => true
  }

  predicate InTime(st: Statement, swept: Time) { ReadingOf(st).Some? ==> swept <= ReadingOf(st).value }

  ghost predicate Fits(a: Tables, b: Tables, st: Statement, longest: int, swept: Time) {
    Windowed(st, longest) && InTime(st, swept) && Named(a, b, st) && !st.Cleanup?
  }

  // ----- answers -----

  /** A lookup may miss a device that is dead anyway; the number of devices a batch revoked may differ. */
  predicate SameAnswer(st: Statement, x: Result, y: Result, swept: Time) {
    match st
    case FindDevice(_) =>
      x.Found? && y.Found? && (x == y || (y.device.None? && x.device.Some? && !DeviceLive(x.device.value, swept)))
    case ReplaceCredential(_, _, _) => (x.Failed? && y.Failed?) || (x.Replaced? && y.Replaced? && x.replacement.replaced == y.replacement.replaced)
    case RevokeDevice(_, _, _) => x.Flag? && y.Flag? && (y.yes ==> x.yes)
    case RevokeAllDevices(_, _, _) => x.Number? && y.Number? && y.n <= x.n
    case _ => x == y
  }

  lemma SameLivePins(a: map<CredentialId, CredentialRow>, b: map<CredentialId, CredentialRow>, account: AccountId)
    requires PinsAgree(a, b)
    ensures LivePins(a, account) == LivePins(b, account)
  {}

  lemma SameActivePin(a: map<CredentialId, CredentialRow>, b: map<CredentialId, CredentialRow>, account: AccountId)
    requires PinsAgree(a, b) && OneLivePin(a)
    ensures ActivePin(a, account) == ActivePin(b, account)
  {
    SameLivePins(a, b, account);
  }

  /** One bucket, read or counted on inside a window no longer than `longest`, looks alike. */
  lemma SameCounting(a: map<Bucket, LimitRow>, b: map<Bucket, LimitRow>, k: Bucket, w: int, now: Time, longest: int,
      swept: Time)
    requires LimitsAgree(a, b, longest, swept) && w <= longest && swept <= now
    ensures !k.VerifyBreaker? ==> SameRow(k, CountedRow(a, k, w, now), CountedRow(b, k, w, now))
    ensures forall max :: HasRoom(a, k, w, now, max) == HasRoom(b, k, w, now, max)
    ensures var x, y := LiveCounts(a, k, w, now), LiveCounts(b, k, w, now);
      x.attempts == y.attempts && x.windowStart == y.windowStart && (k.VerifyBreaker? ==> x == y)
    ensures k.VerifyBreaker? ==> forall failed :: BreakerRow(a, k, w, now, failed) == BreakerRow(b, k, w, now, failed)
  {}

  lemma SameAnswers(a: Tables, b: Tables, st: Statement, longest: int, swept: Time)
    requires Agree(a, b, longest, swept) && Fits(a, b, st, longest, swept)
    ensures SameAnswer(st, Exec(a, st).1, Exec(b, st).1, swept)
  {
    match st
    case HitRateLimit(k, w, now) => SameCounting(a.limits, b.limits, k, w, now, longest, swept);
    case ReadRateLimit(k, w, now) => SameCounting(a.limits, b.limits, k, w, now, longest, swept);
    case ReserveRateLimit(k, w, now, _) => SameCounting(a.limits, b.limits, k, w, now, longest, swept);
    case HitCircuitBreaker(k, w, now, _) => SameCounting(a.limits, b.limits, k, w, now, longest, swept);
    case ReadCircuitBreaker(k, w, now) => SameCounting(a.limits, b.limits, k, w, now, longest, swept);
    case _ => SameOtherAnswers(a, b, st, longest, swept);
  }

  lemma SameCodeAnswers(a: Tables, b: Tables, st: Statement, longest: int, swept: Time)
    requires CodesAgree(a.codes, b.codes, swept) && Fits(a, b, st, longest, swept)
    requires st.PutEmailCode? || st.ReserveEmailCodeAttempt? || st.ConsumeEmailCode?
    ensures SameAnswer(st, Exec(a, st).1, Exec(b, st).1, swept)
  {}

  lemma SameDeviceAnswers(a: Tables, b: Tables, st: Statement, longest: int, swept: Time)
    requires DevicesAgree(a.devices, b.devices, swept) && Fits(a, b, st, longest, swept)
    requires st.CreateDevice? || st.FindDevice? || st.TouchDevice? || st.RevokeDevice? || st.RevokeAllDevices?
    ensures SameAnswer(st, Exec(a, st).1, Exec(b, st).1, swept)
  {
    match st
    case RevokeAllDevices(account, _, except) =>
      Subset(Revocable(b.devices, account, except), Revocable(a.devices, account, except));
    case _ =>
  }

  lemma SamePinAnswers(a: Tables, b: Tables, st: Statement, longest: int, swept: Time)
    requires PinsAgree(a.credentials, b.credentials) && OneLivePin(a.credentials) && Fits(a, b, st, longest, swept)
    requires st.GetActivePin? || st.ReplaceCredential? || st.MarkCredentialUsed?
    ensures SameAnswer(st, Exec(a, st).1, Exec(b, st).1, swept)
  {
    match st
    case GetActivePin(account) => SameActivePin(a.credentials, b.credentials, account);
    case ReplaceCredential(pin, _, _) => SameLivePins(a.credentials, b.credentials, pin.accountId);
    case _ =>
  }

  lemma SameOtherAnswers(a: Tables, b: Tables, st: Statement, longest: int, swept: Time)
    requires Agree(a, b, longest, swept) && Fits(a, b, st, longest, swept)
    requires !st.HitRateLimit? && !st.ReadRateLimit? && !st.ReserveRateLimit? && !st.HitCircuitBreaker?
    requires !st.ReadCircuitBreaker?
    ensures SameAnswer(st, Exec(a, st).1, Exec(b, st).1, swept)
  {
    if st.PutEmailCode? || st.ReserveEmailCodeAttempt? || st.ConsumeEmailCode? {
      SameCodeAnswers(a, b, st, longest, swept);
    } else if st.GetActivePin? || st.ReplaceCredential? || st.MarkCredentialUsed? {
      SamePinAnswers(a, b, st, longest, swept);
    } else if !st.RefundRateLimit? && !WritesGuards(st) {
      SameDeviceAnswers(a, b, st, longest, swept);
    }
  }

  // ----- rows -----

  lemma LimitWritten(a: map<Bucket, LimitRow>, b: map<Bucket, LimitRow>, longest: int, swept: Time, k: Bucket,
      x: LimitRow, y: LimitRow)
    requires LimitsAgree(a, b, longest, swept) && SameRow(k, x, y)
    ensures LimitsAgree(a[k := x], b[k := y], longest, swept)
  {}

  lemma LimitRefunded(a: map<Bucket, LimitRow>, b: map<Bucket, LimitRow>, longest: int, swept: Time, k: Bucket, w: Time)
    requires LimitsAgree(a, b, longest, swept)
    ensures LimitsAgree(Refunded(a, k, w), Refunded(b, k, w), longest, swept)
  {}

  lemma LimitHit(a: Tables, b: Tables, longest: int, swept: Time, k: Bucket, w: int, now: Time)
    requires LimitsAgree(a.limits, b.limits, longest, swept) && w <= longest && swept <= now && !k.VerifyBreaker?
    ensures var st := HitRateLimit(k, w, now); LimitsAgree(Exec(a, st).0.limits, Exec(b, st).0.limits, longest, swept)
    ensures forall max: nat :: var st := ReserveRateLimit(k, w, now, max);
      LimitsAgree(Exec(a, st).0.limits, Exec(b, st).0.limits, longest, swept)
  {
    SameCounting(a.limits, b.limits, k, w, now, longest, swept);
    LimitWritten(a.limits, b.limits, longest, swept, k, CountedRow(a.limits, k, w, now), CountedRow(b.limits, k, w, now));
    hide LimitsAgree, CountedRow, HasRoom, LiveCounts;
  }

  lemma BreakerHit(a: Tables, b: Tables, longest: int, swept: Time, k: Bucket, w: int, now: Time, failed: bool)
    requires LimitsAgree(a.limits, b.limits, longest, swept) && w <= longest && swept <= now && k.VerifyBreaker?
    ensures var st := HitCircuitBreaker(k, w, now, failed); LimitsAgree(Exec(a, st).0.limits, Exec(b, st).0.limits, longest, swept)
  {
    SameCounting(a.limits, b.limits, k, w, now, longest, swept);
    LimitWritten(a.limits, b.limits, longest, swept, k, BreakerRow(a.limits, k, w, now, failed), BreakerRow(b.limits, k, w, now, failed));
  }

  lemma LimitRefundedIn(a: Tables, b: Tables, longest: int, swept: Time, k: Bucket, w: Time)
    requires LimitsAgree(a.limits, b.limits, longest, swept)
    ensures var st := RefundRateLimit(k, w); LimitsAgree(Exec(a, st).0.limits, Exec(b, st).0.limits, longest, swept)
  {
    LimitRefunded(a.limits, b.limits, longest, swept, k, w);
  }

  lemma LimitsStep(a: Tables, b: Tables, st: Statement, longest: int, swept: Time)
    requires LimitsAgree(a.limits, b.limits, longest, swept) && Fits(a, b, st, longest, swept)
    ensures LimitsAgree(Exec(a, st).0.limits, Exec(b, st).0.limits, longest, swept)
  {
    hide Exec, LimitsAgree, Named;
    match st
    case HitRateLimit(k, w, now) => LimitHit(a, b, longest, swept, k, w, now);
    case ReserveRateLimit(k, w, now, _) => LimitHit(a, b, longest, swept, k, w, now);
    case HitCircuitBreaker(k, w, now, failed) => BreakerHit(a, b, longest, swept, k, w, now, failed);
    case RefundRateLimit(k, w) => LimitRefundedIn(a, b, longest, swept, k, w);
    case _ =>
      Frame(a, st);
      Frame(b, st);
  }

  lemma CodePut(a: Tables, b: Tables, swept: Time, ttl: int, clock: Time, issue: CodeIssue)
    requires CodesAgree(a.codes, b.codes, swept) && CodesTimed(a.codes, ttl, clock) && swept <= issue.createdAt
    ensures var st := PutEmailCode(issue); CodesAgree(Exec(a, st).0.codes, Exec(b, st).0.codes, swept)
  {
    assert IssuedRow(a.codes, issue) == IssuedRow(b.codes, issue);
  }

  lemma CodeTried(a: Tables, b: Tables, swept: Time, email: Email, now: Time, max: nat)
    requires CodesAgree(a.codes, b.codes, swept) && swept <= now
    ensures var st := ReserveEmailCodeAttempt(email, now, max); CodesAgree(Exec(a, st).0.codes, Exec(b, st).0.codes, swept)
  {}

  lemma CodeConsumed(a: Tables, b: Tables, swept: Time, email: Email, hash: CodeHash)
    requires CodesAgree(a.codes, b.codes, swept) && Named(a, b, ConsumeEmailCode(email, hash))
    ensures var st := ConsumeEmailCode(email, hash); CodesAgree(Exec(a, st).0.codes, Exec(b, st).0.codes, swept)
  {}

  lemma CodesStep(a: Tables, b: Tables, st: Statement, longest: int, swept: Time, ttl: int, clock: Time)
    requires CodesAgree(a.codes, b.codes, swept) && Fits(a, b, st, longest, swept) && CodesTimed(a.codes, ttl, clock)
    ensures CodesAgree(Exec(a, st).0.codes, Exec(b, st).0.codes, swept)
  {
    hide Exec, CodesAgree, CodesTimed, Windowed;
    match st
    case PutEmailCode(issue) => CodePut(a, b, swept, ttl, clock, issue);
    case ReserveEmailCodeAttempt(email, now, max) => CodeTried(a, b, swept, email, now, max);
    case ConsumeEmailCode(email, hash) => CodeConsumed(a, b, swept, email, hash);
    case _ =>
      Frame(a, st);
      Frame(b, st);
  }

  lemma DevicesRevoked(a: map<DeviceId, DeviceRow>, b: map<DeviceId, DeviceRow>, swept: Time, account: AccountId,
                       except: Option<DeviceId>, now: Time)
    requires DevicesAgree(a, b, swept)
    ensures DevicesAgree(RevokeDevices(a, Revocable(a, account, except), now), RevokeDevices(b, Revocable(b, account, except), now), swept)
  {}

  lemma OneDeviceRevoked(a: map<DeviceId, DeviceRow>, b: map<DeviceId, DeviceRow>, swept: Time, d: DeviceId, now: Time)
    requires DevicesAgree(a, b, swept)
    ensures DevicesAgree(RevokeDevices(a, {d}, now), RevokeDevices(b, {d}, now), swept)
    ensures d in a && d !in b ==> DevicesAgree(RevokeDevices(a, {d}, now), b, swept)
  {}

  lemma DeviceRevoked(a: Tables, b: Tables, swept: Time, account: AccountId, d: DeviceId, now: Time)
    requires DevicesAgree(a.devices, b.devices, swept)
    ensures var st := RevokeDevice(account, d, now); DevicesAgree(Exec(a, st).0.devices, Exec(b, st).0.devices, swept)
  {
    OneDeviceRevoked(a.devices, b.devices, swept, d, now);
  }

  lemma DeviceWritten(a: map<DeviceId, DeviceRow>, b: map<DeviceId, DeviceRow>, swept: Time, d: DeviceId,
      row: DeviceRow)
    requires DevicesAgree(a, b, swept) && d in b
    ensures DevicesAgree(a[d := row], b[d := row], swept)
  {}

  lemma DeviceTouched(a: Tables, b: Tables, swept: Time, d: DeviceId, now: Time, idle: Time)
    requires DevicesAgree(a.devices, b.devices, swept) && swept <= now
    ensures var st := TouchDevice(d, now, idle); DevicesAgree(Exec(a, st).0.devices, Exec(b, st).0.devices, swept)
  {
    assert d in b.devices ==> a.devices[d] == b.devices[d];
    assert d in a.devices && d !in b.devices ==> !DeviceLive(a.devices[d], now);
    hide DevicesAgree, DeviceLive, TouchedRow;
    if d in b.devices { DeviceWritten(a.devices, b.devices, swept, d, TouchedRow(b.devices[d], now, idle)); }
  }

  lemma DeviceCreated(a: Tables, b: Tables, swept: Time, d: DeviceId, row: DeviceRow)
    requires DevicesAgree(a.devices, b.devices, swept) && Named(a, b, CreateDevice(d, row))
    ensures var st := CreateDevice(d, row); DevicesAgree(Exec(a, st).0.devices, Exec(b, st).0.devices, swept)
  {}

  lemma AllDevicesRevoked(a: Tables, b: Tables, swept: Time, account: AccountId, now: Time, except: Option<DeviceId>)
    requires DevicesAgree(a.devices, b.devices, swept)
    ensures var st := RevokeAllDevices(account, now, except); DevicesAgree(Exec(a, st).0.devices, Exec(b, st).0.devices, swept)
  {
    hide DevicesAgree;
    DevicesRevoked(a.devices, b.devices, swept, account, except, now);
  }

  lemma DevicesReplaced(a: Tables, b: Tables, swept: Time, pin: NewPin, resetGuard: bool,
      others: Option<Option<DeviceId>>)
    requires DevicesAgree(a.devices, b.devices, swept) && PinsAgree(a.credentials, b.credentials)
    requires pin.credentialId in a.credentials <==> pin.credentialId in b.credentials
    ensures var st := ReplaceCredential(pin, resetGuard, others);
      DevicesAgree(Exec(a, st).0.devices, Exec(b, st).0.devices, swept)
  {
    hide DevicesAgree, PinsAgree, RevokePins, RevokeDevices, Revocable, ClearedGuards, LivePins, ReplacePinResult;
    SameLivePins(a.credentials, b.credentials, pin.accountId);
    if others.Some? { DevicesRevoked(a.devices, b.devices, swept, pin.accountId, others.value, pin.updatedAt); }
  }

  lemma DevicesStep(a: Tables, b: Tables, st: Statement, longest: int, swept: Time)
    requires DevicesAgree(a.devices, b.devices, swept) && PinsAgree(a.credentials, b.credentials)
    requires Fits(a, b, st, longest, swept)
    ensures DevicesAgree(Exec(a, st).0.devices, Exec(b, st).0.devices, swept)
  {
    assert st.ReplaceCredential? ==> (st.pin.credentialId in a.credentials <==> st.pin.credentialId in b.credentials);
    hide Exec, DevicesAgree, Windowed;
    if !WritesDevices(st) {
      Frame(a, st);
      Frame(b, st);
    } else if st.ReplaceCredential? {
      DevicesReplaced(a, b, swept, st.pin, st.resetGuard, st.revokeOthers);
    } else if st.RevokeAllDevices? {
      AllDevicesRevoked(a, b, swept, st.account, st.now, st.except);
    } else if st.RevokeDevice? {
      DeviceRevoked(a, b, swept, st.account, st.deviceId, st.now);
    } else if st.TouchDevice? {
      DeviceTouched(a, b, swept, st.deviceId, st.now, st.idleExpiresAt);
    } else {
      DeviceCreated(a, b, swept, st.deviceId, st.row);
    }
  }

  lemma PinsReplaced(a: Tables, b: Tables, pin: NewPin, resetGuard: bool, others: Option<Option<DeviceId>>)
    requires PinsAgree(a.credentials, b.credentials)
    requires pin.credentialId in a.credentials <==> pin.credentialId in b.credentials
    ensures var st := ReplaceCredential(pin, resetGuard, others);
      PinsAgree(Exec(a, st).0.credentials, Exec(b, st).0.credentials)
  {
    hide RevokeDevices, Revocable, ClearedGuards, ReplacePinResult, PinsAgree, RevokePins, NewPinRow;
    PinsRevoked(a.credentials, b.credentials, pin);
  }

  lemma PinsRevoked(a: map<CredentialId, CredentialRow>, b: map<CredentialId, CredentialRow>, pin: NewPin)
    requires PinsAgree(a, b)
    ensures PinsAgree(RevokePins(a, pin.accountId, pin.updatedAt)[pin.credentialId := NewPinRow(pin)],
                      RevokePins(b, pin.accountId, pin.updatedAt)[pin.credentialId := NewPinRow(pin)])
  {}

  lemma PinUsed(a: Tables, b: Tables, c: CredentialId, now: Time, material: Option<Material>)
    requires PinsAgree(a.credentials, b.credentials)
    ensures var st := MarkCredentialUsed(c, now, material); PinsAgree(Exec(a, st).0.credentials, Exec(b, st).0.credentials)
  {
    hide RevokePins, ReplacePin;
  }

  lemma PinsStep(a: Tables, b: Tables, st: Statement, longest: int, swept: Time)
    requires PinsAgree(a.credentials, b.credentials) && Fits(a, b, st, longest, swept)
    ensures PinsAgree(Exec(a, st).0.credentials, Exec(b, st).0.credentials)
  {
    assert st.ReplaceCredential? ==> (st.pin.credentialId in a.credentials <==> st.pin.credentialId in b.credentials);
    hide Exec, Windowed, Named, PinsAgree;
    if !WritesPins(st) {
      Frame(a, st);
      Frame(b, st);
    } else if st.ReplaceCredential? {
      PinsReplaced(a, b, st.pin, st.resetGuard, st.revokeOthers);
    } else {
      PinUsed(a, b, st.credentialId, st.now, st.material);
    }
  }

  lemma GuardsStep(a: Tables, b: Tables, st: Statement, longest: int, swept: Time)
    requires PinsAgree(a.credentials, b.credentials) && a.guards == b.guards && Fits(a, b, st, longest, swept)
    ensures Exec(a, st).0.guards == Exec(b, st).0.guards
  {
    if !WritesGuards(st) {
      Frame(a, st);
      Frame(b, st);
    } else if st.ReplaceCredential? {
      assert st.pin.credentialId in a.credentials <==> st.pin.credentialId in b.credentials;
    }
  }

  lemma TimedStep(t: Tables, st: Statement, ttl: int, clock: Time, now: Time)
    requires CodesTimed(t.codes, ttl, clock) && clock <= now && ttl > 0 && !st.Cleanup?
    requires st.PutEmailCode? ==>
      && st.issue.createdAt == now && st.issue.expiresAt == now + ttl && st.issue.attemptsResetAt == now + ttl
    ensures CodesTimed(Exec(t, st).0.codes, ttl, now)
  {}

  /** One statement against both stores. */
  lemma AgreeStep(a: Tables, b: Tables, st: Statement, longest: int, swept: Time, ttl: int, clock: Time)
    requires Agree(a, b, longest, swept) && Fits(a, b, st, longest, swept) && CodesTimed(a.codes, ttl, clock)
    ensures Agree(Exec(a, st).0, Exec(b, st).0, longest, swept)
  {
    LimitsStep(a, b, st, longest, swept);
    CodesStep(a, b, st, longest, swept, ttl, clock);
    DevicesStep(a, b, st, longest, swept);
    PinsStep(a, b, st, longest, swept);
    GuardsStep(a, b, st, longest, swept);
    OneLiveStep(a, st);
  }

  /** Sweeping one of them, with a horizon that covers every window. */
  lemma AgreeSwept(a: Tables, b: Tables, longest: int, swept: Time, now: Time, horizon: int)
    requires Agree(a, b, longest, swept) && horizon >= longest
    ensures Agree(a, Swept(b, now, horizon), longest, Max(swept, now))
  {}

  /** Replies cleanup does change: a revoked device that had expired, and a code consumed after it expired. */
  lemma RepliesCleanupChanges(a: Tables, b: Tables, longest: int, swept: Time,
                              account: AccountId, d: DeviceId, now: Time, email: Email, hash: CodeHash)
    requires Agree(a, b, longest, swept)
    ensures Exec(a, RevokeDevice(account, d, now)).1 != Exec(b, RevokeDevice(account, d, now)).1
            <==> d in Revocable(a.devices, account, None) && d !in b.devices
    ensures Exec(a, ConsumeEmailCode(email, hash)).1 != Exec(b, ConsumeEmailCode(email, hash)).1
            <==> email in a.codes && a.codes[email].codeHash == hash && email !in b.codes
  {}

  /** A device a revocation would still find, had cleanup not taken it. */
  predicate Forgotten(a: Tables, b: Tables, account: AccountId, except: Option<DeviceId>, d: DeviceId) {
    d in Revocable(a.devices, account, except) && d !in b.devices
  }

  lemma FewerRevocable(a: Tables, b: Tables, longest: int, swept: Time, account: AccountId, except: Option<DeviceId>)
    requires Agree(a, b, longest, swept)
    ensures var inA, inB := Revocable(a.devices, account, except), Revocable(b.devices, account, except);
      inB <= inA && (|inA| != |inB| <==> exists d :: Forgotten(a, b, account, except, d))
  {
    var inA, inB := Revocable(a.devices, account, except), Revocable(b.devices, account, except);
    assert inA == inB + (inA - inB) && |inA| == |inB| + |inA - inB|;
    if d :| d in inA - inB {
      assert Forgotten(a, b, account, except, d);
    } else {
      assert inA - inB == {};
    }
  }

  /** And the counts: of all devices revoked at once, and of those revoked along with a PIN replaced. */
  lemma CountsCleanupChanges(a: Tables, b: Tables, longest: int, swept: Time, account: AccountId, now: Time,
                             except: Option<DeviceId>, pin: NewPin, resetGuard: bool, revokeOthers: Option<Option<DeviceId>>)
    requires Agree(a, b, longest, swept)
    ensures Exec(a, RevokeAllDevices(account, now, except)).1 != Exec(b, RevokeAllDevices(account, now, except)).1
            <==> exists d :: Forgotten(a, b, account, except, d)
    ensures Exec(a, ReplaceCredential(pin, resetGuard, revokeOthers)).1
            != Exec(b, ReplaceCredential(pin, resetGuard, revokeOthers)).1
            <==>
            || (pin.credentialId in a.credentials && pin.credentialId !in b.credentials)
            || (pin.credentialId !in a.credentials && LivePins(a.credentials, pin.accountId) != {} && revokeOthers.Some?
                && exists d :: Forgotten(a, b, pin.accountId, revokeOthers.value, d))
  {
    hide Forgotten, Revocable;
    FewerRevocable(a, b, longest, swept, account, except);
    if revokeOthers.Some? { FewerRevocable(a, b, longest, swept, pin.accountId, revokeOthers.value); }
    assert LivePins(b.credentials, pin.accountId) == LivePins(a.credentials, pin.accountId);
  }
}

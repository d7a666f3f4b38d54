/**
 * The five tables of migrations/0006_device_auth.sql and what each store
 * statement does to them (src/device-auth/store.ts). Every statement is one
 * atomic step from a table state to a table state and a result.
 */
module Tables {
  import opened Basics
  import opened PinCredential

  type Time = int
  type Email = string
  type AccountId = string
  type DeviceId = string
  type CredentialId = string

  datatype IpAction = OtpStart | OtpVerify | PinLoginIp

  /** The rows of `auth_rate_limits` the routes use; an address stands for its sha-256. */
  datatype Bucket =
    | FailuresOfEmail(email: Email)
    | FailuresOfDevice(device: DeviceId)
    | CooldownOfEmail(email: Email)
    | CooldownOfDevice(device: DeviceId)
    | SendsToEmail(email: Email)
    | SendsToDevice(device: DeviceId)
    | PerIp(action: IpAction, ipKey: string)
    | VerifyBreaker

  datatype LimitRow = LimitRow(windowStart: Time, count: nat, failures: nat)

  /** HMAC-SHA256(otpKey, email || '\n' || code), as a free constructor. */
  datatype CodeHash = CodeHash(otpKey: Secret, email: Email, code: string)

  datatype CodeRow = CodeRow(
    codeHash: CodeHash, keyId: KeyId, attempts: nat, attemptsResetAt: Time, expiresAt: Time, createdAt: Time)

  datatype DeviceRow = DeviceRow(
    accountId: AccountId, email: Email, secretHash: string, createdAt: Time, lastUsedAt: Time,
    idleExpiresAt: Time, absoluteExpiresAt: Time, revokedAt: Option<Time>)

  datatype CredentialRow = CredentialRow(
    accountId: AccountId, pin: bool, material: Material, createdAt: Time, updatedAt: Time,
    lastUsedAt: Option<Time>, revokedAt: Option<Time>)

  datatype GuardRow = GuardRow(failedCount: nat, lockedAt: Option<Time>, updatedAt: Time)

  datatype Tables = Tables(
    limits: map<Bucket, LimitRow>,
    codes: map<Email, CodeRow>,
    devices: map<DeviceId, DeviceRow>,
    credentials: map<CredentialId, CredentialRow>,
    guards: map<AccountId, GuardRow>)

  const EmptyTables := Tables(map[], map[], map[], map[], map[])

  // ----- results -----

  datatype Counted = Counted(count: nat, windowStart: Time)
  datatype BreakerCounts = BreakerCounts(attempts: nat, failures: nat, windowStart: Time)
  datatype ReservedCode = ReservedCode(codeHash: CodeHash, keyId: KeyId, attempts: nat)
  datatype ActiveCredential = ActiveCredential(credentialId: CredentialId, row: CredentialRow)
  datatype Replacement = Replacement(replaced: bool, devicesRevoked: nat)

  // ----- rate limits -----

  /** The window restarts once `windowMs` has passed since it opened. */
  predicate Lapsed(row: LimitRow, windowMs: int, now: Time) { row.windowStart <= now - windowMs }

  function CountedRow(limits: map<Bucket, LimitRow>, b: Bucket, windowMs: int, now: Time): LimitRow {
    if b !in limits then LimitRow(now, 1, 0)
    else if Lapsed(limits[b], windowMs, now) then limits[b].(windowStart := now, count := 1)
    else limits[b].(count := limits[b].count + 1)
  }

  predicate HasRoom(limits: map<Bucket, LimitRow>, b: Bucket, windowMs: int, now: Time, max: nat) {
    b in limits ==> Lapsed(limits[b], windowMs, now) || limits[b].count < max
  }

  function Refunded(limits: map<Bucket, LimitRow>, b: Bucket, windowStart: Time): map<Bucket, LimitRow> {
    if b in limits && limits[b].windowStart == windowStart && limits[b].count > 0
    then limits[b := limits[b].(count := limits[b].count - 1)]
    else limits
  }

  function BreakerRow(limits: map<Bucket, LimitRow>, b: Bucket, windowMs: int, now: Time, failed: bool): LimitRow {
    var failure := if failed then 1 else 0;
    if b !in limits || Lapsed(limits[b], windowMs, now) then LimitRow(now, 1, failure)
    else LimitRow(limits[b].windowStart, limits[b].count + 1, limits[b].failures + failure)
  }

  function LiveCounts(limits: map<Bucket, LimitRow>, b: Bucket, windowMs: int, now: Time): BreakerCounts {
    if b in limits && !Lapsed(limits[b], windowMs, now)
    then BreakerCounts(limits[b].count, limits[b].failures, limits[b].windowStart)
    else BreakerCounts(0, 0, now)
  }

  // ----- email codes -----

  datatype CodeIssue = CodeIssue(
    email: Email, codeHash: CodeHash, keyId: KeyId, expiresAt: Time, createdAt: Time, attemptsResetAt: Time)

  /** A resend before the stored deadline keeps the attempts used and the deadline. */
  predicate KeepsAttempts(codes: map<Email, CodeRow>, email: Email, createdAt: Time) {
    email in codes && codes[email].attemptsResetAt > createdAt
  }

  function IssuedRow(codes: map<Email, CodeRow>, r: CodeIssue): CodeRow {
    if KeepsAttempts(codes, r.email, r.createdAt)
    then CodeRow(r.codeHash, r.keyId, codes[r.email].attempts, codes[r.email].attemptsResetAt, r.expiresAt, r.createdAt)
    else CodeRow(r.codeHash, r.keyId, 0, r.attemptsResetAt, r.expiresAt, r.createdAt)
  }

  predicate CanTry(codes: map<Email, CodeRow>, email: Email, now: Time, maxAttempts: nat) {
    email in codes && codes[email].attempts < maxAttempts && codes[email].expiresAt > now
  }

  // ----- devices -----

  /** Unrevoked and inside both windows at `now`. */
  predicate DeviceLive(row: DeviceRow, now: Time) {
    row.revokedAt.None? && now < row.idleExpiresAt && now < row.absoluteExpiresAt
  }

  function TouchedRow(row: DeviceRow, now: Time, idleExpiresAt: Time): DeviceRow {
    row.(lastUsedAt := now, idleExpiresAt := Min(idleExpiresAt, row.absoluteExpiresAt))
  }

  /** The account's unrevoked devices, all but `except`. */
  function Revocable(devices: map<DeviceId, DeviceRow>, account: AccountId, except: Option<DeviceId>): set<DeviceId> {
    set d | d in devices && devices[d].accountId == account && devices[d].revokedAt.None? && except != Some(d)
  }

  function RevokeDevices(devices: map<DeviceId, DeviceRow>, which: set<DeviceId>, now: Time): map<DeviceId, DeviceRow> {
    map d | d in devices :: if d in which then devices[d].(revokedAt := Some(now)) else devices[d]
  }

  // ----- credentials -----

  predicate LivePin(row: CredentialRow, account: AccountId) {
    row.accountId == account && row.pin && row.revokedAt.None?
  }

  function LivePins(credentials: map<CredentialId, CredentialRow>, account: AccountId): set<CredentialId> {
    set c | c in credentials && LivePin(credentials[c], account)
  }

  /** The partial unique index of the schema: at most one live PIN per account. */
  ghost predicate OneLivePin(credentials: map<CredentialId, CredentialRow>) {
    forall c, d, a :: c in LivePins(credentials, a) && d in LivePins(credentials, a) ==> c == d
  }

  /** `ORDER BY created_at DESC LIMIT 1` picks the only row the unique index allows. */
  ghost function ActivePin(credentials: map<CredentialId, CredentialRow>,
      account: AccountId): Option<ActiveCredential> {
    if LivePins(credentials, account) == {} then None
    else var c :| c in LivePins(credentials, account); Some(ActiveCredential(c, credentials[c]))
  }

  function RevokePins(
    credentials: map<CredentialId, CredentialRow>, account: AccountId, now: Time): map<CredentialId, CredentialRow>
  {
    map c | c in credentials ::
      if LivePin(credentials[c], account) then credentials[c].(revokedAt := Some(now), updatedAt := now) else credentials[c]
  }

  datatype NewPin = NewPin(credentialId: CredentialId, accountId: AccountId, material: Material, updatedAt: Time)

  function NewPinRow(r: NewPin): CredentialRow {
    CredentialRow(r.accountId, true, r.material, r.updatedAt, r.updatedAt, None, None)
  }

  // ----- login guard -----

  predicate CanAttempt(guards: map<AccountId, GuardRow>, account: AccountId, maxAttempts: nat) {
    account in guards ==> guards[account].failedCount < maxAttempts && guards[account].lockedAt.None?
  }

  function AttemptedRow(guards: map<AccountId, GuardRow>, account: AccountId, now: Time): GuardRow {
    if account in guards then guards[account].(failedCount := guards[account].failedCount + 1, updatedAt := now)
    else GuardRow(1, None, now)
  }

  function LockedGuards(guards: map<AccountId, GuardRow>, account: AccountId, maxAttempts: nat, now: Time)
    : map<AccountId, GuardRow>
  {
    if account in guards && guards[account].failedCount >= maxAttempts then
      var row := guards[account];
      guards[account := row.(lockedAt := if row.lockedAt.Some? then row.lockedAt else Some(now), updatedAt := now)]
    else guards
  }

  function ClearedGuards(guards: map<AccountId, GuardRow>, account: AccountId, now: Time): map<AccountId, GuardRow> {
    if account in guards then guards[account := GuardRow(0, None, now)] else guards
  }

  // ----- the PIN replacement batch -----

  /** `revokeOthers`: None = not asked, Some(except) = all devices but `except`. */
  function ReplacePin(t: Tables, r: NewPin, resetGuard: bool, revokeOthers: Option<Option<DeviceId>>): Tables {
    var had := LivePins(t.credentials, r.accountId) != {};
    t.(devices := if revokeOthers.Some? && had
                  then RevokeDevices(t.devices, Revocable(t.devices, r.accountId, revokeOthers.value), r.updatedAt)
                  else t.devices,
       credentials := RevokePins(t.credentials, r.accountId, r.updatedAt)[r.credentialId := NewPinRow(r)],
       guards := if resetGuard then ClearedGuards(t.guards, r.accountId, r.updatedAt) else t.guards)
  }

  function ReplacePinResult(t: Tables, r: NewPin, revokeOthers: Option<Option<DeviceId>>): Replacement {
    var had := LivePins(t.credentials, r.accountId) != {};
    Replacement(had, if revokeOthers.Some? && had then |Revocable(t.devices, r.accountId, revokeOthers.value)| else 0)
  }

  function UsedRow(row: CredentialRow, now: Time, material: Option<Material>): CredentialRow {
    if material.Some? then row.(lastUsedAt := Some(now), updatedAt := now, material := material.value)
    else row.(lastUsedAt := Some(now))
  }

  // ----- cleanup -----

  function Swept(t: Tables, now: Time, horizon: int): Tables {
    Tables(
      map b | b in t.limits && t.limits[b].windowStart > now - horizon :: t.limits[b],
      map e | e in t.codes && t.codes[e].expiresAt > now :: t.codes[e],
      map d | d in t.devices && DeviceLive(t.devices[d], now) :: t.devices[d],
      map c | c in t.credentials && t.credentials[c].revokedAt.None? :: t.credentials[c],
      t.guards)
  }

  // ----- statements -----

  datatype Statement =
    | HitRateLimit(bucket: Bucket, windowMs: int, now: Time)
    | ReadRateLimit(bucket: Bucket, windowMs: int, now: Time)
    | ReserveRateLimit(bucket: Bucket, windowMs: int, now: Time, max: nat)
    | RefundRateLimit(bucket: Bucket, windowStart: Time)
    | HitCircuitBreaker(bucket: Bucket, windowMs: int, now: Time, failed: bool)
    | ReadCircuitBreaker(bucket: Bucket, windowMs: int, now: Time)
    | PutEmailCode(issue: CodeIssue)
    | ReserveEmailCodeAttempt(email: Email, now: Time, max: nat)
    | ConsumeEmailCode(email: Email, codeHash: CodeHash)
    | CreateDevice(deviceId: DeviceId, row: DeviceRow)
    | FindDevice(deviceId: DeviceId)
    | TouchDevice(deviceId: DeviceId, now: Time, idleExpiresAt: Time)
    | RevokeDevice(account: AccountId, deviceId: DeviceId, now: Time)
    | RevokeAllDevices(account: AccountId, now: Time, except: Option<DeviceId>)
    | GetActivePin(account: AccountId)
    | ReplaceCredential(pin: NewPin, resetGuard: bool, revokeOthers: Option<Option<DeviceId>>)
    | MarkCredentialUsed(credentialId: CredentialId, now: Time, material: Option<Material>)
    | ReserveLoginAttempt(account: AccountId, max: nat, now: Time)
    | LockAccount(account: AccountId, max: nat, now: Time)
    | ResetLoginGuard(account: AccountId, now: Time)
    | Cleanup(now: Time, horizon: int)

  datatype Result =
    | Done
    | Failed   // a primary-key violation: the statement is rolled back and throws
    | Hits(hits: Counted)
    | Slot(slot: Option<Counted>)
    | Breaker(counts: BreakerCounts)
    | Attempt(reserved: Option<ReservedCode>)
    | Flag(yes: bool)
    | Found(device: Option<DeviceRow>)
    | Touched(idleExpiresAt: Option<Time>)
    | Number(n: nat)
    | Active(active: Option<ActiveCredential>)
    | Replaced(replacement: Replacement)
    | LoginAttempt(failedCount: Option<nat>)
    | Guard(before: Option<GuardRow>)

  /** One statement, executed atomically. */
  ghost function Exec(t: Tables, s: Statement): (Tables, Result) {
    match s
    case HitRateLimit(b, w, now) =>
      var row := CountedRow(t.limits, b, w, now);
      (t.(limits := t.limits[b := row]), Hits(Counted(row.count, row.windowStart)))
    case ReadRateLimit(b, w, now) =>
      var live := LiveCounts(t.limits, b, w, now);
      (t, Hits(Counted(live.attempts, live.windowStart)))
    case ReserveRateLimit(b, w, now, max) =>
      if HasRoom(t.limits, b, w, now, max) then
        var row := CountedRow(t.limits, b, w, now);
        (t.(limits := t.limits[b := row]), Slot(Some(Counted(row.count, row.windowStart))))
      else (t, Slot(None))
    case RefundRateLimit(b, windowStart) => (t.(limits := Refunded(t.limits, b, windowStart)), Done)
    case HitCircuitBreaker(b, w, now, failed) =>
      var row := BreakerRow(t.limits, b, w, now, failed);
      (t.(limits := t.limits[b := row]), Breaker(BreakerCounts(row.count, row.failures, row.windowStart)))
    case ReadCircuitBreaker(b, w, now) => (t, Breaker(LiveCounts(t.limits, b, w, now)))
    case PutEmailCode(r) => (t.(codes := t.codes[r.email := IssuedRow(t.codes, r)]), Done)
    case ReserveEmailCodeAttempt(email, now, max) =>
      if CanTry(t.codes, email, now, max) then
        var row := t.codes[email].(attempts := t.codes[email].attempts + 1);
        (t.(codes := t.codes[email := row]), Attempt(Some(ReservedCode(row.codeHash, row.keyId, row.attempts))))
      else (t, Attempt(None))
    case ConsumeEmailCode(email, hash) =>
      if email in t.codes && t.codes[email].codeHash == hash then (t.(codes := t.codes - {email}), Flag(true))
      else (t, Flag(false))
    case CreateDevice(d, row) =>
      if d in t.devices then (t, Failed) else (t.(devices := t.devices[d := row]), Done)
    case FindDevice(d) => (t, Found(if d in t.devices then Some(t.devices[d]) else None))
    case TouchDevice(d, now, idle) =>
      if d in t.devices && DeviceLive(t.devices[d], now) then
        var row := TouchedRow(t.devices[d], now, idle);
        (t.(devices := t.devices[d := row]), Touched(Some(row.idleExpiresAt)))
      else (t, Touched(None))
    case RevokeDevice(a, d, now) =>
      if d in Revocable(t.devices, a, None) then (t.(devices := RevokeDevices(t.devices, {d}, now)), Flag(true))
      else (t, Flag(false))
    case RevokeAllDevices(a, now, except) =>
      var which := Revocable(t.devices, a, except);
      (t.(devices := RevokeDevices(t.devices, which, now)), Number(|which|))
    case GetActivePin(a) => (t, Active(ActivePin(t.credentials, a)))
    case ReplaceCredential(r, resetGuard, revokeOthers) =>
      if r.credentialId in t.credentials then (t, Failed)
      else (ReplacePin(t, r, resetGuard, revokeOthers), Replaced(ReplacePinResult(t, r, revokeOthers)))
    case MarkCredentialUsed(c, now, material) =>
      if c in t.credentials && t.credentials[c].revokedAt.None?
      then (t.(credentials := t.credentials[c := UsedRow(t.credentials[c], now, material)]), Done)
      else (t, Done)
    case ReserveLoginAttempt(a, max, now) =>
      if CanAttempt(t.guards, a, max) then
        var row := AttemptedRow(t.guards, a, now);
        (t.(guards := t.guards[a := row]), LoginAttempt(Some(row.failedCount)))
      else (t, LoginAttempt(None))
    case LockAccount(a, max, now) => (t.(guards := LockedGuards(t.guards, a, max, now)), Done)
    case ResetLoginGuard(a, now) =>
      (t.(guards := ClearedGuards(t.guards, a, now)), Guard(if a in t.guards then Some(t.guards[a]) else None))
    case Cleanup(now, horizon) => (Swept(t, now, horizon), Done)
  }

  predicate WritesLimits(st: Statement) {
    st.HitRateLimit? || st.ReserveRateLimit? || st.RefundRateLimit? || st.HitCircuitBreaker? || st.Cleanup?
  }

  predicate WritesCodes(st: Statement) {
    st.PutEmailCode? || st.ReserveEmailCodeAttempt? || st.ConsumeEmailCode? || st.Cleanup?
  }

  predicate WritesDevices(st: Statement) {
    st.CreateDevice? || st.TouchDevice? || st.RevokeDevice? || st.RevokeAllDevices? || st.ReplaceCredential? || st.Cleanup?
  }

  predicate WritesPins(st: Statement) {
    st.ReplaceCredential? || st.MarkCredentialUsed? || st.Cleanup?
  }

  predicate WritesGuards(st: Statement) {
    st.ReplaceCredential? || st.ReserveLoginAttempt? || st.LockAccount? || st.ResetLoginGuard?
  }

  /** Each statement writes the tables it names and no other. */
  lemma Frame(t: Tables, st: Statement)
    ensures var t' := Exec(t, st).0;
      && (!WritesLimits(st) ==> t'.limits == t.limits) && (!WritesCodes(st) ==> t'.codes == t.codes)
      && (!WritesDevices(st) ==> t'.devices == t.devices) && (!WritesPins(st) ==> t'.credentials == t.credentials)
      && (!WritesGuards(st) ==> t'.guards == t.guards)
  {}

  /** No statement gives an account a second live PIN. */
  lemma OneLiveStep(t: Tables, st: Statement)
    requires OneLivePin(t.credentials)
    ensures OneLivePin(Exec(t, st).0.credentials)
  {
    var t' := Exec(t, st).0;
    if st.ReplaceCredential? && st.pin.credentialId !in t.credentials {
      assert LivePins(t'.credentials, st.pin.accountId) == {st.pin.credentialId};
      forall x | x != st.pin.accountId ensures LivePins(t'.credentials, x) == LivePins(t.credentials, x) {}
    } else {
      forall x ensures LivePins(t'.credentials, x) == LivePins(t.credentials, x) {}
    }
  }
}

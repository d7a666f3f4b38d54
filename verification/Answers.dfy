/**
 * What the four routes answer and leave, in terms of the stored columns alone:
 * the words the statements of `LoginAnswers`, `PinAnswers`, `StartAnswers` and
 * `VerifyAnswers` are made of. None of them is used by the routes themselves.
 */
module Answers {
  import opened Basics
  import opened PinCredential
  import opened Tables
  import opened Routes

  // ----- counters -----

  /** The stored window still runs at `now`. */
  predicate Running(limits: map<Bucket, LimitRow>, b: Bucket, windowMs: int, now: Time) {
    b in limits && now < limits[b].windowStart + windowMs
  }

  /** How often the window running at `now` has counted. */
  function Used(limits: map<Bucket, LimitRow>, b: Bucket, windowMs: int, now: Time): nat {
    if Running(limits, b, windowMs, now) then limits[b].count else 0
  }

  /** Where the window that counts at `now` begins. */
  function Opened(limits: map<Bucket, LimitRow>, b: Bucket, windowMs: int, now: Time): Time {
    if Running(limits, b, windowMs, now) then limits[b].windowStart else now
  }

  /** The same counters, with this count in that window. */
  function Holding(limits: map<Bucket, LimitRow>, b: Bucket, windowMs: int, now: Time, count: nat)
    : map<Bucket, LimitRow>
  {
    limits[b := LimitRow(Opened(limits, b, windowMs, now), count, if b in limits then limits[b].failures else 0)]
  }

  /** One more. */
  function Counting(limits: map<Bucket, LimitRow>, b: Bucket, windowMs: int, now: Time): map<Bucket, LimitRow> {
    Holding(limits, b, windowMs, now, Used(limits, b, windowMs, now) + 1)
  }

  /** The least whole number of seconds, at least one, that covers `ms` milliseconds. */
  predicate Waits(seconds: int, ms: int) {
    seconds >= 1 && 1000 * seconds >= ms && (seconds > 1 ==> 1000 * (seconds - 1) < ms)
  }

  lemma RetryWaits(windowStart: Time, windowMs: int, now: Time)
    ensures Waits(RetryAfterSec(windowStart, windowMs, now), windowStart + windowMs - now)
  {}

  /** Until the end of the window that counts at `now`. */
  predicate UntilOver(seconds: int, limits: map<Bucket, LimitRow>, b: Bucket, windowMs: int, now: Time) {
    Waits(seconds, Opened(limits, b, windowMs, now) + windowMs - now)
  }

  /** The statements that count, in these words. */
  lemma Hit(t: Tables, b: Bucket, windowMs: int, now: Time)
    ensures Exec(t, HitRateLimit(b, windowMs, now))
      == (t.(limits := Counting(t.limits, b, windowMs, now)),
          Hits(Counted(Used(t.limits, b, windowMs, now) + 1, Opened(t.limits, b, windowMs, now))))
  {}

  lemma Read(t: Tables, b: Bucket, windowMs: int, now: Time)
    ensures Exec(t, ReadRateLimit(b, windowMs, now))
      == (t, Hits(Counted(Used(t.limits, b, windowMs, now), Opened(t.limits, b, windowMs, now))))
  {}

  // ----- who asks -----

  predicate NoIp(cfg: Config, input: Input) { cfg.requireClientIp && input.ip.None? }

  /** The hour of the request's IP is full. */
  predicate IpFull(limits: map<Bucket, LimitRow>, input: Input, action: IpAction, limit: nat, now: Time) {
    input.ip.Some? && Used(limits, PerIp(action, input.ip.value), HOUR_MS, now) >= limit
  }

  function IpCounted(limits: map<Bucket, LimitRow>, input: Input, action: IpAction, now: Time): map<Bucket, LimitRow> {
    if input.ip.Some? then Counting(limits, PerIp(action, input.ip.value), HOUR_MS, now) else limits
  }

  /** The token's secret is that of the row under its id, unrevoked and inside both expiries. */
  predicate HoldsDevice(devices: map<DeviceId, DeviceRow>, input: Input, now: Time) {
    && input.presented.Some? && input.presented.value.deviceId in devices
    && var row := devices[input.presented.value.deviceId];
       && row.secretHash == input.presented.value.secretHash && row.revokedAt.None?
       && now < row.idleExpiresAt && now < row.absoluteExpiresAt
  }

  function Holder(devices: map<DeviceId, DeviceRow>, input: Input): DeviceRow
    requires input.presented.Some? && input.presented.value.deviceId in devices
  {
    devices[input.presented.value.deviceId]
  }

  /** The row of the presented device, used now: its idle expiry moves, at most to its absolute one. */
  function Extended(cfg: Config, devices: map<DeviceId, DeviceRow>, input: Input, now: Time)
    : map<DeviceId, DeviceRow>
    requires input.presented.Some? && input.presented.value.deviceId in devices
  {
    var row := Holder(devices, input);
    var idle := now + cfg.deviceIdleMs;
    devices[input.presented.value.deviceId :=
      row.(lastUsedAt := now, idleExpiresAt := if idle < row.absoluteExpiresAt then idle else row.absoluteExpiresAt)]
  }

  lemma DeviceExtended(cfg: Config, t: Tables, input: Input, now: Time)
    requires HoldsDevice(t.devices, input, now)
    ensures var (t', a) := Exec(t, TouchDevice(input.presented.value.deviceId, now, now + cfg.deviceIdleMs));
      t' == t.(devices := Extended(cfg, t.devices, input, now)) && a.Touched? && a.idleExpiresAt.Some?
  {}

  // ----- who pays for a failure -----

  /** The presented device pays with its own limits if it is registered to the very address. */
  function Payer(devices: map<DeviceId, DeviceRow>, input: Input, now: Time): Option<DeviceId> {
    if HoldsDevice(devices, input, now) && Holder(devices, input).email == input.email
    then Some(input.presented.value.deviceId) else None
  }

  function FailuresOf(payer: Option<DeviceId>, email: Email): Bucket {
    if payer.Some? then FailuresOfDevice(payer.value) else FailuresOfEmail(email)
  }

  function FailuresAllowed(cfg: Config, payer: Option<DeviceId>): nat {
    if payer.Some? then cfg.maxFailuresPerDevice else cfg.maxFailuresPerEmail
  }

  predicate Spent(cfg: Config, limits: map<Bucket, LimitRow>, payer: Option<DeviceId>, email: Email, now: Time) {
    Used(limits, FailuresOf(payer, email), cfg.failureWindowMs, now) >= FailuresAllowed(cfg, payer)
  }

  // ----- the guard -----

  /** The guard of the account, cleared: no row is made for one that has none. */
  function Cleared(guards: map<AccountId, GuardRow>, account: AccountId, now: Time): map<AccountId, GuardRow> {
    if account in guards then guards[account := GuardRow(0, None, now)] else guards
  }

  // ----- PINs -----

  /** The material a PIN is stored as: under the current key, at the current cost. */
  function Stored(cfg: Config, input: Input): Material {
    PinMaterial(cfg.pinIterations, input.salt,
                Derived(input.pin, cfg.ring.current.secret, input.salt, cfg.pinIterations), cfg.ring.current.keyId)
  }

  /** The ring holds the material's key, and under it these digits give the stored hash. */
  predicate Opens(ring: KeyRing, material: Material, pin: string) {
    && material.PinMaterial? && material.pepperVer in ring.byId
    && material.hash == Derived(pin, ring.byId[material.pepperVer].secret, material.salt, material.iterations)
  }

  /** Made under another key than the current one, or at another cost. */
  predicate Stale(cfg: Config, material: Material) {
    material.PinMaterial? && (material.pepperVer != cfg.ring.current.keyId || material.iterations != cfg.pinIterations)
  }

  lemma VerifiesWhenOpen(cfg: Config, input: Input, material: Material)
    ensures Verify(cfg.ring, cfg.pinIterations, input.pin, material, input.salt)
      == Check(Opens(cfg.ring, material, input.pin),
               if Opens(cfg.ring, material, input.pin) && Stale(cfg, material) then Some(Stored(cfg, input)) else None)
  {}
}

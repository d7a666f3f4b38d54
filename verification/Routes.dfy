/**
 * The routes of src/device-auth/index.ts as programs over store statements.
 *
 * A request stops at every statement boundary: `Emit` says which statement it
 * sends next, `Resume` what it does with the answer. Bodies that were refused
 * before any statement (bad body, CSRF, bot check) never become requests; a
 * missing client IP and `requireClientIp` are decided in `Begin`.
 */
module Routes {
  import opened Basics
  import opened PinCredential
  import opened Tables

  const HOUR_MS := 3600 * 1000

  /** Opens while failures >= minFailures and failures >= ratio * max(attempts, 1). */
  datatype BreakerConfig = BreakerConfig(minFailures: nat, ratio: real, windowMs: int)

  datatype Config = Config(
    ring: KeyRing, pinIterations: int,
    pinMaxAttempts: nat, codeTtlMs: int, codeMaxAttempts: nat,
    maxFailuresPerEmail: nat, maxFailuresPerDevice: nat, failureWindowMs: int,
    freshMs: int, cooldownMs: int, sendsPerHour: nat,
    startsPerIp: nat, verifiesPerIp: nat, pinLoginsPerIp: nat,
    breaker: Option<BreakerConfig>, deviceIdleMs: int, deviceAbsoluteMs: int,
    revokeOthersOnChange: bool, requireClientIp: bool)

  /** What the `positive(...)` checks of the constructor leave possible. */
  predicate ValidConfig(cfg: Config) {
    && cfg.pinMaxAttempts >= 1 && cfg.codeTtlMs > 0 && cfg.codeMaxAttempts >= 1
    && cfg.maxFailuresPerEmail >= 1 && cfg.maxFailuresPerDevice >= 1 && cfg.failureWindowMs > 0
    && cfg.freshMs > 0 && cfg.cooldownMs > 0 && cfg.sendsPerHour >= 1
    && cfg.startsPerIp >= 1 && cfg.verifiesPerIp >= 1 && cfg.pinLoginsPerIp >= 1
    && (cfg.breaker.Some? ==> cfg.breaker.value.minFailures >= 1 && cfg.breaker.value.windowMs > 0)
    && 0 < cfg.deviceIdleMs <= cfg.deviceAbsoluteMs
  }

  type SessionId = string

  /** The facts a session carries under `meta.__auth` that the routes read back. */
  datatype Session = Session(userId: AccountId, emailVerifiedAt: Option<Time>, deviceId: Option<DeviceId>)

  /** A device token as presented: the id and the sha-256 of the secret half. */
  datatype Token = Token(deviceId: DeviceId, secretHash: string)

  datatype Route = EmailStart | EmailVerify | SetPin | PinLogin

  /**
   * Everything a request brings or draws: its body, its token, the answer
   * `resolveUser` would give (None = null or no rateLimitId), and the random
   * ids, salt and code it would generate.
   */
  datatype Input = Input(
    route: Route, email: Email, ip: Option<string>, presented: Option<Token>, code: string,
    trustDevice: bool, resolved: Option<AccountId>, pin: string, salt: string,
    session: SessionId, newSession: SessionId, newDevice: DeviceId, newSecretHash: string, newCredential: CredentialId)

  datatype Response =
    | CodeSent
    | Verified(account: AccountId, session: SessionId)
    | PinStored(signedOut: bool)
    | LoggedIn(account: AccountId, session: SessionId)
    | RateLimited(retryAfterSec: int)
    | Unavailable(retryAfterSec: int)
    | InvalidCode
    | InvalidPin(attemptsRemaining: int)
    | EmailVerificationRequired
    | Unauthenticated
    | ClientIpRequired

  datatype StartPc = StartIp | StartDevice | StartBudget | StartCooldown | StartHourly | StartPut
  datatype GatePc = VerifyIp | VerifyBreakerRead | VerifyDevice | VerifyReserve | VerifyFull
  datatype GuessPc = VerifyAttempt | VerifyRefundUnused | VerifyConsume | VerifyCharge | VerifyRefund
  datatype EnterPc = VerifyPassed | VerifyUnlock | VerifyFindTrusted | VerifyTouchTrusted | VerifyRegister | VerifyMint | VerifyPinSet
  datatype PinPc = PinSession | PinReplace | PinEndSessions
  datatype LoginPc =
    LoginIp | LoginDevice | LoginCredential | LoginReserve | LoginLock | LoginReset | LoginMark | LoginTouch | LoginMint

  /**
   * The statement a request sends next. `/email/verify` has three stretches:
   * limits and budget (Gating), the guess while a slot is held (Guessing),
   * and the login it earns (Entering).
   */
  datatype Pc =
    | Starting(start: StartPc)
    | Gating(gate: GatePc)
    | Guessing(guess: GuessPc)
    | Entering(enter: EnterPc)
    | SettingPin(pinning: PinPc)
    | LoggingIn(login: LoginPc)
    | Finished(response: Response)
    | Crashed

  /** One request in flight: its input, its single clock reading, and its locals. */
  datatype Request = Request(
    input: Input, now: Time, pc: Pc, retried: bool,
    budgetDevice: Option<DeviceId>, slotStart: Time, matched: Option<CodeHash>, account: AccountId,
    device: Option<DeviceId>, deviceEmail: Email, credential: CredentialId, stored: Material, upgraded: Option<Material>,
    session: Option<Session>,
    guess: Option<bool>,      // an email code was compared: whether it matched
    pinChecked: Option<bool>) // a PIN was compared: whether it matched

  /** What a request asks of the outside world next. */
  datatype Call =
    | Db(statement: Statement)
    | ReadSession(sid: SessionId)
    | MintSession(sid: SessionId, session: Session)
    | EndSessions(account: AccountId)
    | NoCall


  function To(r: Request, pc: Pc): Request { r.(pc := pc) }

  function Reply(r: Request, response: Response): Request { r.(pc := Finished(response)) }

  function RetryAfterSec(windowStart: Time, windowMs: int, now: Time): int {
    Max(1, CeilSeconds(windowStart + windowMs - now))
  }

  // ----- budgets -----

  function FailureBucket(r: Request): Bucket {
    if r.budgetDevice.Some? then FailuresOfDevice(r.budgetDevice.value) else FailuresOfEmail(r.input.email)
  }

  predicate IsFailureBucket(b: Bucket) { b.FailuresOfEmail? || b.FailuresOfDevice? }

  function MaxFailures(cfg: Config, b: Bucket): nat {
    if b.FailuresOfDevice? then cfg.maxFailuresPerDevice else cfg.maxFailuresPerEmail
  }

  function CooldownBucket(r: Request): Bucket {
    if r.budgetDevice.Some? then CooldownOfDevice(r.budgetDevice.value) else CooldownOfEmail(r.input.email)
  }

  function SendBucket(r: Request): Bucket {
    if r.budgetDevice.Some? then SendsToDevice(r.budgetDevice.value) else SendsToEmail(r.input.email)
  }

  /** `readDevice`: the presented device, if it is real, unrevoked and unexpired at the request's reading. */
  predicate Presents(r: Request, found: Option<DeviceRow>) {
    r.input.presented.Some? && found.Some? && found.value.secretHash == r.input.presented.value.secretHash
    && DeviceLive(found.value, r.now)
  }

  /** `deviceOfAddress`: also registered to the very address of the request. */
  predicate PresentsDeviceOfAddress(r: Request, found: Option<DeviceRow>) {
    Presents(r, found) && found.value.email == r.input.email
  }

  function PresentedId(r: Request): DeviceId {
    if r.input.presented.Some? then r.input.presented.value.deviceId else ""
  }

  // ----- beginning -----

  function Begin(cfg: Config, input: Input, now: Time): Request {
    var r := Request(input, now, Crashed, false, None, 0, None, "", None, "", "", OtherMaterial, None, None, None, None);
    if input.route.SetPin? then To(r, SettingPin(PinSession))
    else if input.ip.None? && cfg.requireClientIp then Reply(r, ClientIpRequired)
    else match input.route
      case EmailStart => if input.ip.Some? then To(r, Starting(StartIp)) else AfterStartIp(r)
      case EmailVerify => if input.ip.Some? then To(r, Gating(VerifyIp)) else AfterVerifyIp(cfg, r)
      case PinLogin => if input.ip.Some? then To(r, LoggingIn(LoginIp)) else AfterLoginIp(r)
  }

  function AfterStartIp(r: Request): Request {
    if r.input.presented.Some? then To(r, Starting(StartDevice)) else To(r, Starting(StartBudget))
  }

  function AfterVerifyIp(cfg: Config, r: Request): Request {
    if cfg.breaker.Some? then To(r, Gating(VerifyBreakerRead)) else AfterVerifyBreaker(r)
  }

  function AfterVerifyBreaker(r: Request): Request {
    if r.input.presented.Some? then To(r, Gating(VerifyDevice)) else To(r, Gating(VerifyReserve))
  }

  /** Without a token there is no device: the answer needs no statement. */
  function AfterLoginIp(r: Request): Request {
    if r.input.presented.Some? then To(r, LoggingIn(LoginDevice)) else Reply(r, EmailVerificationRequired)
  }

  // ----- statements -----

  function IpCall(r: Request, action: IpAction): Call {
    Db(HitRateLimit(PerIp(action, if r.input.ip.Some? then r.input.ip.value else ""), HOUR_MS, r.now))
  }

  function EmitStart(cfg: Config, r: Request, at: StartPc): Call {
    match at
    case StartIp => IpCall(r, OtpStart)
    case StartDevice => Db(FindDevice(PresentedId(r)))
    case StartBudget => Db(ReadRateLimit(FailureBucket(r), cfg.failureWindowMs, r.now))
    case StartCooldown => Db(HitRateLimit(CooldownBucket(r), cfg.cooldownMs, r.now))
    case StartHourly => Db(HitRateLimit(SendBucket(r), HOUR_MS, r.now))
    case StartPut =>
      Db(PutEmailCode(CodeIssue(r.input.email, CodeHash(cfg.ring.current.secret, r.input.email, r.input.code),
                                cfg.ring.current.keyId, r.now + cfg.codeTtlMs, r.now, r.now + cfg.codeTtlMs)))
  }

  function EmitGate(cfg: Config, r: Request, at: GatePc): Call {
    match at
    case VerifyIp => IpCall(r, OtpVerify)
    case VerifyBreakerRead =>
      if cfg.breaker.Some? then Db(ReadCircuitBreaker(VerifyBreaker, cfg.breaker.value.windowMs, r.now)) else NoCall
    case VerifyDevice => Db(FindDevice(PresentedId(r)))
    case VerifyReserve =>
      Db(ReserveRateLimit(FailureBucket(r), cfg.failureWindowMs, r.now, MaxFailures(cfg, FailureBucket(r))))
    case VerifyFull => Db(ReadRateLimit(FailureBucket(r), cfg.failureWindowMs, r.now))
  }

  function EmitGuess(cfg: Config, r: Request, at: GuessPc): Call {
    match at
    case VerifyAttempt => Db(ReserveEmailCodeAttempt(r.input.email, r.now, cfg.codeMaxAttempts))
    case VerifyRefundUnused => Db(RefundRateLimit(FailureBucket(r), r.slotStart))
    case VerifyConsume =>
      if r.matched.Some? then Db(ConsumeEmailCode(r.input.email, r.matched.value)) else NoCall
    case VerifyCharge => BreakerCall(cfg, r, true)
    case VerifyRefund => Db(RefundRateLimit(FailureBucket(r), r.slotStart))
  }

  function EmitEnter(cfg: Config, r: Request, at: EnterPc): Call {
    match at
    case VerifyPassed => BreakerCall(cfg, r, false)
    case VerifyUnlock => Db(ResetLoginGuard(r.account, r.now))
    case VerifyFindTrusted => Db(FindDevice(PresentedId(r)))
    case VerifyTouchTrusted => Db(TouchDevice(PresentedId(r), r.now, r.now + cfg.deviceIdleMs))
    case VerifyRegister => Db(CreateDevice(r.input.newDevice, NewDeviceRow(cfg, r)))
    case VerifyMint => MintSession(r.input.newSession, Session(r.account, Some(r.now), r.device))
    case VerifyPinSet => Db(GetActivePin(r.account))
  }

  function BreakerCall(cfg: Config, r: Request, failed: bool): Call {
    if cfg.breaker.Some? then Db(HitCircuitBreaker(VerifyBreaker, cfg.breaker.value.windowMs, r.now, failed)) else NoCall
  }

  function NewDeviceRow(cfg: Config, r: Request): DeviceRow {
    DeviceRow(r.account, r.input.email, r.input.newSecretHash, r.now, r.now,
              Min(r.now + cfg.deviceIdleMs, r.now + cfg.deviceAbsoluteMs), r.now + cfg.deviceAbsoluteMs, None)
  }

  function EmitSetPin(cfg: Config, r: Request, at: PinPc): Call {
    match at
    case PinSession => ReadSession(r.input.session)
    case PinReplace =>
      Db(ReplaceCredential(
        NewPin(r.input.newCredential, r.account, Enroll(cfg.ring, cfg.pinIterations, r.input.pin, r.input.salt), r.now),
        true, if cfg.revokeOthersOnChange then Some(r.device) else None))
    case PinEndSessions => EndSessions(r.account)
  }

  function EmitLogin(cfg: Config, r: Request, at: LoginPc): Call {
    match at
    case LoginIp => IpCall(r, PinLoginIp)
    case LoginDevice => Db(FindDevice(PresentedId(r)))
    case LoginCredential => Db(GetActivePin(r.account))
    case LoginReserve => Db(ReserveLoginAttempt(r.account, cfg.pinMaxAttempts, r.now))
    case LoginLock => Db(LockAccount(r.account, cfg.pinMaxAttempts, r.now))
    case LoginReset => Db(ResetLoginGuard(r.account, r.now))
    case LoginMark => Db(MarkCredentialUsed(r.credential, r.now, r.upgraded))
    case LoginTouch => Db(TouchDevice(PresentedId(r), r.now, r.now + cfg.deviceIdleMs))
    case LoginMint => MintSession(r.input.newSession, Session(r.account, None, Some(PresentedId(r))))
  }

  function Emit(cfg: Config, r: Request): Call {
    match r.pc
    case Starting(at) => EmitStart(cfg, r, at)
    case Gating(at) => EmitGate(cfg, r, at)
    case Guessing(at) => EmitGuess(cfg, r, at)
    case Entering(at) => EmitEnter(cfg, r, at)
    case SettingPin(at) => EmitSetPin(cfg, r, at)
    case LoggingIn(at) => EmitLogin(cfg, r, at)
    case Finished(_) => NoCall
    case Crashed => NoCall
  }

  // ----- answers -----

  function ResumeStart(cfg: Config, r: Request, at: StartPc, a: Result): (r': Request)
    ensures r'.now == r.now && r'.input == r.input && r'.session == r.session
    ensures r'.pinChecked == r.pinChecked && !r'.pc.LoggingIn?
  {
    match at
    case StartIp =>
      if !a.Hits? then To(r, Crashed)
      else if a.hits.count <= cfg.startsPerIp then AfterStartIp(r)
      else Reply(r, RateLimited(RetryAfterSec(a.hits.windowStart, HOUR_MS, r.now)))
    case StartDevice =>
      if !a.Found? then To(r, Crashed)
      else To(if PresentsDeviceOfAddress(r, a.device) then r.(budgetDevice := Some(PresentedId(r))) else r, Starting(StartBudget))
    case StartBudget =>
      if !a.Hits? then To(r, Crashed)
      else if a.hits.count >= MaxFailures(cfg, FailureBucket(r))
      then Reply(r, RateLimited(RetryAfterSec(a.hits.windowStart, cfg.failureWindowMs, r.now))) else To(r, Starting(StartCooldown))
    case StartCooldown =>
      if !a.Hits? then To(r, Crashed)
      else if a.hits.count <= 1 then To(r, Starting(StartHourly))
      else Reply(r, RateLimited(RetryAfterSec(a.hits.windowStart, cfg.cooldownMs, r.now)))
    case StartHourly =>
      if !a.Hits? then To(r, Crashed)
      else if a.hits.count <= cfg.sendsPerHour then To(r, Starting(StartPut))
      else Reply(r, RateLimited(RetryAfterSec(a.hits.windowStart, HOUR_MS, r.now)))
    case StartPut => if a.Done? then Reply(r, CodeSent) else To(r, Crashed)
  }

  predicate BreakerOpen(b: BreakerConfig, c: BreakerCounts) {
    c.failures >= b.minFailures && c.failures as real >= b.ratio * (Max(c.attempts, 1) as real)
  }

  /** A key the ring still holds, and the hash that key gives for the submitted digits. */
  predicate CodeMatches(cfg: Config, r: Request, c: ReservedCode) {
    c.keyId in cfg.ring.byId && CodeHash(cfg.ring.byId[c.keyId].secret, r.input.email, r.input.code) == c.codeHash
  }

  function ResumeGate(cfg: Config, r: Request, at: GatePc, a: Result): (r': Request)
    ensures r'.now == r.now && r'.input == r.input && r'.session == r.session
    ensures r'.pinChecked == r.pinChecked && !r'.pc.LoggingIn?
  {
    match at
    case VerifyIp =>
      if !a.Hits? then To(r, Crashed)
      else if a.hits.count <= cfg.verifiesPerIp then AfterVerifyIp(cfg, r)
      else Reply(r, RateLimited(RetryAfterSec(a.hits.windowStart, HOUR_MS, r.now)))
    case VerifyBreakerRead =>
      if !a.Breaker? then To(r, Crashed)
      else if cfg.breaker.Some? && BreakerOpen(cfg.breaker.value, a.counts)
      then Reply(r, Unavailable(RetryAfterSec(a.counts.windowStart, cfg.breaker.value.windowMs, r.now)))
      else AfterVerifyBreaker(r)
    case VerifyDevice =>
      if !a.Found? then To(r, Crashed)
      else To(if PresentsDeviceOfAddress(r, a.device) then r.(budgetDevice := Some(PresentedId(r))) else r, Gating(VerifyReserve))
    case VerifyReserve =>
      if !a.Slot? then To(r, Crashed)
      else if a.slot.Some? then To(r.(slotStart := a.slot.value.windowStart), Guessing(VerifyAttempt)) else To(r, Gating(VerifyFull))
    case VerifyFull =>
      if !a.Hits? then To(r, Crashed)
      else Reply(r, RateLimited(RetryAfterSec(a.hits.windowStart, cfg.failureWindowMs, r.now)))
  }

  function ResumeGuess(cfg: Config, r: Request, at: GuessPc, a: Result): (r': Request)
    ensures r'.now == r.now && r'.input == r.input && r'.session == r.session
    ensures r'.pinChecked == r.pinChecked && !r'.pc.LoggingIn?
  {
    match at
    case VerifyAttempt =>
      if !a.Attempt? then To(r, Crashed)
      else if a.reserved.None? then To(r, Guessing(VerifyRefundUnused))
      else if CodeMatches(cfg, r, a.reserved.value)
      then To(r.(guess := Some(true), matched := Some(a.reserved.value.codeHash)), Guessing(VerifyConsume))
      else Charged(cfg, r.(guess := Some(false)))
    case VerifyRefundUnused => if a.Done? then Reply(r, InvalidCode) else To(r, Crashed)
    case VerifyConsume =>
      if !a.Flag? then To(r, Crashed)
      else if !a.yes || r.input.resolved.None? then Charged(cfg, r)
      else To(r.(account := r.input.resolved.value), Guessing(VerifyRefund))
    case VerifyCharge => if a.Breaker? then Reply(r, InvalidCode) else To(r, Crashed)
    case VerifyRefund =>
      if !a.Done? then To(r, Crashed)
      else if cfg.breaker.Some? then To(r, Entering(VerifyPassed)) else To(r, Entering(VerifyUnlock))
  }

  function ResumeEnter(r: Request, at: EnterPc, a: Result): (r': Request)
    ensures r'.now == r.now && r'.input == r.input && r'.session == r.session
    ensures r'.pinChecked == r.pinChecked && !r'.pc.LoggingIn?
  {
    match at
    case VerifyPassed => if a.Breaker? then To(r, Entering(VerifyUnlock)) else To(r, Crashed)
    case VerifyUnlock =>
      if !a.Guard? then To(r, Crashed)
      else if !r.input.trustDevice then To(r, Entering(VerifyMint))
      else if r.input.presented.Some? then To(r, Entering(VerifyFindTrusted)) else To(r, Entering(VerifyRegister))
    case VerifyFindTrusted =>
      if !a.Found? then To(r, Crashed)
      else if Presents(r, a.device) && a.device.value.accountId == r.account then To(r, Entering(VerifyTouchTrusted))
      else To(r, Entering(VerifyRegister))
    case VerifyTouchTrusted =>
      if !a.Touched? then To(r, Crashed)
      else if a.idleExpiresAt.Some? then To(r.(device := Some(PresentedId(r))), Entering(VerifyMint))
      else To(r, Entering(VerifyRegister))
    case VerifyRegister => if a.Done? then To(r.(device := Some(r.input.newDevice)), Entering(VerifyMint)) else To(r, Crashed)
    case VerifyMint => To(r, Crashed)
    case VerifyPinSet => if a.Active? then Reply(r, Verified(r.account, r.input.newSession)) else To(r, Crashed)
  }

  /** `invalid(...)`: count a failed verification on the breaker, if there is one, and answer 401. */
  function Charged(cfg: Config, r: Request): Request {
    if cfg.breaker.Some? then To(r, Guessing(VerifyCharge)) else Reply(r, InvalidCode)
  }

  /** The gate's session, the freshness of its email verification, and on to the replacement. */
  function ResumePinSession(cfg: Config, r: Request, s: Option<Session>): (r': Request)
    ensures r'.now == r.now && r'.input == r.input
  {
    if s.None? then Reply(r, Unauthenticated)
    else if s.value.emailVerifiedAt.None? || r.now - s.value.emailVerifiedAt.value > cfg.freshMs
    then Reply(r.(session := s), EmailVerificationRequired)
    else To(r.(session := s, account := s.value.userId, device := s.value.deviceId), SettingPin(PinReplace))
  }

  function ResumeSetPin(cfg: Config, r: Request, at: PinPc, a: Result): (r': Request)
    ensures r'.now == r.now && r'.input == r.input && r'.session == r.session
    ensures r'.pinChecked == r.pinChecked && !r'.pc.LoggingIn?
  {
    if !at.PinReplace? || !a.Replaced? then To(r, Crashed)
    else if a.replacement.replaced && cfg.revokeOthersOnChange then To(r, SettingPin(PinEndSessions))
    else Reply(r, PinStored(false))
  }

  function ResumeLogin(cfg: Config, r: Request, at: LoginPc, a: Result): (r': Request)
    ensures r'.now == r.now && r'.input == r.input && r'.session == r.session
  {
    match at
    case LoginIp =>
      if !a.Hits? then To(r, Crashed)
      else if a.hits.count <= cfg.pinLoginsPerIp then AfterLoginIp(r)
      else Reply(r, RateLimited(RetryAfterSec(a.hits.windowStart, HOUR_MS, r.now)))
    case LoginDevice =>
      if !a.Found? then To(r, Crashed)
      else if Presents(r, a.device)
      then To(r.(account := a.device.value.accountId, deviceEmail := a.device.value.email), LoggingIn(LoginCredential))
      else Reply(r, EmailVerificationRequired)
    case LoginCredential =>
      if !a.Active? then To(r, Crashed)
      else if a.active.None? then Reply(r, EmailVerificationRequired)
      else To(r.(credential := a.active.value.credentialId, stored := a.active.value.row.material), LoggingIn(LoginReserve))
    case LoginReserve =>
      if !a.LoginAttempt? then To(r, Crashed)
      else if a.failedCount.None? then Reply(r, EmailVerificationRequired)
      else
        var check := Verify(cfg.ring, cfg.pinIterations, r.input.pin, r.stored, r.input.salt);
        if check.ok then To(r.(pinChecked := Some(true), upgraded := check.upgraded), LoggingIn(LoginReset))
        else if a.failedCount.value >= cfg.pinMaxAttempts then To(r.(pinChecked := Some(false)), LoggingIn(LoginLock))
        else Reply(r.(pinChecked := Some(false)), InvalidPin(cfg.pinMaxAttempts - a.failedCount.value))
    case LoginLock => if a.Done? then Reply(r, EmailVerificationRequired) else To(r, Crashed)
    case LoginReset => if a.Guard? then To(r, LoggingIn(LoginMark)) else To(r, Crashed)
    case LoginMark =>
      if !a.Done? then To(r, Crashed)
      else if r.input.resolved != Some(r.account) then Reply(r, EmailVerificationRequired) else To(r, LoggingIn(LoginTouch))
    case LoginTouch =>
      if !a.Touched? then To(r, Crashed)
      else if a.idleExpiresAt.None? then Reply(r, EmailVerificationRequired) else To(r, LoggingIn(LoginMint))
    case LoginMint => To(r, Crashed)
  }

  function ResumeDb(cfg: Config, r: Request, a: Result): (r': Request)
    ensures r'.now == r.now && r'.input == r.input
  {
    match r.pc
    case Starting(at) => ResumeStart(cfg, r, at, a)
    case Gating(at) => ResumeGate(cfg, r, at, a)
    case Guessing(at) => ResumeGuess(cfg, r, at, a)
    case Entering(at) => ResumeEnter(r, at, a)
    case SettingPin(at) => ResumeSetPin(cfg, r, at, a)
    case LoggingIn(at) => ResumeLogin(cfg, r, at, a)
    case Finished(_) => r
    case Crashed => r
  }

  /** The session store did what it was asked. */
  function ResumeAcknowledged(r: Request): (r': Request)
    ensures r'.now == r.now && r'.input == r.input
  {
    if r.pc == Entering(VerifyMint) then To(r, Entering(VerifyPinSet))
    else if r.pc == LoggingIn(LoginMint) then Reply(r, LoggedIn(r.account, r.input.newSession))
    else if r.pc == SettingPin(PinEndSessions) then Reply(r, PinStored(true))
    else To(r, Crashed)
  }

  /** A retry sends the same call. */
  lemma SameCall(cfg: Config, r: Request)
    ensures Emit(cfg, r.(retried := false)) == Emit(cfg, r)
  {}
}

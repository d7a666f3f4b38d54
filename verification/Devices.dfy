/**
 * Trusted devices: where they come from and which accounts and addresses they
 * belong to (src/device-auth/index.ts:596-689, src/device-auth/store.ts:368-445).
 */
module Devices {
  import opened Basics
  import opened PinCredential
  import opened Tables
  import opened Routes
  import opened Runs

  /** Which account, and which address, each device was registered to. */
  datatype Known = Known(accounts: set<(DeviceId, AccountId)>, emails: set<(DeviceId, Email)>)

  predicate OfAccount(known: Known, d: DeviceId, a: AccountId) { (d, a) in known.accounts }

  predicate OfAddress(known: Known, d: DeviceId, email: Email) { (d, email) in known.emails }

  // ----- one request -----

  predicate PastDevice(at: LoginPc) { !at.LoginIp? && !at.LoginDevice? }

  predicate BeforeRegister(pc: Pc) {
    match pc
    case Entering(at) => !at.VerifyMint? && !at.VerifyPinSet?
    case Finished(_) => false
    case Crashed => false
    case _ => true
  }

  /** Every device id a request relies on is one registered to the account, or the address, it relies on it for. */
  predicate DevInv(known: Known, e: Entry) {
    && (e.r.budgetDevice.Some? ==> OfAddress(known, e.r.budgetDevice.value, e.r.input.email))
    && (BeforeRegister(e.r.pc) ==> e.t.registered.None?)
    && (e.t.registered.Some? ==> e.t.registered.value == e.r.input.newDevice)
    && match e.r.pc
       case Entering(at) =>
         && (at.VerifyTouchTrusted? ==> OfAccount(known, PresentedId(e.r), e.r.account))
         && (at.VerifyMint? && e.r.device.Some? ==> OfAccount(known, e.r.device.value, e.r.account))
         && (!at.VerifyMint? && !at.VerifyPinSet? ==> e.r.device.None?)
       case LoggingIn(at) => PastDevice(at) ==> OfAccount(known, PresentedId(e.r), e.r.account)
       case Starting(_) => e.r.device.None?
       case Gating(_) => e.r.device.None?
       case Guessing(_) => e.r.device.None?
       case _ => true
  }

  /** A lookup answers with a device registered to the account and address of its row. */
  predicate Truthful(known: Known, st: Statement, result: Result) {
    st.FindDevice? && result.Found? && result.device.Some? ==>
      && OfAccount(known, st.deviceId, result.device.value.accountId)
      && OfAddress(known, st.deviceId, result.device.value.email)
  }

  /** A device just created is known. */
  predicate Learned(known: Known, e: Entry, st: Statement, result: Result) {
    st.CreateDevice? && result.Done? ==>
      OfAccount(known, st.deviceId, st.row.accountId) && OfAddress(known, st.deviceId, st.row.email)
  }

  lemma DevInvBegins(cfg: Config, known: Known, input: Input, now: Time)
    ensures DevInv(known, Entry(Begin(cfg, input, now), NoTrace))
  {}

  lemma DevInvDb(cfg: Config, known: Known, e: Entry, st: Statement, result: Result, epoch: nat)
    requires DevInv(known, e) && Emit(cfg, e.r) == Db(st)
    requires Truthful(known, st, result) && Learned(known, e, st, result)
    ensures DevInv(known, Entry(ResumeDb(cfg, e.r.(retried := false), result), Record(e.t, st, result, epoch)))
    ensures DevInv(known, Entry(To(e.r.(retried := false), Crashed), Record(e.t, st, result, epoch)))
  {
    hide Record, EmitStart, EmitGate, EmitGuess, EmitEnter, EmitSetPin, EmitLogin, ResumeStart, ResumeGate,
         ResumeGuess, ResumeEnter, ResumeSetPin, ResumeLogin, DevInv;
    DevInvLost(cfg, known, e, st, result, epoch);
    match e.r.pc
    case Starting(at) => DevInvStart(cfg, known, e, at, st, result, epoch);
    case Gating(at) => DevInvGate(cfg, known, e, at, st, result, epoch);
    case Guessing(at) => DevInvGuess(cfg, known, e, at, st, result, epoch);
    case Entering(at) => DevInvEnter(cfg, known, e, at, st, result, epoch);
    case SettingPin(at) => DevInvSetPin(cfg, known, e, at, st, result, epoch);
    case LoggingIn(at) => DevInvLogin(cfg, known, e, at, st, result, epoch);
  }

  lemma DevInvLost(cfg: Config, known: Known, e: Entry, st: Statement, result: Result, epoch: nat)
    requires DevInv(known, e) && Emit(cfg, e.r) == Db(st)
    requires Truthful(known, st, result) && Learned(known, e, st, result)
    ensures DevInv(known, Entry(To(e.r.(retried := false), Crashed), Record(e.t, st, result, epoch)))
  {
    hide OfAccount, OfAddress;
    hide NewDeviceRow, Enroll;
  }

  lemma DevInvStart(cfg: Config, known: Known, e: Entry, at: StartPc, st: Statement, result: Result, epoch: nat)
    requires DevInv(known, e) && e.r.pc == Starting(at) && EmitStart(cfg, e.r, at) == Db(st)
    requires Truthful(known, st, result)
    ensures DevInv(known, Entry(ResumeStart(cfg, e.r.(retried := false), at, result), Record(e.t, st, result, epoch)))
  {
    hide Record, OfAccount, OfAddress;
    RecordWrites(e.t, st, result, epoch);
    if at.StartDevice? {
      StartLooksUp(cfg, known, e, st, result, Record(e.t, st, result, epoch));
    } else {
      StartMoves(cfg, known, e, at, result, Record(e.t, st, result, epoch));
    }
  }

  lemma StartLooksUp(cfg: Config, known: Known, e: Entry, st: Statement, result: Result, t: Trace)
    requires DevInv(known, e) && e.r.pc == Starting(StartDevice) && st == FindDevice(PresentedId(e.r))
    requires Truthful(known, st, result) && t.registered == e.t.registered
    ensures DevInv(known, Entry(ResumeStart(cfg, e.r.(retried := false), StartDevice, result), t))
  {
    hide OfAccount, OfAddress, DeviceLive;
  }

  lemma StartMoves(cfg: Config, known: Known, e: Entry, at: StartPc, result: Result, t: Trace)
    requires DevInv(known, e) && e.r.pc == Starting(at) && !at.StartDevice? && t.registered == e.t.registered
    ensures DevInv(known, Entry(ResumeStart(cfg, e.r.(retried := false), at, result), t))
  {
    hide OfAccount, OfAddress, RetryAfterSec, MaxFailures, FailureBucket, PresentsDeviceOfAddress;
  }

  lemma DevInvGate(cfg: Config, known: Known, e: Entry, at: GatePc, st: Statement, result: Result, epoch: nat)
    requires DevInv(known, e) && e.r.pc == Gating(at) && EmitGate(cfg, e.r, at) == Db(st)
    requires Truthful(known, st, result)
    ensures DevInv(known, Entry(ResumeGate(cfg, e.r.(retried := false), at, result), Record(e.t, st, result, epoch)))
  {
    hide Record, OfAccount, OfAddress;
    RecordWrites(e.t, st, result, epoch);
    if at.VerifyDevice? {
      GateLooksUp(cfg, known, e, st, result, Record(e.t, st, result, epoch));
    } else {
      GateMoves(cfg, known, e, at, result, Record(e.t, st, result, epoch));
    }
  }

  lemma GateLooksUp(cfg: Config, known: Known, e: Entry, st: Statement, result: Result, t: Trace)
    requires DevInv(known, e) && e.r.pc == Gating(VerifyDevice) && st == FindDevice(PresentedId(e.r))
    requires Truthful(known, st, result) && t.registered == e.t.registered
    ensures DevInv(known, Entry(ResumeGate(cfg, e.r.(retried := false), VerifyDevice, result), t))
  {
    hide OfAccount, OfAddress, DeviceLive;
  }

  lemma GateMoves(cfg: Config, known: Known, e: Entry, at: GatePc, result: Result, t: Trace)
    requires DevInv(known, e) && e.r.pc == Gating(at) && !at.VerifyDevice? && t.registered == e.t.registered
    ensures DevInv(known, Entry(ResumeGate(cfg, e.r.(retried := false), at, result), t))
  {
    hide OfAccount, OfAddress, ResumeGate;
    GateKeepsDevice(cfg, e.r.(retried := false), at, result);
  }

  /** A gate's answer leaves the devices of its request alone, and leads to no login. */
  lemma GateKeepsDevice(cfg: Config, r: Request, at: GatePc, result: Result)
    requires r.pc == Gating(at) && !at.VerifyDevice?
    ensures var r' := ResumeGate(cfg, r, at, result);
      && r'.budgetDevice == r.budgetDevice && r'.device == r.device
      && (r'.pc.Gating? || r'.pc.Guessing? || r'.pc.Finished? || r'.pc.Crashed?)
  {
    hide RetryAfterSec, BreakerOpen, PresentsDeviceOfAddress, MaxFailures, FailureBucket;
  }

  lemma DevInvGuess(cfg: Config, known: Known, e: Entry, at: GuessPc, st: Statement, result: Result, epoch: nat)
    requires DevInv(known, e) && e.r.pc == Guessing(at) && EmitGuess(cfg, e.r, at) == Db(st)
    ensures DevInv(known, Entry(ResumeGuess(cfg, e.r.(retried := false), at, result), Record(e.t, st, result, epoch)))
  {
    hide Record, OfAccount, OfAddress, ResumeGuess;
    RecordWrites(e.t, st, result, epoch);
    GuessMoves(cfg, known, e, at, result, Record(e.t, st, result, epoch));
  }

  lemma GuessMoves(cfg: Config, known: Known, e: Entry, at: GuessPc, result: Result, t: Trace)
    requires DevInv(known, e) && e.r.pc == Guessing(at) && t.registered == e.t.registered
    ensures DevInv(known, Entry(ResumeGuess(cfg, e.r.(retried := false), at, result), t))
  {
    hide OfAccount, OfAddress, CodeMatches;
  }

  lemma DevInvEnter(cfg: Config, known: Known, e: Entry, at: EnterPc, st: Statement, result: Result, epoch: nat)
    requires DevInv(known, e) && e.r.pc == Entering(at) && EmitEnter(cfg, e.r, at) == Db(st)
    requires Truthful(known, st, result) && Learned(known, e, st, result)
    ensures DevInv(known, Entry(ResumeEnter(e.r.(retried := false), at, result), Record(e.t, st, result, epoch)))
  {
    hide OfAccount, OfAddress;
    hide DeviceLive, NewDeviceRow;
    if at.VerifyRegister? {
      DevInvRegister(cfg, known, e, st, result, epoch);
    } else {
      DevInvEnterMoves(cfg, known, e, at, st, result, Record(e.t, st, result, epoch));
    }
  }

  lemma DevInvEnterMoves(cfg: Config, known: Known, e: Entry, at: EnterPc, st: Statement, result: Result, t: Trace)
    requires DevInv(known, e) && e.r.pc == Entering(at) && EmitEnter(cfg, e.r, at) == Db(st) && !at.VerifyRegister?
    requires Truthful(known, st, result) && t.registered == e.t.registered
    ensures DevInv(known, Entry(ResumeEnter(e.r.(retried := false), at, result), t))
  {
    hide OfAccount, OfAddress;
  }

  lemma DevInvRegister(cfg: Config, known: Known, e: Entry, st: Statement, result: Result, epoch: nat)
    requires DevInv(known, e) && e.r.pc == Entering(VerifyRegister) && EmitEnter(cfg, e.r, VerifyRegister) == Db(st)
    requires Learned(known, e, st, result)
    ensures DevInv(known, Entry(ResumeEnter(e.r.(retried := false), VerifyRegister, result), Record(e.t, st, result, epoch)))
  {
    hide OfAccount, OfAddress;
  }

  lemma DevInvSetPin(cfg: Config, known: Known, e: Entry, at: PinPc, st: Statement, result: Result, epoch: nat)
    requires DevInv(known, e) && e.r.pc == SettingPin(at) && EmitSetPin(cfg, e.r, at) == Db(st)
    requires Truthful(known, st, result) && Learned(known, e, st, result)
    ensures DevInv(known, Entry(ResumeSetPin(cfg, e.r.(retried := false), at, result), Record(e.t, st, result, epoch)))
  {
    hide OfAccount, OfAddress;
    hide Enroll;
  }

  lemma DevInvLogin(cfg: Config, known: Known, e: Entry, at: LoginPc, st: Statement, result: Result, epoch: nat)
    requires DevInv(known, e) && e.r.pc == LoggingIn(at) && EmitLogin(cfg, e.r, at) == Db(st)
    requires Truthful(known, st, result)
    ensures DevInv(known, Entry(ResumeLogin(cfg, e.r.(retried := false), at, result), Record(e.t, st, result, epoch)))
  {
    hide Record, OfAccount, OfAddress;
    RecordWrites(e.t, st, result, epoch);
    if at.LoginDevice? {
      LoginLooksUp(cfg, known, e, st, result, Record(e.t, st, result, epoch));
    } else {
      LoginMoves(cfg, known, e, at, result, Record(e.t, st, result, epoch));
    }
  }

  lemma LoginLooksUp(cfg: Config, known: Known, e: Entry, st: Statement, result: Result, t: Trace)
    requires DevInv(known, e) && e.r.pc == LoggingIn(LoginDevice) && st == FindDevice(PresentedId(e.r))
    requires Truthful(known, st, result) && t.registered == e.t.registered
    ensures DevInv(known, Entry(ResumeLogin(cfg, e.r.(retried := false), LoginDevice, result), t))
  {
    hide OfAccount, OfAddress, DeviceLive, Verify;
  }

  lemma LoginMoves(cfg: Config, known: Known, e: Entry, at: LoginPc, result: Result, t: Trace)
    requires DevInv(known, e) && e.r.pc == LoggingIn(at) && !at.LoginDevice? && t.registered == e.t.registered
    ensures DevInv(known, Entry(ResumeLogin(cfg, e.r.(retried := false), at, result), t))
  {
    hide OfAccount, OfAddress, ResumeLogin;
    LoginKeepsDevice(cfg, e.r.(retried := false), at, result);
  }

  /** Past its lookup, a login keeps to the device and the account it found. */
  lemma LoginKeepsDevice(cfg: Config, r: Request, at: LoginPc, result: Result)
    requires r.pc == LoggingIn(at) && !at.LoginDevice?
    ensures var r' := ResumeLogin(cfg, r, at, result);
      && r'.budgetDevice == r.budgetDevice && r'.account == r.account
      && (r'.pc.LoggingIn? || r'.pc.Finished? || r'.pc.Crashed?)
      && (r'.pc.LoggingIn? && PastDevice(r'.pc.login) ==> PastDevice(at))
  {
    hide RetryAfterSec, Verify, Presents;
  }

  lemma DevInvOther(cfg: Config, known: Known, e: Entry, found: Option<Session>, told: bool)
    requires DevInv(known, e) && !Emit(cfg, e.r).Db?
    ensures DevInv(known, e.(r := AfterOther(cfg, e.r, Emit(cfg, e.r), found, told)))
  {
    hide OfAccount, OfAddress;
    hide NewDeviceRow, Enroll;
  }

  lemma DevInvRollBack(known: Known, e: Entry, retryable: bool)
    requires DevInv(known, e)
    ensures DevInv(known, RollBack(e, retryable))
  {}
}

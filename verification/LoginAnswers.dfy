/**
 * `/pin/login` (src/device-auth/index.ts:1041-1111), run alone: what it
 * answers, exactly when, and what it leaves in every table.
 */
module LoginAnswers {
  import opened Basics
  import opened PinCredential
  import opened Tables
  import opened Routes
  import opened Alone
  import opened Answers
  import opened StatementFacts

  // ----- what decides -----

  /** A live device, its IP not used up. */
  predicate Arrived(cfg: Config, t: Tables, input: Input, now: Time) {
    && !NoIp(cfg, input) && !IpFull(t.limits, input, PinLoginIp, cfg.pinLoginsPerIp, now)
    && HoldsDevice(t.devices, input, now)
  }

  function FailedBefore(guards: map<AccountId, GuardRow>, account: AccountId): nat {
    if account in guards then guards[account].failedCount else 0
  }

  /** Attempts left, and no lock. */
  predicate MayAttempt(cfg: Config, guards: map<AccountId, GuardRow>, account: AccountId) {
    account in guards ==> guards[account].failedCount < cfg.pinMaxAttempts && guards[account].lockedAt.None?
  }

  /** The PIN is compared: a live device, a PIN in force on its account, and an attempt left. */
  ghost predicate Compares(cfg: Config, t: Tables, input: Input, now: Time) {
    && Arrived(cfg, t, input, now)
    && HasPin(t.credentials, Holder(t.devices, input).accountId)
    && MayAttempt(cfg, t.guards, Holder(t.devices, input).accountId)
  }

  /** The digits open the account's PIN. */
  ghost predicate RightPin(cfg: Config, credentials: map<CredentialId, CredentialRow>, account: AccountId, pin: string)
  {
    exists c ::
      c in credentials && InForce(credentials[c], account) && Opens(cfg.ring, credentials[c].material, pin)
  }

  // ----- what is left -----

  /** The account's PIN, used: stamped, and re-hashed if it was made under an older key or at another cost. */
  function UsedPin(cfg: Config, input: Input, row: CredentialRow, now: Time): CredentialRow {
    if Stale(cfg, row.material) then row.(lastUsedAt := Some(now), updatedAt := now, material := Stored(cfg, input))
    else row.(lastUsedAt := Some(now))
  }

  function UsedPins(cfg: Config, input: Input, credentials: map<CredentialId, CredentialRow>, account: AccountId,
      now: Time)
    : map<CredentialId, CredentialRow>
  {
    map c | c in credentials ::
      if InForce(credentials[c], account) then UsedPin(cfg, input, credentials[c], now) else credentials[c]
  }

  /** One more failure, and the lock once that was the last one allowed. */
  function Failed(cfg: Config, guards: map<AccountId, GuardRow>, account: AccountId, now: Time)
    : map<AccountId, GuardRow>
  {
    var n := FailedBefore(guards, account) + 1;
    guards[account := GuardRow(n, if n >= cfg.pinMaxAttempts then Some(now) else None, now)]
  }

  /** The account's one PIN in force. */
  ghost predicate OnePin(credentials: map<CredentialId, CredentialRow>, c: CredentialId, account: AccountId) {
    c in credentials && InForce(credentials[c], account)
    && forall d :: d in credentials && InForce(credentials[d], account) ==> d == c
  }

  /** What a right PIN leads to: a session on the device, if the user is still the account's. */
  ghost predicate Entered(cfg: Config, w: Site, input: Input, now: Time, account: AccountId, w': Site, pc: Pc)
    requires input.presented.Some? && input.presented.value.deviceId in w.tables.devices
  {
    var t, t', id, known := w.tables, w'.tables, input.presented.value.deviceId, input.resolved == Some(account);
    && pc == Finished(if known then LoggedIn(account, input.newSession) else EmailVerificationRequired)
    && t'.credentials == UsedPins(cfg, input, t.credentials, account, now)
    && t'.devices == (if known then Extended(cfg, t.devices, input, now) else t.devices)
    && w'.minted == (if known then w.minted[input.newSession := Session(account, None, Some(id))] else w.minted)
    && t'.limits == t.limits && t'.codes == t.codes
  }

  /** The answer to a compared PIN, and where it leaves the guard, the PIN, the device and the sessions. */
  ghost predicate Judged(cfg: Config, w: Site, input: Input, now: Time, account: AccountId, w': Site, answer: Response)
    requires input.presented.Some? && input.presented.value.deviceId in w.tables.devices
  {
    var t, t', id := w.tables, w'.tables, input.presented.value.deviceId;
    var right := RightPin(cfg, t.credentials, account, input.pin);
    var left := cfg.pinMaxAttempts - FailedBefore(t.guards, account) - 1;
    var in_ := right && input.resolved == Some(account);
    && answer == (if in_ then LoggedIn(account, input.newSession)
                  else if !right && left > 0 then InvalidPin(left) else EmailVerificationRequired)
    && t'.guards == (if right then t.guards[account := GuardRow(0, None, now)] else Failed(cfg, t.guards, account, now))
    && t'.credentials == (if right then UsedPins(cfg, input, t.credentials, account, now) else t.credentials)
    && t'.devices == (if in_ then Extended(cfg, t.devices, input, now) else t.devices)
    && w'.minted == (if in_ then w.minted[input.newSession := Session(account, None, Some(id))] else w.minted)
  }

  // ----- statement by statement, from the end -----

  lemma Mints(cfg: Config, w: Site, r: Request, n: nat)
    requires n >= 1 && r.pc == LoggingIn(LoginMint)
    ensures var (w', r') := Finish(cfg, w, r, n);
      && w' == w.(minted := w.minted[r.input.newSession := Session(r.account, None, Some(PresentedId(r)))])
      && r'.pc == Finished(LoggedIn(r.account, r.input.newSession))
  {
    var (w', r') := Step(cfg, w, r);
    Ended(cfg, w', r', n - 1);
  }

  lemma Touches(cfg: Config, w: Site, r: Request, n: nat)
    requires n >= 2 && r.pc == LoggingIn(LoginTouch) && HoldsDevice(w.tables.devices, r.input, r.now)
    ensures var (w', r') := Finish(cfg, w, r, n);
      && w' == Site(w.tables.(devices := Extended(cfg, w.tables.devices, r.input, r.now)),
                    w.minted[r.input.newSession := Session(r.account, None, Some(PresentedId(r)))])
      && r'.pc == Finished(LoggedIn(r.account, r.input.newSession))
  {
    hide Finish, Step;
    var st := TouchDevice(PresentedId(r), r.now, r.now + cfg.deviceIdleMs);
    DeviceExtended(cfg, w.tables, r.input, r.now);
    var (t, a) := Exec(w.tables, st);
    hide Exec, Extended;
    var r' := TrackLogin(cfg, w, r, LoginTouch, n, st, w.(tables := t), a);
    Mints(cfg, w.(tables := t), r', n - 1);
  }

  lemma PinStamped(cfg: Config, t: Tables, input: Input, now: Time, c: CredentialId, account: AccountId)
    requires OnePin(t.credentials, c, account)
    ensures var upgraded := if Stale(cfg, t.credentials[c].material) then Some(Stored(cfg, input)) else None;
      Exec(t, MarkCredentialUsed(c, now, upgraded))
        == (t.(credentials := UsedPins(cfg, input, t.credentials, account, now)), Done)
  {
    var upgraded := if Stale(cfg, t.credentials[c].material) then Some(Stored(cfg, input)) else None;
    assert Exec(t, MarkCredentialUsed(c, now, upgraded)).0.credentials
      == UsedPins(cfg, input, t.credentials, account, now);
  }

  /** Where a login whose PIN was right ends. */
  lemma Marks(cfg: Config, w: Site, r: Request, n: nat)
    requires n >= 3 && r.pc == LoggingIn(LoginMark) && HoldsDevice(w.tables.devices, r.input, r.now)
    requires OnePin(w.tables.credentials, r.credential, r.account)
    requires r.stored == w.tables.credentials[r.credential].material
    requires r.upgraded == if Stale(cfg, r.stored) then Some(Stored(cfg, r.input)) else None
    ensures var (w', r') := Finish(cfg, w, r, n);
      Entered(cfg, w, r.input, r.now, r.account, w', r'.pc) && w'.tables.guards == w.tables.guards
  {
    hide Finish, Step;
    var st := MarkCredentialUsed(r.credential, r.now, r.upgraded);
    PinStamped(cfg, w.tables, r.input, r.now, r.credential, r.account);
    var (t, a) := Exec(w.tables, st);
    hide Exec, UsedPins, OnePin;
    var r' := TrackLogin(cfg, w, r, LoginMark, n, st, w.(tables := t), a);
    if r.input.resolved == Some(r.account) {
      Touches(cfg, w.(tables := t), r', n - 1);
    } else {
      Ended(cfg, w.(tables := t), r', n - 1);
    }
  }

  /** A right PIN clears the guard first. */
  lemma Resets(cfg: Config, w: Site, r: Request, n: nat)
    requires n >= 4 && r.pc == LoggingIn(LoginReset) && HoldsDevice(w.tables.devices, r.input, r.now)
    requires OnePin(w.tables.credentials, r.credential, r.account)
    requires r.stored == w.tables.credentials[r.credential].material
    requires r.upgraded == if Stale(cfg, r.stored) then Some(Stored(cfg, r.input)) else None
    requires r.account in w.tables.guards
    ensures var (w', r') := Finish(cfg, w, r, n);
      && Entered(cfg, w, r.input, r.now, r.account, w', r'.pc)
      && w'.tables.guards == w.tables.guards[r.account := GuardRow(0, None, r.now)]
  {
    hide Finish, Step, Stale, Stored;
    var st := ResetLoginGuard(r.account, r.now);
    var t := w.tables.(guards := w.tables.guards[r.account := GuardRow(0, None, r.now)]);
    var before := Some(w.tables.guards[r.account]);
    assert Exec(w.tables, st) == (t, Guard(before));
    hide Exec;
    var r' := TrackLogin(cfg, w, r, LoginReset, n, st, w.(tables := t), Guard(before));
    hide Extended, UsedPins;
    Marks(cfg, w.(tables := t), r', n - 1);
  }

  lemma Locks(cfg: Config, w: Site, r: Request, n: nat)
    requires n >= 1 && r.pc == LoggingIn(LoginLock) && r.account in w.tables.guards
    requires w.tables.guards[r.account].failedCount >= cfg.pinMaxAttempts && w.tables.guards[r.account].lockedAt.None?
    ensures var (w', r') := Finish(cfg, w, r, n);
      && w' == w.(tables := w.tables.(guards :=
                w.tables.guards[r.account := GuardRow(w.tables.guards[r.account].failedCount, Some(r.now), r.now)]))
      && r'.pc == Finished(EmailVerificationRequired)
  {
    hide Finish, Step;
    var st := LockAccount(r.account, cfg.pinMaxAttempts, r.now);
    var (t, a) := Exec(w.tables, st);
    var r' := TrackLogin(cfg, w, r, LoginLock, n, st, w.(tables := t), a);
    Ended(cfg, w.(tables := t), r', n - 1);
  }

  /** Where the comparison sends the request. */
  function Verdict(cfg: Config, r: Request, failed: nat): Request {
    if Opens(cfg.ring, r.stored, r.input.pin) then
      r.(pinChecked := Some(true), pc := LoggingIn(LoginReset),
         upgraded := if Stale(cfg, r.stored) then Some(Stored(cfg, r.input)) else None)
    else
      r.(pinChecked := Some(false),
         pc := if failed >= cfg.pinMaxAttempts then LoggingIn(LoginLock)
               else Finished(InvalidPin(cfg.pinMaxAttempts - failed)))
  }

  /** One attempt is taken, then the digits are compared. */
  lemma Attempts(cfg: Config, w: Site, r: Request, n: nat)
    requires n >= 1 && r.pc == LoggingIn(LoginReserve) && MayAttempt(cfg, w.tables.guards, r.account)
    ensures var failed := FailedBefore(w.tables.guards, r.account) + 1;
      var t := w.tables.(guards := w.tables.guards[r.account := GuardRow(failed, None, r.now)]);
      Finish(cfg, w, r, n) == Finish(cfg, w.(tables := t), Verdict(cfg, r, failed), n - 1)
  {
    hide Finish, Step;
    var st := ReserveLoginAttempt(r.account, cfg.pinMaxAttempts, r.now);
    var failed := FailedBefore(w.tables.guards, r.account) + 1;
    var t := w.tables.(guards := w.tables.guards[r.account := GuardRow(failed, None, r.now)]);
    assert Exec(w.tables, st) == (t, LoginAttempt(Some(failed)));
    hide Exec;
    var r' := TrackLogin(cfg, w, r, LoginReserve, n, st, w.(tables := t), LoginAttempt(Some(failed)));
    VerifiesWhenOpen(cfg, r.input, r.stored);
    hide Verify, Opens, Stale, Stored;
  }

  lemma OnePinDecides(cfg: Config, credentials: map<CredentialId, CredentialRow>, c: CredentialId,
      account: AccountId, pin: string)
    requires OnePin(credentials, c, account)
    ensures RightPin(cfg, credentials, account, pin) <==> Opens(cfg.ring, credentials[c].material, pin)
  {
    hide Opens;
  }

  /** A compared PIN, to the end. */
  lemma Compared(cfg: Config, w: Site, r: Request, n: nat)
    requires n >= 5 && r.pc == LoggingIn(LoginReserve) && HoldsDevice(w.tables.devices, r.input, r.now)
    requires OnePin(w.tables.credentials, r.credential, r.account)
    requires r.stored == w.tables.credentials[r.credential].material && MayAttempt(cfg, w.tables.guards, r.account)
    ensures var (w', r') := Finish(cfg, w, r, n);
      && r'.pc.Finished? && Judged(cfg, w, r.input, r.now, r.account, w', r'.pc.response)
      && w'.tables.limits == w.tables.limits && w'.tables.codes == w.tables.codes
  {
    hide Finish, Step, Opens, Stale, Stored, Extended, UsedPins, RightPin, InForce;
    Attempts(cfg, w, r, n);
    OnePinDecides(cfg, w.tables.credentials, r.credential, r.account, r.input.pin);
    var failed := FailedBefore(w.tables.guards, r.account) + 1;
    var t := w.tables.(guards := w.tables.guards[r.account := GuardRow(failed, None, r.now)]);
    var r' := Verdict(cfg, r, failed);
    if r'.pc == LoggingIn(LoginReset) {
      Resets(cfg, w.(tables := t), r', n - 1);
    } else if r'.pc == LoggingIn(LoginLock) {
      Locks(cfg, w.(tables := t), r', n - 1);
    } else {
      Ended(cfg, w.(tables := t), r', n - 1);
    }
  }

  lemma Refuses(cfg: Config, w: Site, r: Request, n: nat)
    requires n >= 1 && r.pc == LoggingIn(LoginReserve) && !MayAttempt(cfg, w.tables.guards, r.account)
    ensures Finish(cfg, w, r, n) == (w, Reply(r, EmailVerificationRequired))
  {
    hide Finish, Step;
    var st := ReserveLoginAttempt(r.account, cfg.pinMaxAttempts, r.now);
    assert Exec(w.tables, st) == (w.tables, LoginAttempt(None));
    hide Exec;
    var r' := TrackLogin(cfg, w, r, LoginReserve, n, st, w, LoginAttempt(None));
    Ended(cfg, w, r', n - 1);
  }

  /** What an answer that compared nothing leaves: the IP counter at most. */
  predicate Untouched(w: Site, w': Site) {
    && w'.minted == w.minted && w'.tables == w.tables.(limits := w'.tables.limits)
  }

  /** From the device on: its account's PIN, and an attempt. */
  ghost predicate OnAccount(cfg: Config, w: Site, input: Input, now: Time, account: AccountId, w': Site, pc: Pc)
    requires input.presented.Some? && input.presented.value.deviceId in w.tables.devices
  {
    && pc.Finished? && w'.tables.limits == w.tables.limits && w'.tables.codes == w.tables.codes
    && if HasPin(w.tables.credentials, account) && MayAttempt(cfg, w.tables.guards, account)
       then Judged(cfg, w, input, now, account, w', pc.response)
       else Untouched(w, w') && pc.response == EmailVerificationRequired
  }

  lemma OneIsThere(credentials: map<CredentialId, CredentialRow>, account: AccountId)
    requires OneLivePin(credentials)
    ensures var active := ActivePin(credentials, account);
      && (active.Some? <==> HasPin(credentials, account))
      && (active.Some? ==> OnePin(credentials, active.value.credentialId, account)
                           && active.value.row == credentials[active.value.credentialId])
  {
    LivePinsInForce(credentials, account);
  }

  lemma Finds(cfg: Config, w: Site, r: Request, n: nat)
    requires n >= 6 && r.pc == LoggingIn(LoginCredential) && HoldsDevice(w.tables.devices, r.input, r.now)
    requires OneLivePin(w.tables.credentials)
    ensures var (w', r') := Finish(cfg, w, r, n); OnAccount(cfg, w, r.input, r.now, r.account, w', r'.pc)
  {
    hide Finish, Step;
    var st := GetActivePin(r.account);
    var (t, a) := Exec(w.tables, st);
    assert t == w.tables && a == Active(ActivePin(w.tables.credentials, r.account));
    hide Exec;
    var r' := TrackLogin(cfg, w, r, LoginCredential, n, st, w, a);
    OneIsThere(w.tables.credentials, r.account);
    hide ActivePin, HasPin, OnePin, OneLivePin, Judged, HoldsDevice;
    if a.active.None? {
      Ended(cfg, w, r', n - 1);
    } else if MayAttempt(cfg, w.tables.guards, r.account) {
      Compared(cfg, w, r', n - 1);
    } else {
      Refuses(cfg, w, r', n - 1);
    }
  }

  /** A device, or none. */
  ghost predicate OnDevice(cfg: Config, w: Site, input: Input, now: Time, w': Site, pc: Pc) {
    if HoldsDevice(w.tables.devices, input, now)
    then OnAccount(cfg, w, input, now, Holder(w.tables.devices, input).accountId, w', pc)
    else w' == w && pc == Finished(EmailVerificationRequired)
  }

  lemma LooksUp(cfg: Config, w: Site, r: Request, n: nat)
    requires n >= 7 && r.pc == LoggingIn(LoginDevice) && r.input.presented.Some? && OneLivePin(w.tables.credentials)
    ensures var (w', r') := Finish(cfg, w, r, n); OnDevice(cfg, w, r.input, r.now, w', r'.pc)
  {
    hide Finish, Step;
    var st := FindDevice(PresentedId(r));
    var (t, a) := Exec(w.tables, st);
    assert t == w.tables && a == Found(Lookup(w.tables.devices, PresentedId(r)));
    hide Exec;
    var r' := TrackLogin(cfg, w, r, LoginDevice, n, st, w, a);
    hide OnAccount, OneLivePin;
    if HoldsDevice(w.tables.devices, r.input, r.now) {
      Finds(cfg, w, r', n - 1);
    } else {
      Ended(cfg, w, r', n - 1);
    }
  }

  // ----- the whole login -----

  /** The IP is let in; from there on it is the device. */
  ghost predicate OnIp(cfg: Config, w: Site, input: Input, now: Time, w': Site, pc: Pc) {
    var limits := IpCounted(w.tables.limits, input, PinLoginIp, now);
    if IpFull(w.tables.limits, input, PinLoginIp, cfg.pinLoginsPerIp, now) then
      && w' == w.(tables := w.tables.(limits := limits)) && pc.Finished? && pc.response.RateLimited?
      && UntilOver(pc.response.retryAfterSec, w.tables.limits, PerIp(PinLoginIp, input.ip.value), HOUR_MS, now)
    else
      OnDevice(cfg, w.(tables := w.tables.(limits := limits)), input, now, w', pc)
  }

  lemma AfterIp(cfg: Config, w: Site, r: Request, n: nat)
    requires n >= 7 && r == AfterLoginIp(r) && !r.pc.LoggingIn? && OneLivePin(w.tables.credentials)
    ensures var (w', r') := Finish(cfg, w, r, n); OnDevice(cfg, w, r.input, r.now, w', r'.pc)
  {
    Ended(cfg, w, r, n);
  }

  lemma CountsIp(cfg: Config, w: Site, r: Request, n: nat)
    requires n >= 8 && r.pc == LoggingIn(LoginIp) && r.input.ip.Some? && OneLivePin(w.tables.credentials)
    ensures var (w', r') := Finish(cfg, w, r, n); OnIp(cfg, w, r.input, r.now, w', r'.pc)
  {
    hide Finish, Step;
    var b := PerIp(PinLoginIp, r.input.ip.value);
    var st := HitRateLimit(b, HOUR_MS, r.now);
    Hit(w.tables, b, HOUR_MS, r.now);
    var (t, a) := Exec(w.tables, st);
    hide Exec;
    var w1 := w.(tables := t);
    var r' := TrackLogin(cfg, w, r, LoginIp, n, st, w1, a);
    RetryWaits(a.hits.windowStart, HOUR_MS, r.now);
    hide OnDevice, OneLivePin, RetryAfterSec, Waits;
    if IpFull(w.tables.limits, r.input, PinLoginIp, cfg.pinLoginsPerIp, r.now) {
      Ended(cfg, w1, r', n - 1);
    } else if r.input.presented.Some? {
      LooksUp(cfg, w1, r', n - 1);
    } else {
      AfterIp(cfg, w1, r', n - 1);
    }
  }

  /**
   * What `/pin/login` answers, and leaves. A session exactly for a right PIN
   * of the device's account whose user is still that account; `invalid_pin`
   * exactly for a wrong one while attempts are left, with their number.
   */
  ghost predicate LoginAnswered(cfg: Config, w: Site, input: Input, now: Time, w': Site, answer: Response) {
    var t := w.tables;
    && (answer == ClientIpRequired <==> NoIp(cfg, input))
    && (answer.RateLimited? <==> IpFull(t.limits, input, PinLoginIp, cfg.pinLoginsPerIp, now))
    && (answer.RateLimited? ==>
          UntilOver(answer.retryAfterSec, t.limits, PerIp(PinLoginIp, input.ip.value), HOUR_MS, now))
    && w'.tables.limits == IpCounted(t.limits, input, PinLoginIp, now) && w'.tables.codes == t.codes
    && (if Compares(cfg, t, input, now) then Judged(cfg, w, input, now, Holder(t.devices, input).accountId, w', answer)
        else Untouched(w, w') && (answer.ClientIpRequired? || answer.RateLimited? || answer == EmailVerificationRequired))
  }

  /** Exactly when a PIN login succeeds, and exactly when it is told its PIN is wrong. */
  lemma LogsInExactlyWhen(cfg: Config, w: Site, input: Input, now: Time, w': Site, answer: Response)
    requires LoginAnswered(cfg, w, input, now, w', answer)
    ensures answer.LoggedIn? <==>
      && Compares(cfg, w.tables, input, now)
      && RightPin(cfg, w.tables.credentials, Holder(w.tables.devices, input).accountId, input.pin)
      && input.resolved == Some(Holder(w.tables.devices, input).accountId)
    ensures answer.LoggedIn? ==> answer == LoggedIn(Holder(w.tables.devices, input).accountId, input.newSession)
    ensures w'.minted != w.minted ==> answer.LoggedIn?
    ensures answer.InvalidPin? <==>
      && Compares(cfg, w.tables, input, now)
      && !RightPin(cfg, w.tables.credentials, Holder(w.tables.devices, input).accountId, input.pin)
      && FailedBefore(w.tables.guards, Holder(w.tables.devices, input).accountId) + 1 < cfg.pinMaxAttempts
    ensures answer.InvalidPin? ==>
      answer.attemptsRemaining
        == cfg.pinMaxAttempts - FailedBefore(w.tables.guards, Holder(w.tables.devices, input).accountId) - 1
  {
    hide RightPin, HasPin;
  }

  lemma IpAnswers(cfg: Config, w: Site, input: Input, now: Time, w': Site, pc: Pc)
    requires !NoIp(cfg, input) && OnIp(cfg, w, input, now, w', pc)
    ensures pc.Finished? && LoginAnswered(cfg, w, input, now, w', pc.response)
  {
    hide UntilOver, RightPin, HasPin, UsedPins, Extended, Failed, IpCounted, IpFull;
  }

  lemma PinLoginAnswers(cfg: Config, w: Site, input: Input, now: Time)
    requires input.route.PinLogin? && OneLivePin(w.tables.credentials)
    ensures var (w', r) := Finish(cfg, w, Begin(cfg, input, now), 9);
      r.pc.Finished? && LoginAnswered(cfg, w, input, now, w', r.pc.response)
  {
    var r := Begin(cfg, input, now);
    hide Finish, Step, OneLivePin, RightPin, HasPin;
    if NoIp(cfg, input) {
      Ended(cfg, w, r, 9);
    } else {
      hide OnDevice, LoginAnswered;
      if input.ip.Some? {
        CountsIp(cfg, w, r, 9);
      } else if input.presented.Some? {
        LooksUp(cfg, w, r, 9);
      } else {
        AfterIp(cfg, w, r, 9);
      }
      IpAnswers(cfg, w, input, now, Finish(cfg, w, r, 9).0, Finish(cfg, w, r, 9).1.pc);
    }
  }
}

/**
 * `/email/start` (src/device-auth/index.ts:776-840), run alone: when a code is
 * sent, which limit refuses it otherwise, and what is counted.
 */
module StartAnswers {
  import opened Basics
  import opened PinCredential
  import opened Tables
  import opened Routes
  import opened Alone
  import opened Answers

  // ----- whose limits -----

  function CooldownOf(payer: Option<DeviceId>, email: Email): Bucket {
    if payer.Some? then CooldownOfDevice(payer.value) else CooldownOfEmail(email)
  }

  function SendsOf(payer: Option<DeviceId>, email: Email): Bucket {
    if payer.Some? then SendsToDevice(payer.value) else SendsToEmail(email)
  }

  predicate Cooling(cfg: Config, limits: map<Bucket, LimitRow>, payer: Option<DeviceId>, email: Email, now: Time) {
    Used(limits, CooldownOf(payer, email), cfg.cooldownMs, now) >= 1
  }

  predicate Capped(cfg: Config, limits: map<Bucket, LimitRow>, payer: Option<DeviceId>, email: Email, now: Time) {
    Used(limits, SendsOf(payer, email), HOUR_MS, now) >= cfg.sendsPerHour
  }

  // ----- what is answered and left -----

  /** The new code, under the current key; a resend before the attempts' deadline keeps both. */
  function NewCode(cfg: Config, codes: map<Email, CodeRow>, input: Input, now: Time): CodeRow {
    var kept := input.email in codes && codes[input.email].attemptsResetAt > now;
    CodeRow(CodeHash(cfg.ring.current.secret, input.email, input.code), cfg.ring.current.keyId,
            if kept then codes[input.email].attempts else 0,
            if kept then codes[input.email].attemptsResetAt else now + cfg.codeTtlMs, now + cfg.codeTtlMs, now)
  }

  /** Sent unless one of the payer's three limits refuses; cooldown and hourly cap count whoever reaches them. */
  ghost predicate OnLimits(cfg: Config, t: Tables, payer: Option<DeviceId>, input: Input, now: Time, t': Tables,
      answer: Response)
  {
    var limits, email := t.limits, input.email;
    var spent, cooling := Spent(cfg, limits, payer, email, now), Cooling(cfg, limits, payer, email, now);
    var capped := Capped(cfg, limits, payer, email, now);
    var cooled := Counting(limits, CooldownOf(payer, email), cfg.cooldownMs, now);
    && (answer == CodeSent <==> !spent && !cooling && !capped)
    && (answer != CodeSent ==>
          && answer.RateLimited?
          && (if spent then UntilOver(answer.retryAfterSec, limits, FailuresOf(payer, email), cfg.failureWindowMs, now)
              else if cooling then UntilOver(answer.retryAfterSec, limits, CooldownOf(payer, email), cfg.cooldownMs, now)
              else UntilOver(answer.retryAfterSec, limits, SendsOf(payer, email), HOUR_MS, now)))
    && t' == t.(limits := if spent then limits else if cooling then cooled
                          else Counting(cooled, SendsOf(payer, email), HOUR_MS, now),
                codes := if answer == CodeSent then t.codes[email := NewCode(cfg, t.codes, input, now)] else t.codes)
  }

  /**
   * What `/email/start` answers, and leaves. Nothing is minted; only counters
   * and, when it is sent, the address's code change.
   */
  ghost predicate StartAnswered(cfg: Config, w: Site, input: Input, now: Time, w': Site, answer: Response) {
    var t, payer := w.tables, Payer(w.tables.devices, input, now);
    && w'.minted == w.minted
    && (answer == ClientIpRequired <==> NoIp(cfg, input))
    && (if NoIp(cfg, input) then w' == w
        else if IpFull(t.limits, input, OtpStart, cfg.startsPerIp, now) then
          && answer.RateLimited?
          && UntilOver(answer.retryAfterSec, t.limits, PerIp(OtpStart, input.ip.value), HOUR_MS, now)
          && w'.tables == t.(limits := IpCounted(t.limits, input, OtpStart, now))
        else
          OnLimits(cfg, t.(limits := IpCounted(t.limits, input, OtpStart, now)), payer, input, now, w'.tables, answer))
  }

  /** A code is sent exactly when no limit is full, each seen as it was stored before the request. */
  lemma SentExactlyWhen(cfg: Config, w: Site, input: Input, now: Time, w': Site, answer: Response)
    requires StartAnswered(cfg, w, input, now, w', answer)
    ensures var limits, payer := w.tables.limits, Payer(w.tables.devices, input, now);
      answer == CodeSent <==>
        && !NoIp(cfg, input) && !IpFull(limits, input, OtpStart, cfg.startsPerIp, now)
        && !Spent(cfg, limits, payer, input.email, now) && !Cooling(cfg, limits, payer, input.email, now)
        && !Capped(cfg, limits, payer, input.email, now)
    ensures answer != CodeSent ==>
      w'.tables.codes == w.tables.codes && (answer.RateLimited? || answer == ClientIpRequired)
  {}

  // ----- statement by statement, from the end -----

  lemma Puts(cfg: Config, w: Site, r: Request, n: nat)
    requires n >= 1 && r.pc == Starting(StartPut)
    ensures var (w', r') := Finish(cfg, w, r, n); var t := w.tables;
      && w' == w.(tables := t.(codes := t.codes[r.input.email := NewCode(cfg, t.codes, r.input, r.now)]))
      && r'.pc == Finished(CodeSent)
  {
    hide Finish, Step;
    var issue := CodeIssue(r.input.email, CodeHash(cfg.ring.current.secret, r.input.email, r.input.code),
                           cfg.ring.current.keyId, r.now + cfg.codeTtlMs, r.now, r.now + cfg.codeTtlMs);
    var (t, a) := Exec(w.tables, PutEmailCode(issue));
    assert t == w.tables.(codes := w.tables.codes[r.input.email := NewCode(cfg, w.tables.codes, r.input, r.now)]);
    var r' := TrackStart(cfg, w, r, StartPut, n, PutEmailCode(issue), w.(tables := t), a);
    Ended(cfg, w.(tables := t), r', n - 1);
  }

  /** The hourly cap, and the code. */
  ghost predicate OnCap(cfg: Config, t: Tables, payer: Option<DeviceId>, input: Input, now: Time, t': Tables,
      answer: Response)
  {
    var sends, capped := SendsOf(payer, input.email), Capped(cfg, t.limits, payer, input.email, now);
    && (answer == CodeSent <==> !capped)
    && (capped ==> answer.RateLimited? && UntilOver(answer.retryAfterSec, t.limits, sends, HOUR_MS, now))
    && t' == t.(limits := Counting(t.limits, sends, HOUR_MS, now),
                codes := if capped then t.codes else t.codes[input.email := NewCode(cfg, t.codes, input, now)])
  }

  lemma Caps(cfg: Config, w: Site, r: Request, n: nat)
    requires n >= 2 && r.pc == Starting(StartHourly)
    ensures var (w', r') := Finish(cfg, w, r, n);
      && w'.minted == w.minted && r'.pc.Finished?
      && OnCap(cfg, w.tables, r.budgetDevice, r.input, r.now, w'.tables, r'.pc.response)
  {
    hide Finish, Step;
    var b := SendsOf(r.budgetDevice, r.input.email);
    var st := HitRateLimit(b, HOUR_MS, r.now);
    Hit(w.tables, b, HOUR_MS, r.now);
    var (t, a) := Exec(w.tables, st);
    hide Exec, NewCode;
    var r' := TrackStart(cfg, w, r, StartHourly, n, st, w.(tables := t), a);
    RetryWaits(a.hits.windowStart, HOUR_MS, r.now);
    hide RetryAfterSec, Waits;
    if Capped(cfg, w.tables.limits, r.budgetDevice, r.input.email, r.now) {
      Ended(cfg, w.(tables := t), r', n - 1);
    } else {
      Puts(cfg, w.(tables := t), r', n - 1);
    }
  }

  /** The cooldown, and what follows it. */
  ghost predicate OnCooldown(cfg: Config, t: Tables, payer: Option<DeviceId>, input: Input, now: Time, t': Tables,
      answer: Response)
  {
    var b := CooldownOf(payer, input.email);
    var cooled := t.(limits := Counting(t.limits, b, cfg.cooldownMs, now));
    if Cooling(cfg, t.limits, payer, input.email, now) then
      answer.RateLimited? && UntilOver(answer.retryAfterSec, t.limits, b, cfg.cooldownMs, now) && t' == cooled
    else OnCap(cfg, cooled, payer, input, now, t', answer)
  }

  lemma Cools(cfg: Config, w: Site, r: Request, n: nat)
    requires n >= 3 && r.pc == Starting(StartCooldown)
    ensures var (w', r') := Finish(cfg, w, r, n);
      && w'.minted == w.minted && r'.pc.Finished?
      && OnCooldown(cfg, w.tables, r.budgetDevice, r.input, r.now, w'.tables, r'.pc.response)
  {
    hide Finish, Step, OnCap;
    var b := CooldownOf(r.budgetDevice, r.input.email);
    var st := HitRateLimit(b, cfg.cooldownMs, r.now);
    Hit(w.tables, b, cfg.cooldownMs, r.now);
    var (t, a) := Exec(w.tables, st);
    hide Exec;
    var r' := TrackStart(cfg, w, r, StartCooldown, n, st, w.(tables := t), a);
    RetryWaits(a.hits.windowStart, cfg.cooldownMs, r.now);
    hide RetryAfterSec, Waits;
    if Cooling(cfg, w.tables.limits, r.budgetDevice, r.input.email, r.now) {
      Ended(cfg, w.(tables := t), r', n - 1);
    } else {
      Caps(cfg, w.(tables := t), r', n - 1);
    }
  }

  /** The two counters are different rows: counting on one leaves the other as it was. */
  lemma CooledIsLimits(cfg: Config, t: Tables, payer: Option<DeviceId>, input: Input, now: Time, t': Tables,
      answer: Response)
    requires !Spent(cfg, t.limits, payer, input.email, now) && OnCooldown(cfg, t, payer, input, now, t', answer)
    ensures OnLimits(cfg, t, payer, input, now, t', answer)
  {
    hide NewCode, Waits;
  }

  lemma Spends(cfg: Config, w: Site, r: Request, n: nat)
    requires n >= 4 && r.pc == Starting(StartBudget)
    ensures var (w', r') := Finish(cfg, w, r, n);
      && w'.minted == w.minted && r'.pc.Finished?
      && OnLimits(cfg, w.tables, r.budgetDevice, r.input, r.now, w'.tables, r'.pc.response)
  {
    hide Finish, Step, OnCooldown;
    var b := FailuresOf(r.budgetDevice, r.input.email);
    var st := ReadRateLimit(b, cfg.failureWindowMs, r.now);
    Read(w.tables, b, cfg.failureWindowMs, r.now);
    var (t, a) := Exec(w.tables, st);
    hide Exec;
    var r' := TrackStart(cfg, w, r, StartBudget, n, st, w, a);
    RetryWaits(a.hits.windowStart, cfg.failureWindowMs, r.now);
    hide RetryAfterSec, Waits, NewCode;
    if Spent(cfg, w.tables.limits, r.budgetDevice, r.input.email, r.now) {
      Ended(cfg, w, r', n - 1);
    } else {
      Cools(cfg, w, r', n - 1);
      var (w', r'') := Finish(cfg, w, r', n - 1);
      hide OnLimits;
      CooledIsLimits(cfg, w.tables, r.budgetDevice, r.input, r.now, w'.tables, r''.pc.response);
    }
  }

  lemma LooksUp(cfg: Config, w: Site, r: Request, n: nat)
    requires n >= 5 && r.pc == AfterStartIp(r).pc && r.budgetDevice.None?
    ensures var (w', r') := Finish(cfg, w, r, n);
      && w'.minted == w.minted && r'.pc.Finished?
      && OnLimits(cfg, w.tables, Payer(w.tables.devices, r.input, r.now), r.input, r.now, w'.tables, r'.pc.response)
  {
    hide Finish, Step, OnLimits;
    if r.input.presented.None? {
      Spends(cfg, w, r, n);
    } else {
      var st := FindDevice(PresentedId(r));
      var (t, a) := Exec(w.tables, st);
      assert t == w.tables && a == Found(Lookup(w.tables.devices, PresentedId(r)));
      hide Exec;
      var r' := TrackStart(cfg, w, r, StartDevice, n, st, w, a);
      Spends(cfg, w, r', n - 1);
    }
  }

  lemma SentOrRefused(cfg: Config, t: Tables, payer: Option<DeviceId>, input: Input, now: Time, t': Tables,
      answer: Response)
    requires OnLimits(cfg, t, payer, input, now, t', answer)
    ensures answer == CodeSent || answer.RateLimited?
  {}

  lemma CountsIp(cfg: Config, w: Site, r: Request, n: nat)
    requires n >= 6 && r.pc == Starting(StartIp) && r.input.ip.Some? && r.budgetDevice.None?
    ensures var (w', r') := Finish(cfg, w, r, n);
      r'.pc.Finished? && StartAnswered(cfg, w, r.input, r.now, w', r'.pc.response)
  {
    hide Finish, Step;
    var b := PerIp(OtpStart, r.input.ip.value);
    var st := HitRateLimit(b, HOUR_MS, r.now);
    Hit(w.tables, b, HOUR_MS, r.now);
    var (t, a) := Exec(w.tables, st);
    hide Exec;
    var w1 := w.(tables := t);
    var r' := TrackStart(cfg, w, r, StartIp, n, st, w1, a);
    RetryWaits(a.hits.windowStart, HOUR_MS, r.now);
    hide RetryAfterSec, Waits, OnLimits, Payer;
    if IpFull(w.tables.limits, r.input, OtpStart, cfg.startsPerIp, r.now) {
      Ended(cfg, w1, r', n - 1);
    } else {
      LooksUp(cfg, w1, r', n - 1);
      var (w', last) := Finish(cfg, w1, r', n - 1);
      var payer := Payer(w1.tables.devices, r.input, r.now);
      SentOrRefused(cfg, w1.tables, payer, r.input, r.now, w'.tables, last.pc.response);
    }
  }

  lemma EmailStartAnswers(cfg: Config, w: Site, input: Input, now: Time)
    requires input.route.EmailStart?
    ensures var (w', r) := Finish(cfg, w, Begin(cfg, input, now), 6);
      r.pc.Finished? && StartAnswered(cfg, w, input, now, w', r.pc.response)
  {
    hide Finish, Step, OnLimits, Payer;
    var r := Begin(cfg, input, now);
    if NoIp(cfg, input) {
      Ended(cfg, w, r, 6);
    } else if input.ip.Some? {
      CountsIp(cfg, w, r, 6);
    } else {
      LooksUp(cfg, w, r, 6);
      var (w', last) := Finish(cfg, w, r, 6);
      SentOrRefused(cfg, w.tables, Payer(w.tables.devices, input, now), input, now, w'.tables, last.pc.response);
    }
  }
}

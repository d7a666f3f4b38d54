/**
 * `/pin` (src/device-auth/index.ts:973-1027), run alone: who may set a PIN,
 * what the replacement leaves, and who is signed out.
 */
module PinAnswers {
  import opened Basics
  import opened PinCredential
  import opened Tables
  import opened Routes
  import opened Alone
  import opened Answers
  import opened StatementFacts

  /** A session whose email was verified at most `freshMs` ago. */
  predicate MaySet(cfg: Config, w: Site, input: Input, now: Time) {
    && input.session in w.minted && w.minted[input.session].emailVerifiedAt.Some?
    && now <= w.minted[input.session].emailVerifiedAt.value + cfg.freshMs
  }

  /** Signed out everywhere: the user's sessions are gone, and no one else's. */
  ghost predicate SignedOut(minted: map<SessionId, Session>, minted': map<SessionId, Session>, user: AccountId) {
    && (forall sid :: sid in minted' <==> sid in minted && minted[sid].userId != user)
    && (forall sid :: sid in minted' ==> minted'[sid] == minted[sid])
  }

  function PinOf(cfg: Config, session: Session, input: Input, now: Time): NewPin {
    NewPin(input.newCredential, session.userId, Stored(cfg, input), now)
  }

  /** The PIN is stored; if it took the place of one, and the option is on, the user is signed out everywhere. */
  ghost predicate PinSet(cfg: Config, w: Site, session: Session, input: Input, now: Time, w': Site, answer: Response) {
    var changed := HasPin(w.tables.credentials, session.userId) && cfg.revokeOthersOnChange;
    && answer == PinStored(changed)
    && (if changed then SignedOut(w.minted, w'.minted, session.userId) else w'.minted == w.minted)
    && BatchDone(w.tables, w'.tables, PinOf(cfg, session, input, now), true,
                 if cfg.revokeOthersOnChange then Some(session.deviceId) else None,
                 Replacement(HasPin(w.tables.credentials, session.userId),
                             if changed then TakenCount(w.tables.devices, session.userId, session.deviceId) else 0))
  }

  /** What `/pin` answers, and leaves; no answer when the credential id it draws is taken, and the batch throws. */
  ghost predicate SetPinAnswered(cfg: Config, w: Site, input: Input, now: Time, w': Site, answer: Option<Response>) {
    && (answer == Some(Unauthenticated) <==> input.session !in w.minted)
    && (answer == Some(EmailVerificationRequired) <==> input.session in w.minted && !MaySet(cfg, w, input, now))
    && (answer == None <==> MaySet(cfg, w, input, now) && input.newCredential in w.tables.credentials)
    && if MaySet(cfg, w, input, now) && input.newCredential !in w.tables.credentials
       then answer.Some? && PinSet(cfg, w, w.minted[input.session], input, now, w', answer.value)
       else w' == w && (answer.Some? ==> answer.value.Unauthenticated? || answer.value.EmailVerificationRequired?)
  }

  // ----- statement by statement, from the end -----

  lemma SignsOut(cfg: Config, w: Site, r: Request, n: nat)
    requires n >= 1 && r.pc == SettingPin(PinEndSessions)
    ensures var (w', r') := Finish(cfg, w, r, n);
      && w'.tables == w.tables && SignedOut(w.minted, w'.minted, r.account) && r'.pc == Finished(PinStored(true))
  {
    var (w', r') := Step(cfg, w, r);
    assert SignedOut(w.minted, w'.minted, r.account);
    Ended(cfg, w', r', n - 1);
  }

  lemma Replaces(cfg: Config, w: Site, r: Request, n: nat)
    requires n >= 2 && r.pc == SettingPin(PinReplace) && r.session.Some?
    requires r.account == r.session.value.userId && r.device == r.session.value.deviceId
    ensures var (w', r') := Finish(cfg, w, r, n);
      if r.input.newCredential in w.tables.credentials then w' == w && r'.pc == Crashed
      else r'.pc.Finished? && PinSet(cfg, w, r.session.value, r.input, r.now, w', r'.pc.response)
  {
    hide Finish, Step;
    var pin := PinOf(cfg, r.session.value, r.input, r.now);
    var others := if cfg.revokeOthersOnChange then Some(r.device) else None;
    var st := ReplaceCredential(pin, true, others);
    var (t, a) := Exec(w.tables, st);
    PinReplaced(w.tables, pin, true, others);
    hide Exec, PinChanged, OnlyTaken, TakenCount, HasPin;
    var w1 := w.(tables := t);
    var r' := TrackSetPin(cfg, w, r, PinReplace, n, st, w1, a);
    if r'.pc == SettingPin(PinEndSessions) {
      SignsOut(cfg, w1, r', n - 1);
    } else {
      Ended(cfg, w1, r', n - 1);
    }
  }

  lemma SetPinAnswers(cfg: Config, w: Site, input: Input, now: Time)
    requires input.route.SetPin?
    ensures var (w', r) := Finish(cfg, w, Begin(cfg, input, now), 3);
      Over(r) && SetPinAnswered(cfg, w, input, now, w', Told(r))
  {
    var r := Begin(cfg, input, now);
    var (w', r') := Step(cfg, w, r);
    assert Finish(cfg, w, r, 3) == Finish(cfg, w', r', 2);
    hide Finish, Step, PinSet;
    if MaySet(cfg, w, input, now) {
      Replaces(cfg, w, r', 2);
    } else {
      Ended(cfg, w, r', 2);
    }
  }
}

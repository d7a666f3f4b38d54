/**
 * One request run alone: every statement answered at once, with nothing in
 * between. What the handlers of src/device-auth/index.ts are compared with.
 */
module Alone {
  import opened Basics
  import opened PinCredential
  import opened Tables
  import opened Routes

  /** The tables, and the sessions minted. */
  datatype Site = Site(tables: Tables, minted: map<SessionId, Session>)

  /** One statement, or one call of the session store, answered at once. */
  ghost function Step(cfg: Config, w: Site, r: Request): (Site, Request) {
    match Emit(cfg, r)
    case Db(st) => var (t, a) := Exec(w.tables, st); (w.(tables := t), ResumeDb(cfg, r, a))
    case ReadSession(sid) => (w, ResumePinSession(cfg, r, Lookup(w.minted, sid)))
    case MintSession(sid, session) => (w.(minted := w.minted[sid := session]), ResumeAcknowledged(r))
    case EndSessions(account) =>
      (w.(minted := map sid | sid in w.minted && w.minted[sid].userId != account :: w.minted[sid]), ResumeAcknowledged(r))
    case NoCall => (w, r)
  }

  predicate Over(r: Request) { r.pc.Finished? || r.pc.Crashed? }

  /** The answer of a request that is over; none if it threw. */
  function Told(r: Request): Option<Response> { if r.pc.Finished? then Some(r.pc.response) else None }

  /** The program of a request, run alone to its end, or for `n` answers. */
  ghost function Finish(cfg: Config, w: Site, r: Request, n: nat): (Site, Request)
    decreases n
  {
    if n == 0 || Over(r) then (w, r)
    else var (w', r') := Step(cfg, w, r); Finish(cfg, w', r', n - 1)
  }

  /** The program ends with this response, leaving this site. */
  ghost predicate Ends(cfg: Config, w: Site, r: Request, n: nat, w': Site, response: Response) {
    var (end, last) := Finish(cfg, w, r, n); end == w' && last.pc == Finished(response)
  }

  /** The same, for a program that may also throw: no response then. */
  ghost predicate Runs(cfg: Config, w: Site, r: Request, n: nat, w': Site, response: Option<Response>) {
    var (end, last) := Finish(cfg, w, r, n);
    end == w' && (if response.Some? then last.pc == Finished(response.value) else last.pc == Crashed)
  }

  /** A request that is over stays as it is. */
  lemma Ended(cfg: Config, w: Site, r: Request, n: nat)
    requires Over(r)
    ensures Finish(cfg, w, r, n) == (w, r)
  {}

  /** One answered statement on the way, for each stretch of the routes. */
  lemma TrackStart(cfg: Config, w: Site, r: Request, at: StartPc, n: nat, st: Statement, w': Site, a: Result)
    returns (r': Request)
    requires r.pc == Starting(at) && EmitStart(cfg, r, at) == Db(st) && n > 0
    requires (w'.tables, a) == Exec(w.tables, st) && w'.minted == w.minted
    ensures r' == ResumeStart(cfg, r, at, a) && Finish(cfg, w, r, n) == Finish(cfg, w', r', n - 1)
  {
    r' := ResumeStart(cfg, r, at, a);
  }

  lemma TrackGate(cfg: Config, w: Site, r: Request, at: GatePc, n: nat, st: Statement, w': Site, a: Result)
    returns (r': Request)
    requires r.pc == Gating(at) && EmitGate(cfg, r, at) == Db(st) && n > 0
    requires (w'.tables, a) == Exec(w.tables, st) && w'.minted == w.minted
    ensures r' == ResumeGate(cfg, r, at, a) && Finish(cfg, w, r, n) == Finish(cfg, w', r', n - 1)
  {
    r' := ResumeGate(cfg, r, at, a);
  }

  lemma TrackGuess(cfg: Config, w: Site, r: Request, at: GuessPc, n: nat, st: Statement, w': Site, a: Result)
    returns (r': Request)
    requires r.pc == Guessing(at) && EmitGuess(cfg, r, at) == Db(st) && n > 0
    requires (w'.tables, a) == Exec(w.tables, st) && w'.minted == w.minted
    ensures r' == ResumeGuess(cfg, r, at, a) && Finish(cfg, w, r, n) == Finish(cfg, w', r', n - 1)
  {
    r' := ResumeGuess(cfg, r, at, a);
  }

  lemma TrackEnter(cfg: Config, w: Site, r: Request, at: EnterPc, n: nat, st: Statement, w': Site, a: Result)
    returns (r': Request)
    requires r.pc == Entering(at) && EmitEnter(cfg, r, at) == Db(st) && n > 0
    requires (w'.tables, a) == Exec(w.tables, st) && w'.minted == w.minted
    ensures r' == ResumeEnter(r, at, a) && Finish(cfg, w, r, n) == Finish(cfg, w', r', n - 1)
  {
    r' := ResumeEnter(r, at, a);
  }

  lemma TrackSetPin(cfg: Config, w: Site, r: Request, at: PinPc, n: nat, st: Statement, w': Site, a: Result)
    returns (r': Request)
    requires r.pc == SettingPin(at) && EmitSetPin(cfg, r, at) == Db(st) && n > 0
    requires (w'.tables, a) == Exec(w.tables, st) && w'.minted == w.minted
    ensures r' == ResumeSetPin(cfg, r, at, a) && Finish(cfg, w, r, n) == Finish(cfg, w', r', n - 1)
  {
    r' := ResumeSetPin(cfg, r, at, a);
  }

  lemma TrackLogin(cfg: Config, w: Site, r: Request, at: LoginPc, n: nat, st: Statement, w': Site, a: Result)
    returns (r': Request)
    requires r.pc == LoggingIn(at) && EmitLogin(cfg, r, at) == Db(st) && n > 0
    requires (w'.tables, a) == Exec(w.tables, st) && w'.minted == w.minted
    ensures r' == ResumeLogin(cfg, r, at, a) && Finish(cfg, w, r, n) == Finish(cfg, w', r', n - 1)
  {
    r' := ResumeLogin(cfg, r, at, a);
  }
}

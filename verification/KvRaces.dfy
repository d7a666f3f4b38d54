/**
 * Why the KV store keeps two keys (src/store/kv.ts:151-271): without any
 * revocation list, over a KV that serialises its operations, no touch in
 * flight brings a revoked session back, wherever its write lands.
 */
module KvRaces {
  import opened Basics
  import opened Sessions

  /** A call in progress, between its KV operations. `late`: it began after the session's record had been deleted. */
  datatype Flight =
    | Creating(h: SidHash, n: NewSession, at: Time)
    | Touching(h: SidHash, seen: Marker)
    | Revoking(h: SidHash)
    | Getting(h: SidHash, at: Time, late: bool, record: Option<Option<Stored>>, marker: Option<Option<Marker>>)
    | Got(h: SidHash, late: bool, answer: KvAnswer)
    | Done

  /** `drawn`: ids ever drawn; `gone`: ids whose record a revocation or an expired get has deleted. */
  datatype Store = Store(
    records: map<SidHash, Stored>, markers: map<SidHash, Marker>, flights: map<nat, Flight>, drawn: set<SidHash>, gone: set<SidHash>)

  const Empty := Store(map[], map[], map[], {}, {})

  datatype Op =
    | Begin(id: nat, call: Flight)
    | PutRecord(id: nat)
    | PutMarker(id: nat)
    | DeleteRecord(id: nat)
    | DeleteMarker(id: nat)
    | ReadRecord(id: nat)
    | ReadMarker(id: nat)
    | Answer(id: nat)
    | Finish(id: nat)
    | KvDrops(h: SidHash, record: bool)

  /** The id's record has been stored: no create of it is in flight. */
  predicate Settled(s: Store, h: SidHash) {
    h in s.drawn && forall id :: id in s.flights && s.flights[id].Creating? ==> s.flights[id].h != h
  }

  /** A session id is drawn once, and known to anyone else only when its record is stored. */
  predicate MayBegin(s: Store, call: Flight) {
    match call
    case Creating(h, _, _) => h !in s.drawn
    case Touching(_, _) => true
    case Revoking(h) => Settled(s, h)
    case Getting(h, _, late, record, marker) => late == (h in s.gone) && record.None? && marker.None?
    case _ => false
  }

  /** A revoke deletes both keys; so does a get that found the session expired. */
  predicate Deletes(f: Flight) { f.Revoking? || (f.Got? && f.answer.forget) }

  predicate Enabled(s: Store, op: Op) {
    match op
    case Begin(id, call) => id !in s.flights && MayBegin(s, call)
    case PutRecord(id) => id in s.flights && s.flights[id].Creating?
    case PutMarker(id) => id in s.flights && s.flights[id].Touching?
    case DeleteRecord(id) => id in s.flights && Deletes(s.flights[id])
    case DeleteMarker(id) => id in s.flights && Deletes(s.flights[id])
    case ReadRecord(id) => id in s.flights && s.flights[id].Getting? && s.flights[id].record.None?
    case ReadMarker(id) => id in s.flights && s.flights[id].Getting? && s.flights[id].marker.None?
    case Answer(id) => id in s.flights && s.flights[id].Getting? && s.flights[id].record.Some? && s.flights[id].marker.Some?
    case Finish(id) => id in s.flights && (s.flights[id].Revoking? || s.flights[id].Touching?)
    case KvDrops(_, _) => true
  }

  function Next(s: Store, op: Op): Store
    requires Enabled(s, op)
  {
    match op
    case Begin(id, call) =>
      s.(flights := s.flights[id := call], drawn := if call.Creating? then s.drawn + {call.h} else s.drawn)
    case PutRecord(id) =>
      var f := s.flights[id]; s.(records := s.records[f.h := NewRecord(f.n, f.at)], flights := s.flights[id := Done])
    case PutMarker(id) =>
      var f := s.flights[id]; s.(markers := s.markers[f.h := f.seen], flights := s.flights[id := Done])
    case DeleteRecord(id) => s.(records := s.records - {s.flights[id].h}, gone := s.gone + {s.flights[id].h})
    case DeleteMarker(id) => s.(markers := s.markers - {s.flights[id].h})
    case ReadRecord(id) =>
      var f := s.flights[id]; s.(flights := s.flights[id := f.(record := Some(Lookup(s.records, f.h)))])
    case ReadMarker(id) =>
      var f := s.flights[id]; s.(flights := s.flights[id := f.(marker := Some(Lookup(s.markers, f.h)))])
    case Answer(id) =>
      var f := s.flights[id];
      s.(flights := s.flights[id := Got(f.h, f.late, KvGet(f.record.value, f.marker.value, None, f.h, f.at, f.at))])
    case Finish(id) => s.(flights := s.flights[id := Done])
    case KvDrops(h, record) => if record then s.(records := s.records - {h}) else s.(markers := s.markers - {h})
  }

  predicate IsRun(s: Store, ops: seq<Op>)
    decreases |ops|
  {
    ops == [] || (Enabled(s, ops[0]) && IsRun(Next(s, ops[0]), ops[1..]))
  }

  function After(s: Store, ops: seq<Op>): Store
    requires IsRun(s, ops)
    decreases |ops|
  {
    if ops == [] then s else After(Next(s, ops[0]), ops[1..])
  }

  /** One create at most can ever write a record key; once the record was there, none is left to. */
  ghost predicate StoreOk(s: Store) {
    && s.records.Keys <= s.drawn && s.gone <= s.drawn && s.gone !! s.records.Keys
    && (forall id :: id in s.flights ==> FlightOk(s, s.flights[id]))
    && (forall i, j :: i in s.flights && j in s.flights && i != j && s.flights[i].Creating? && s.flights[j].Creating? ==>
          s.flights[i].h != s.flights[j].h)
  }

  predicate FlightOk(s: Store, f: Flight) {
    match f
    case Creating(h, _, _) => h in s.drawn && h !in s.gone && h !in s.records
    case Revoking(h) => Settled(s, h)
    case Getting(h, _, late, record, _) =>
      (late ==> h in s.gone && (record.None? || record == Some(None)))
      && (record.Some? && record.value.Some? ==> Settled(s, h))
    case Got(h, late, answer) => (late ==> answer == KvAnswer(None, false)) && (answer.forget ==> Settled(s, h))
    case _ => true
  }

  lemma StoreStep(s: Store, op: Op)
    requires StoreOk(s) && Enabled(s, op)
    ensures StoreOk(Next(s, op)) && s.gone <= Next(s, op).gone
  {
    var s' := Next(s, op);
    forall id | id in s'.flights ensures FlightOk(s', s'.flights[id]) {
      if id in s.flights { assert FlightOk(s, s.flights[id]); }
    }
  }

  lemma {:induction false} StoreRun(s: Store, ops: seq<Op>)
    requires StoreOk(s) && IsRun(s, ops)
    ensures StoreOk(After(s, ops)) && s.gone <= After(s, ops).gone
    decreases |ops|
  {
    if ops != [] {
      StoreStep(s, ops[0]);
      StoreRun(Next(s, ops[0]), ops[1..]);
    }
  }

  /**
   * In every interleaving of creates, touches, gets, revokes and KV expiry:
   * once a session's record has been deleted it is never stored again, and
   * every get that began after that answers nothing, wherever touches landed.
   */
  lemma NoTouchResurrects(ops: seq<Op>, h: SidHash, id: nat)
    requires IsRun(Empty, ops)
    ensures var s := After(Empty, ops);
      && (h in s.gone ==> h !in s.records)
      && (id in s.flights && s.flights[id].Got? && s.flights[id].late ==> s.flights[id].answer.session.None?)
  {
    StoreRun(Empty, ops);
    var s := After(Empty, ops);
    if id in s.flights { assert FlightOk(s, s.flights[id]); }
  }

  /** And from then on, forever: what was deleted stays deleted in every longer run. */
  lemma GoneForGood(before: seq<Op>, after: seq<Op>, h: SidHash)
    requires IsRun(Empty, before) && h in After(Empty, before).gone && IsRun(After(Empty, before), after)
    ensures h !in After(After(Empty, before), after).records
  {
    StoreRun(Empty, before);
    StoreRun(After(Empty, before), after);
  }
}

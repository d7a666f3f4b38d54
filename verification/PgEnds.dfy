/** Every run of PIN replacements on Postgres is short, and with the lock every one can be finished. */
module PgEnds {
  import opened Basics
  import opened PinCredential
  import opened Tables
  import opened PgReplace
  import opened PgSerial
  import opened PgOrder

  // ----- a sum over a map -----

  ghost function Sum(m: map<nat, nat>): nat
    decreases |m|
  {
    if m == map[] then 0
    else
      var k := Pick(m.Keys);
      Fewer(m, k);
      m[k] + Sum(m - {k})
  }

  lemma Fewer(m: map<nat, nat>, k: nat)
    requires k in m
    ensures |m - {k}| < |m|
  {
    assert (m - {k}).Keys == m.Keys - {k} && k in m.Keys;
  }

  lemma {:induction false} SumSplits(m: map<nat, nat>, k: nat)
    requires k in m
    ensures Sum(m) == m[k] + Sum(m - {k})
    decreases |m|
  {
    var first := Pick(m.Keys);
    if first != k {
      Fewer(m, first);
      Fewer(m, k);
      SumSplits(m - {first}, k);
      SumSplits(m - {k}, first);
      assert m - {first} - {k} == m - {k} - {first};
    }
  }

  lemma SumChanges(m: map<nat, nat>, k: nat, v: nat)
    requires k in m
    ensures Sum(m[k := v]) == Sum(m) - m[k] + v
  {
    SumSplits(m, k);
    SumSplits(m[k := v], k);
    assert m[k := v] - {k} == m - {k};
  }

  lemma {:induction false} SumOfEqual(m: map<nat, nat>, v: nat)
    requires forall k :: k in m ==> m[k] == v
    ensures Sum(m) == |m| * v
    decreases |m|
  {
    if m != map[] {
      var k := Pick(m.Keys);
      Fewer(m, k);
      SumOfEqual(m - {k}, v);
      assert (m - {k}).Keys == m.Keys - {k};
      assert |m| * v == (|m| - 1) * v + v;
    }
  }

  // ----- the work left -----

  /** No statement takes more rows than these. */
  function MostRows(u: Setup, t: Tables): nat { |t.devices| + |t.credentials| + |u.jobs| }

  function Work(most: nat, stage: Stage): nat { (6 - Place(stage)) * (most + 1) + RowsLeft(stage) }

  function WorkLeft(most: nat, s: PgState): map<nat, nat> { map i | i in s.txs :: Work(most, s.txs[i].stage) }

  /** The tables never hold more rows than at the start, plus one credential per call. */
  ghost predicate Bounded(u: Setup, t: Tables, s: PgState) {
    && WellFormed(u, s) && s.committed.devices.Keys == t.devices.Keys
    && s.committed.credentials.Keys <= t.credentials.Keys + NewIds(u)
  }

  ghost function NewIds(u: Setup): set<CredentialId> { set i | i in u.jobs :: u.jobs[i].pin.credentialId }

  lemma {:induction false} ImageNoLarger(jobs: map<nat, Job>, ids: set<CredentialId>)
    requires ids == set i | i in jobs :: jobs[i].pin.credentialId
    ensures |ids| <= |jobs|
    decreases |jobs|
  {
    if jobs != map[] {
      var k := Pick(jobs.Keys);
      var rest := jobs - {k};
      var restIds := set i | i in rest :: rest[i].pin.credentialId;
      assert rest.Keys == jobs.Keys - {k} && k in jobs.Keys;
      ImageNoLarger(rest, restIds);
      forall x | x in ids ensures x in restIds + {jobs[k].pin.credentialId} {
        var i :| i in jobs && x == jobs[i].pin.credentialId;
        assert i == k || (i in rest && x == rest[i].pin.credentialId);
      }
      assert ids <= restIds + {jobs[k].pin.credentialId};
      Subset(ids, restIds + {jobs[k].pin.credentialId});
    }
  }

  lemma ScansFit(u: Setup, t: Tables, s: PgState, step: Step)
    requires Bounded(u, t, s) && Enabled(u, s, step)
    ensures step.ScanDevices? || step.ScanPins? ==> RowsLeft(StepTx(u, s, step).stage) <= MostRows(u, t)
  {
    var job := u.jobs[step.id];
    if step.ScanDevices? {
      Subset(DevicesToRevoke(s.committed, job), t.devices.Keys);
    } else if step.ScanPins? {
      Subset(LivePins(s.committed.credentials, job.pin.accountId), t.credentials.Keys + NewIds(u));
      ImageNoLarger(u.jobs, NewIds(u));
    }
  }

  lemma OtherStages(u: Setup, s: PgState, step: Step)
    requires Enabled(u, s, step) && !step.ScanDevices? && !step.ScanPins?
    ensures RowsLeft(StepTx(u, s, step).stage) == 0 || Place(StepTx(u, s, step).stage) == Place(s.txs[step.id].stage)
  {
    hide LivePins, Revocable, Conflicts, Held;
  }

  lemma StaysBounded(u: Setup, t: Tables, s: PgState, step: Step)
    requires Bounded(u, t, s) && Enabled(u, s, step)
    ensures Bounded(u, t, Next(u, s, step))
  {
    hide StepTx, Held;
  }

  lemma StageMoves(u: Setup, t: Tables, s: PgState, step: Step)
    requires Bounded(u, t, s) && Enabled(u, s, step)
    ensures var was, next := s.txs[step.id].stage, StepTx(u, s, step).stage;
      && (Place(next) > Place(was) || (Place(next) == Place(was) && RowsLeft(next) < RowsLeft(was)))
      && (RowsLeft(next) <= MostRows(u, t) || Place(next) == Place(was))
  {
    hide StepTx, Place, RowsLeft, Bounded, MostRows;
    StepsAdvance(u, s, step);
    if step.ScanDevices? || step.ScanPins? { ScansFit(u, t, s, step); } else { OtherStages(u, s, step); }
  }

  /** Every statement leaves less to do. */
  lemma WorkShrinks(u: Setup, t: Tables, s: PgState, step: Step)
    requires Bounded(u, t, s) && Enabled(u, s, step)
    ensures Sum(WorkLeft(MostRows(u, t), Next(u, s, step))) < Sum(WorkLeft(MostRows(u, t), s))
  {
    assert step.id in s.txs;
    hide StepTx, Enabled, Sum, Place, RowsLeft, Work, Bounded, MostRows;
    var most, s' := MostRows(u, t), Next(u, s, step);
    var was, next := s.txs[step.id].stage, s'.txs[step.id].stage;
    StageMoves(u, t, s, step);
    LessWork(most, was, next);
    assert WorkLeft(most, s') == WorkLeft(most, s)[step.id := Work(most, next)];
    SumChanges(WorkLeft(most, s), step.id, Work(most, next));
  }

  lemma LessWork(most: nat, was: Stage, next: Stage)
    requires Place(next) > Place(was) || (Place(next) == Place(was) && RowsLeft(next) < RowsLeft(was))
    requires RowsLeft(next) <= most || Place(next) == Place(was)
    ensures Work(most, next) < Work(most, was)
  {
    hide Place, RowsLeft;
    if Place(next) > Place(was) {
      assert (6 - Place(was)) * (most + 1) >= (6 - Place(next) + 1) * (most + 1);
      assert (6 - Place(next) + 1) * (most + 1) == (6 - Place(next)) * (most + 1) + most + 1;
    }
  }

  lemma {:induction false} StepsAreWork(u: Setup, t: Tables, s: PgState, steps: seq<Step>)
    requires Bounded(u, t, s) && IsRun(u, s, steps)
    ensures |steps| + Sum(WorkLeft(MostRows(u, t), After(u, s, steps))) <= Sum(WorkLeft(MostRows(u, t), s))
    decreases |steps|
  {
    hide Next, Enabled, Bounded, Sum, WorkLeft, MostRows;
    if steps != [] {
      WorkShrinks(u, t, s, steps[0]);
      StaysBounded(u, t, s, steps[0]);
      StepsAreWork(u, t, Next(u, s, steps[0]), steps[1..]);
    }
  }

  /** With the lock or without it, every run ends: six stages per call, and never more rows than there are. */
  lemma RunsEnd(u: Setup, t: Tables, steps: seq<Step>)
    requires IsRun(u, Begin(u, t), steps)
    ensures |steps| <= |u.jobs| * (6 * (MostRows(u, t) + 1))
  {
    hide IsRun, After;
    var s, most := Begin(u, t), MostRows(u, t);
    StepsAreWork(u, t, s, steps);
    assert WorkLeft(most, s).Keys == u.jobs.Keys;
    SumOfEqual(WorkLeft(most, s), 6 * (most + 1));
  }

  // ----- finishing -----

  predicate AllCommitted(s: PgState) { forall i :: i in s.txs ==> s.txs[i].stage.Committed? }

  ghost predicate CanFinish(u: Setup, s: PgState) {
    exists steps :: IsRun(u, s, steps) && AllCommitted(After(u, s, steps))
  }

  lemma {:induction false} Finishes(u: Setup, t: Tables, s: PgState)
    requires PgInv(u, t, s) && Bounded(u, t, s)
    ensures CanFinish(u, s)
    decreases Sum(WorkLeft(MostRows(u, t), s))
  {
    hide PgInv, Bounded, Next, Enabled, Sum, WorkLeft, MostRows;
    if i :| i in s.txs && !s.txs[i].stage.Committed? {
      NeverStuck(u, t, s, i);
      var step :| Enabled(u, s, step);
      WorkShrinks(u, t, s, step);
      StaysBounded(u, t, s, step);
      PgStep(u, t, s, step);
      Finishes(u, t, Next(u, s, step));
      var rest :| IsRun(u, Next(u, s, step), rest) && AllCommitted(After(u, Next(u, s, step), rest));
      assert ([step] + rest)[1..] == rest;
      assert IsRun(u, s, [step] + rest);
    } else {
      assert IsRun(u, s, []) && AllCommitted(After(u, s, []));
    }
  }

  /** With the lock, however a run has gone so far, it can be continued until every replacement has committed. */
  lemma EveryRunCanFinish(u: Setup, t: Tables, steps: seq<Step>)
    requires u.locking && OwnIds(u.jobs, t) && OneLivePin(t.credentials) && IsRun(u, Begin(u, t), steps)
    ensures CanFinish(u, After(u, Begin(u, t), steps))
  {
    hide CanFinish;
    PgBegins(u, t);
    OrderRun(u, t, Begin(u, t), steps);
    RunStaysBounded(u, t, Begin(u, t), steps);
    Finishes(u, t, After(u, Begin(u, t), steps));
  }

  lemma {:induction false} RunStaysBounded(u: Setup, t: Tables, s: PgState, steps: seq<Step>)
    requires Bounded(u, t, s) && IsRun(u, s, steps)
    ensures Bounded(u, t, After(u, s, steps))
    decreases |steps|
  {
    hide Next, Enabled, Bounded;
    if steps != [] {
      StaysBounded(u, t, s, steps[0]);
      RunStaysBounded(u, t, Next(u, s, steps[0]), steps[1..]);
    }
  }
}

/**
 Safety of the drill pipeline under every interleaving of its workers, with crashes, retries,
 lost acknowledgements and duplicate jobs.
 */
module DrillSafety {
  import opened Wrappers
  import opened DrillPipeline

  /** The drill points at stored, signed evidence, unless the retention sweeper has removed it since. */
  predicate Evidenced(db: Db) {
    && db.evidencePath.Some? && db.evidencePath.value != ""
    && (db.purged || (db.stored.Some? && db.signed.Some?))
  }

  /** What a worker at a given point relies on. */
  predicate WorkerSafe(db: Db, w: Worker) {
    match w.job
    case TeardownJob(reason) =>
      && (reason == NoReason ==> Evidenced(db))
      && (w.pc.ReadEvidence? || w.pc.SucceedDrill? ==> reason == NoReason)
      && (w.pc.SucceedDrill? ==> w.pc.path != "")
    case StepJob(s) =>
      && s != Teardown
      && (s == Report ==>
        && !w.pc.Refetch?
        && (w.pc.RecordSignature? ==> db.purged || db.stored.Some?)
        && (w.pc.SetEvidence? ==> db.purged || (db.stored.Some? && db.signed.Some?))
        && (w.pc.StepSucceeded? || w.pc.DrillFailed? || w.pc.Chain? ==> Evidenced(db)))
  }

  predicate DbSafe(db: Db) {
    (db.steps.Get(Report) == Succeeded || db.status == Succeeded) ==> Evidenced(db)
  }

  predicate JobsSafe(db: Db, jobs: set<Job>) {
    && StepJob(Teardown) !in jobs
    && (TeardownJob(NoReason) in jobs ==> Evidenced(db))
  }

  ghost predicate Safe(s: State) {
    && DbSafe(s.db)
    && JobsSafe(s.db, s.jobs)
    && forall id :: id in s.live ==> WorkerSafe(s.db, s.live[id])
  }

  /** Nothing a transition does weakens what other workers rely on. */
  ghost predicate Grows(db: Db, db': Db) {
    && (Evidenced(db) ==> Evidenced(db'))
    && (db.purged ==> db'.purged)
    && (db.stored.Some? ==> db'.purged || db'.stored.Some?)
    && (db.signed.Some? ==> db'.purged || db'.signed.Some?)
  }

  /** The obligation of one transition. */
  ghost predicate SafeEffect(db: Db, job: Job, eff: Effect) {
    && DbSafe(eff.db)
    && Grows(db, eff.db)
    && (eff.pc.Some? ==> WorkerSafe(eff.db, Worker(job, eff.pc.value)))
    && (eff.insert.Some? ==> eff.insert.value != StepJob(Teardown))
    && (eff.insert == Some(TeardownJob(NoReason)) ==> Evidenced(eff.db))
  }

  lemma TeardownSafe(db: Db, reason: Reason, pc: Pc, e: Env)
    requires DbSafe(db) && WorkerSafe(db, Worker(TeardownJob(reason), pc))
    ensures SafeEffect(db, TeardownJob(reason), AdvanceTeardown(db, reason, pc, e))
  {
  }

  lemma EarlyStepSafe(db: Db, s: StepName, pc: Pc, e: Env)
    requires s != Report
    requires DbSafe(db) && WorkerSafe(db, Worker(StepJob(s), pc))
    ensures SafeEffect(db, StepJob(s), AdvanceStep(db, s, pc, e))
  {
  }

  lemma ReportSafe(db: Db, pc: Pc, e: Env)
    requires DbSafe(db) && WorkerSafe(db, Worker(StepJob(Report), pc))
    ensures SafeEffect(db, StepJob(Report), AdvanceStep(db, Report, pc, e))
  {
  }

  lemma AdvanceSafe(db: Db, w: Worker, e: Env)
    requires DbSafe(db) && WorkerSafe(db, w)
    ensures SafeEffect(db, w.job, Advance(db, w.job, w.pc, e))
  {
    match w.job
    case StepJob(s) =>
      assert Advance(db, w.job, w.pc, e) == AdvanceStep(db, s, w.pc, e) && w == Worker(StepJob(s), w.pc);
      if s == Report { ReportSafe(db, w.pc, e); } else { EarlyStepSafe(db, s, w.pc, e); }
    case TeardownJob(reason) =>
      assert Advance(db, w.job, w.pc, e) == AdvanceTeardown(db, reason, w.pc, e) && w == Worker(w.job, w.pc);
      TeardownSafe(db, reason, w.pc, e);
  }

  lemma StepSafe(s: State, a: Action)
    requires Safe(s)
    ensures Safe(Step(s, a))
  {
    var s' := Step(s, a);
    match a
    case Run(id, e) =>
      if id in s.live { AdvanceSafe(s.db, s.live[id], e); }
    case _ =>
  }

  /** The invariant holds after every sequence of actions. */
  lemma {:induction false} ExecSafe(s: State, acts: seq<Action>)
    requires Safe(s)
    ensures Safe(Exec(s, acts))
    decreases |acts|
  {
    if acts != [] {
      StepSafe(s, acts[0]);
      ExecSafe(Step(s, acts[0]), acts[1..]);
    }
  }

  /** A drill that is ever seen as succeeded has a non-empty evidence path, and its object and its
      signature are stored unless retention removed them; the same holds as soon as a teardown job
      without a failure reason exists, queued or running. */
  lemma SucceededDrillHasEvidence(acts: seq<Action>)
    ensures var s := Exec(INIT, acts);
            && (s.db.status == Succeeded ==> Evidenced(s.db))
            && (TeardownJob(NoReason) in s.jobs ==> Evidenced(s.db))
            && (forall id :: id in s.live && s.live[id].job == TeardownJob(NoReason) ==> Evidenced(s.db))
  {
    ExecSafe(INIT, acts);
  }
}

/**
 The drill pipeline when one worker of a drill runs at a time.  Crashes, retries, lost writes and
 duplicate jobs remain; only a second worker may not start while one is live.
 */
module DrillSerial {
  import opened Wrappers
  import opened Runs
  import opened DrillPipeline

  function SerialStep(s: State, a: Action): State {
    if a.Start? && s.live != map[] then s else Step(s, a)
  }

  function SerialExec(s: State, acts: seq<Action>): State { Fold(SerialStep, s, acts) }

  // ---- what a lone worker may rely on ----

  /** Points from which a step worker may still reach MarkStepFailed. */
  predicate Working(pc: Pc) {
    !(pc.CheckDone? || pc.Refetch? || pc.Chain? || pc.DrillFailed? || pc.SkipLater? || pc.InsertTeardown?)
  }

  /** One row for each assertion, in order. */
  predicate RowsMatch(rows: seq<ResultRow>, specs: seq<Spec>) {
    && |rows| == |specs|
    && forall i :: 0 <= i < |rows| ==> rows[i].kind == specs[i].kind
  }

  predicate AssertWorker(db: Db, pc: Pc) {
    && (pc.ClearResults? || pc.Connect? ==> pc.specs == db.listed)
    && (pc.Connect? ==> db.results == [])
    && (pc.RecordResult? ==> pc.specs == db.listed && pc.next <= |pc.specs|
                             && RowsMatch(db.results, pc.specs[..pc.next]))
    && (pc.StepSucceeded? ==> RowsMatch(db.results, db.listed))
  }

  predicate LoneWorker(db: Db, w: Worker) {
    match w.job
    case StepJob(s) =>
      && s != Teardown
      && (Working(w.pc) ==> db.steps.Get(s) != Succeeded)
      && (s == Assert ==> AssertWorker(db, w.pc))
    case TeardownJob(reason) =>
      && (w.pc.TearDown? || w.pc.MarkTeardown? ==> w.pc.seen == db.status)
      && (w.pc.ReadEvidence? || w.pc.SucceedDrill? ==> reason == NoReason && db.status != Failed)
  }

  predicate RowsRecorded(db: Db) {
    db.steps.Get(Assert) == Succeeded ==> RowsMatch(db.results, db.listed)
  }

  ghost predicate Lone(s: State) {
    && (forall i, j :: i in s.live && j in s.live ==> i == j)
    && (forall id :: id in s.live ==> LoneWorker(s.db, s.live[id]))
    && StepJob(Teardown) !in s.jobs
    && RowsRecorded(s.db)
  }

  /** What never changes back. */
  ghost predicate Settles(db: Db, db': Db) {
    && (db.status == Failed ==> db'.status == Failed)
    && (forall s :: s != Teardown && db.steps.Get(s) == Succeeded ==> db'.steps.Get(s) == Succeeded)
  }

  ghost predicate LoneEffect(db: Db, job: Job, eff: Effect) {
    && Settles(db, eff.db)
    && RowsRecorded(eff.db)
    && (eff.pc.Some? ==> LoneWorker(eff.db, Worker(job, eff.pc.value)))
    && (eff.insert.Some? ==> eff.insert.value != StepJob(Teardown))
  }

  lemma LoneTeardown(db: Db, reason: Reason, pc: Pc, e: Env)
    requires RowsRecorded(db) && LoneWorker(db, Worker(TeardownJob(reason), pc))
    ensures LoneEffect(db, TeardownJob(reason), AdvanceTeardown(db, reason, pc, e))
  {
  }

  lemma LoneRows(db: Db, pc: Pc, e: Env)
    requires pc.ClearResults? || pc.Connect? || pc.RecordResult?
    requires RowsRecorded(db) && LoneWorker(db, Worker(StepJob(Assert), pc))
    ensures LoneEffect(db, StepJob(Assert), AdvanceAssert(db, pc, e))
  {
    match pc
    case RecordResult(specs, i) =>
      if i < |specs| {
        assert specs[..i + 1] == specs[..i] + [specs[i]];
      } else {
        assert specs[..i] == specs;
      }
    case _ =>
  }

  lemma LoneAssert(db: Db, pc: Pc, e: Env)
    requires RowsRecorded(db) && LoneWorker(db, Worker(StepJob(Assert), pc))
    ensures LoneEffect(db, StepJob(Assert), AdvanceStep(db, Assert, pc, e))
  {
    if pc.ClearResults? || pc.Connect? || pc.RecordResult? {
      assert AdvanceStep(db, Assert, pc, e) == AdvanceAssert(db, pc, e);
      LoneRows(db, pc, e);
    }
  }

  lemma LoneStep(db: Db, s: StepName, pc: Pc, e: Env)
    requires s != Assert
    requires RowsRecorded(db) && LoneWorker(db, Worker(StepJob(s), pc))
    ensures LoneEffect(db, StepJob(s), AdvanceStep(db, s, pc, e))
  {
  }

  lemma LoneAdvance(db: Db, w: Worker, e: Env)
    requires RowsRecorded(db) && LoneWorker(db, w)
    ensures LoneEffect(db, w.job, Advance(db, w.job, w.pc, e))
  {
    match w.job
    case StepJob(s) =>
      assert Advance(db, w.job, w.pc, e) == AdvanceStep(db, s, w.pc, e) && w == Worker(StepJob(s), w.pc);
      if s == Assert { LoneAssert(db, w.pc, e); } else { LoneStep(db, s, w.pc, e); }
    case TeardownJob(reason) =>
      assert Advance(db, w.job, w.pc, e) == AdvanceTeardown(db, reason, w.pc, e) && w == Worker(w.job, w.pc);
      LoneTeardown(db, reason, w.pc, e);
  }

  lemma SerialStepLone(s: State, a: Action)
    requires Lone(s)
    ensures Lone(SerialStep(s, a)) && Settles(s.db, SerialStep(s, a).db)
  {
    match a
    case Run(id, e) => if id in s.live { LoneAdvance(s.db, s.live[id], e); }
    case _ =>
  }

  lemma {:induction false} SerialExecLone(s: State, acts: seq<Action>)
    requires Lone(s)
    ensures Lone(SerialExec(s, acts)) && Settles(s.db, SerialExec(s, acts).db)
    decreases |acts|
  {
    if acts != [] {
      SerialStepLone(s, acts[0]);
      SerialExecLone(SerialStep(s, acts[0]), acts[1..]);
    }
  }

  /** Failed is final, and so is the success of every step but teardown, however often jobs are
      repeated and wherever their workers die. */
  lemma FailureAndStepSuccessAreFinal(acts: seq<Action>, more: seq<Action>)
    ensures Settles(SerialExec(INIT, acts).db, SerialExec(INIT, acts + more).db)
  {
    SerialExecLone(INIT, acts);
    FoldSplit(SerialStep, INIT, acts, more);
    SerialExecLone(SerialExec(INIT, acts), more);
  }

  /** A succeeded assert step has exactly one row per assertion its run listed. */
  lemma AssertRowsExact(acts: seq<Action>)
    ensures var db := SerialExec(INIT, acts).db;
            db.steps.Get(Assert) == Succeeded ==> RowsMatch(db.results, db.listed)
  {
    SerialExecLone(INIT, acts);
  }

  // ---- verdict and evidence ----

  predicate Failing(pdf: Pdf) { HeaderOf(pdf) == FailedVerdict }

  /** A report worker that has stored a FAILED report and not yet marked the drill failed. */
  predicate InWindow(w: Worker) {
    && w.job == StepJob(Report)
    && match w.pc
       case RecordSignature(pdf) => Failing(pdf)
       case SetEvidence(pdf) => Failing(pdf)
       case StepSucceeded(pass) => !pass
       case DrillFailed => true
       case _ => false
  }

  /** The transition loses a write of a failing report run between the write of the object and
      MarkDrillFailed. */
  predicate LosesWrite(w: Worker, e: Env) {
    || (InWindow(w) && (if w.pc.DrillFailed? then !Reached(e) else !e.ack))
    || (w.job == StepJob(Report) && w.pc.PutObject? && Failing(w.pc.pdf) && e.commit && !e.ack)
  }

  predicate Cuts(s: State, a: Action) {
    match a
    case Crash(id) => id in s.live && InWindow(s.live[id])
    case Run(id, e) => id in s.live && LosesWrite(s.live[id], e)
    case _ => false
  }

  predicate Uncut(s: State, acts: seq<Action>)
    decreases |acts|
  {
    acts == [] || (!Cuts(s, acts[0]) && Uncut(SerialStep(s, acts[0]), acts[1..]))
  }

  /** A stored FAILED report belongs to a failed drill, or to the report worker about to fail it. */
  predicate Told(db: Db, w: Option<Worker>) {
    db.stored.Some? && Failing(db.stored.value) ==> db.status == Failed || (w.Some? && InWindow(w.value))
  }

  ghost predicate VerdictKept(s: State) {
    && (s.live == map[] ==> Told(s.db, None))
    && forall id :: id in s.live ==> Told(s.db, Some(s.live[id]))
  }

  lemma ReportTold(db: Db, pc: Pc, e: Env)
    requires Told(db, Some(Worker(StepJob(Report), pc))) && !LosesWrite(Worker(StepJob(Report), pc), e)
    ensures var eff := AdvanceStep(db, Report, pc, e);
            Told(eff.db, if eff.pc.Some? then Some(Worker(StepJob(Report), eff.pc.value)) else None)
  {
  }

  /** The other steps leave the object and a failed status alone. */
  lemma EarlyStepTold(db: Db, s: StepName, pc: Pc, e: Env)
    requires s != Report
    ensures var db' := AdvanceStep(db, s, pc, e).db;
            db'.stored == db.stored && (db.status == Failed ==> db'.status == Failed)
  {
  }

  lemma TeardownTold(db: Db, reason: Reason, pc: Pc, e: Env)
    requires LoneWorker(db, Worker(TeardownJob(reason), pc))
    ensures var db' := AdvanceTeardown(db, reason, pc, e).db;
            db'.stored == db.stored && (db.status == Failed ==> db'.status == Failed)
  {
  }

  lemma AdvanceTold(db: Db, w: Worker, e: Env)
    requires LoneWorker(db, w) && Told(db, Some(w)) && !LosesWrite(w, e)
    ensures var eff := Advance(db, w.job, w.pc, e);
            Told(eff.db, if eff.pc.Some? then Some(w.(pc := eff.pc.value)) else None)
  {
    assert w == Worker(w.job, w.pc);
    match w.job
    case StepJob(s) =>
      assert Advance(db, w.job, w.pc, e) == AdvanceStep(db, s, w.pc, e);
      if s == Report { ReportTold(db, w.pc, e); } else { EarlyStepTold(db, s, w.pc, e); }
    case TeardownJob(reason) =>
      assert Advance(db, w.job, w.pc, e) == AdvanceTeardown(db, reason, w.pc, e);
      TeardownTold(db, reason, w.pc, e);
  }

  lemma SerialStepVerdict(s: State, a: Action)
    requires Lone(s) && VerdictKept(s) && !Cuts(s, a)
    ensures VerdictKept(SerialStep(s, a))
  {
    var s' := SerialStep(s, a);
    match a
    case Run(id, e) =>
      if id in s.live {
        var w := s.live[id];
        AdvanceTold(s.db, w, e);
        var eff := Advance(s.db, w.job, w.pc, e);
        assert s'.db == eff.db && s'.live == if eff.pc.Some? then map[id := w.(pc := eff.pc.value)] else map[];
      }
    case Crash(id) =>
      assert id in s.live ==> Told(s.db, Some(s.live[id]));
      assert id !in s.live ==> s'.live == s.live;
    case _ =>
  }

  lemma {:induction false} UncutVerdict(s: State, acts: seq<Action>)
    requires Lone(s) && VerdictKept(s) && Uncut(s, acts)
    ensures Lone(SerialExec(s, acts)) && VerdictKept(SerialExec(s, acts))
    decreases |acts|
  {
    if acts != [] {
      SerialStepLone(s, acts[0]);
      SerialStepVerdict(s, acts[0]);
      UncutVerdict(SerialStep(s, acts[0]), acts[1..]);
    }
  }

  /** If no failing report run is cut, a drill whose stored report says FAILED is failed, except while
      the report worker is on its way to mark it; so no succeeded drill at rest carries such a report. */
  lemma SucceededDrillNeverSaysFailed(acts: seq<Action>)
    requires Uncut(INIT, acts)
    ensures var s := SerialExec(INIT, acts);
            && (s.db.stored.Some? && Failing(s.db.stored.value) ==>
                  s.db.status == Failed || exists id :: id in s.live && InWindow(s.live[id]))
            && (s.live == map[] && s.db.status == Succeeded && s.db.stored.Some? ==>
                  HeaderOf(s.db.stored.value) != FailedVerdict)
  {
    UncutVerdict(INIT, acts);
    var s := SerialExec(INIT, acts);
    if s.live != map[] {
      var id :| id in s.live;
      assert Told(s.db, Some(s.live[id]));
    }
  }

  // ---- signature and object ----

  /** The recorded signature is over the stored document, unless retention has removed evidence. */
  predicate Covered(db: Db) { db.purged || (db.signed.Some? && db.signed == db.stored) }

  /** What a lone report worker knows of the object and the signature it is about to need. */
  predicate ReportWorker(db: Db, pc: Pc) {
    && (pc.RecordSignature? ==> db.purged || db.stored == Some(pc.pdf))
    && (pc.SetEvidence? || pc.StepSucceeded? ==> Covered(db))
  }

  predicate WorkerCovered(db: Db, w: Worker) { w.job == StepJob(Report) ==> ReportWorker(db, w.pc) }

  predicate ReportedCovered(db: Db) { db.steps.report == Succeeded ==> Covered(db) }

  ghost predicate SignatureKept(s: State) {
    && ReportedCovered(s.db)
    && forall id :: id in s.live ==> WorkerCovered(s.db, s.live[id])
  }

  lemma ReportCovered(db: Db, pc: Pc, e: Env)
    requires LoneWorker(db, Worker(StepJob(Report), pc)) && ReportWorker(db, pc) && ReportedCovered(db)
    ensures var eff := AdvanceStep(db, Report, pc, e);
            ReportedCovered(eff.db) && (eff.pc.Some? ==> ReportWorker(eff.db, eff.pc.value))
  {
  }

  /** The other workers touch neither object nor signature, nor do they make the report step succeed. */
  lemma EarlyStepCovered(db: Db, s: StepName, pc: Pc, e: Env)
    requires s != Report && ReportedCovered(db)
    ensures ReportedCovered(AdvanceStep(db, s, pc, e).db)
  {
  }

  lemma TeardownCovered(db: Db, reason: Reason, pc: Pc, e: Env)
    requires ReportedCovered(db)
    ensures ReportedCovered(AdvanceTeardown(db, reason, pc, e).db)
  {
  }

  lemma AdvanceCovered(db: Db, w: Worker, e: Env)
    requires LoneWorker(db, w) && WorkerCovered(db, w) && ReportedCovered(db)
    ensures var eff := Advance(db, w.job, w.pc, e);
            ReportedCovered(eff.db) && (eff.pc.Some? ==> WorkerCovered(eff.db, w.(pc := eff.pc.value)))
  {
    assert w == Worker(w.job, w.pc);
    match w.job
    case StepJob(s) =>
      assert Advance(db, w.job, w.pc, e) == AdvanceStep(db, s, w.pc, e);
      if s == Report { ReportCovered(db, w.pc, e); } else { EarlyStepCovered(db, s, w.pc, e); }
    case TeardownJob(reason) =>
      assert Advance(db, w.job, w.pc, e) == AdvanceTeardown(db, reason, w.pc, e);
      TeardownCovered(db, reason, w.pc, e);
  }

  lemma SerialStepSignature(s: State, a: Action)
    requires Lone(s) && SignatureKept(s)
    ensures SignatureKept(SerialStep(s, a))
  {
    var s' := SerialStep(s, a);
    match a
    case Run(id, e) =>
      if id in s.live {
        AdvanceCovered(s.db, s.live[id], e);
        assert forall j :: j in s'.live ==> j == id;
      }
    case _ =>
  }

  lemma {:induction false} SerialExecSignature(s: State, acts: seq<Action>)
    requires Lone(s) && SignatureKept(s)
    ensures SignatureKept(SerialExec(s, acts))
    decreases |acts|
  {
    if acts != [] {
      SerialStepLone(s, acts[0]);
      SerialStepSignature(s, acts[0]);
      SerialExecSignature(SerialStep(s, acts[0]), acts[1..]);
    }
  }

  /** Wherever workers die and whatever writes are lost, once the report step is succeeded the signature
      row is over exactly the stored document, until retention removes evidence. */
  lemma SignatureCoversStoredObject(acts: seq<Action>)
    ensures var db := SerialExec(INIT, acts).db;
            db.steps.Get(Report) == Succeeded && !db.purged ==> db.signed.Some? && db.signed == db.stored
  {
    SerialExecSignature(INIT, acts);
  }
}

/**
 What a report run leaves behind when it is cut or loses writes anywhere, and exactly when that loses the
 verdict or leaves the signature on another document.
 */
module DrillCuts {
  import opened Wrappers
  import opened DrillPipeline
  import opened DrillSerial
  import opened DrillSolo

  /** Surroundings in which everything succeeds and every assertion has the given outcome. */
  function Calm(passed: bool, stamp: nat): Env {
    Env(true, true, true, "x", [Spec("row_count")], passed, stamp)
  }

  function Calms(e: Env, n: nat): seq<Env> { seq(n, _ => e) }

  // ---- a report run along any script ----

  /** The transitions of a report run that is not already done: 0 check, 1 step running, 2 render,
      3 object, 4 signature, 5 evidence path, 6 step succeeded, and for a failing report 7 drill failed
      and 8 teardown job.  Transition k goes well if the run then stands at k + 1. */
  predicate Good(k: nat, e: Env) {
    match k
    case 0 => e.ok
    case 1 => e.ack
    case 2 => e.ack && e.ok
    case 7 => Reached(e)
    case _ => e.ack
  }

  /** The write of transition k arrives: all transitions before it go well, and it is not lost. */
  predicate Commits(script: seq<Env>, k: nat) {
    k < |script| && Reached(script[k]) && forall i :: 0 <= i < k ==> Good(i, script[i])
  }

  /** The document a run along the script renders. */
  function Rendered(db: Db, script: seq<Env>): Pdf {
    Pdf(db.results, if |script| > 2 then script[2].stamp else 0)
  }

  function PcAt(pdf: Pdf, k: nat): Pc {
    match k
    case 0 => CheckDone
    case 1 => StepRunning
    case 2 => DoWork
    case 3 => PutObject(pdf)
    case 4 => RecordSignature(pdf)
    case 5 => SetEvidence(pdf)
    case 6 => StepSucceeded(AllPassed(pdf.rows))
    case 7 => if AllPassed(pdf.rows) then Chain(true) else DrillFailed
    case _ => Chain(false)
  }

  /** The data after the writes of the first k transitions. */
  predicate Written(d: Db, db: Db, pdf: Pdf, k: nat) {
    && SameBut(d, db)
    && d.stored == (if k >= 4 then Some(pdf) else db.stored)
    && d.signed == (if k >= 5 then Some(pdf) else db.signed)
    && d.evidencePath == (if k >= 6 then Some(EVIDENCE_KEY) else db.evidencePath)
    && (d.steps.report == Skipped <==> db.steps.report == Skipped)
    && (d.steps.report == Succeeded <==> k >= 7 && db.steps.report != Skipped)
    && d.status == (if k >= 8 then Failed else db.status)
  }

  /** The data a report run never touches. */
  predicate SameBut(d: Db, db: Db) {
    && d.results == db.results && d.listed == db.listed && d.purged == db.purged
    && d.sandbox == db.sandbox && d.sourceHash == db.sourceHash
    && forall s :: s != Report ==> d.steps.Get(s) == db.steps.Get(s)
  }

  predicate Stage(x: Solo, db: Db, jobs: set<Job>, pdf: Pdf, k: nat) {
    x.pc == Some(PcAt(pdf, k)) && x.jobs == jobs && Written(x.db, db, pdf, k)
  }

  /** Passing runs have seven transitions before the job insert, failing ones eight. */
  function LastStage(pdf: Pdf): nat { if AllPassed(pdf.rows) then 7 else 8 }

  lemma GoodStep(x: Solo, db: Db, jobs: set<Job>, pdf: Pdf, k: nat, e: Env)
    requires pdf.rows == db.results && db.steps.report != Succeeded
    requires Stage(x, db, jobs, pdf, k) && k < LastStage(pdf) && Good(k, e) && (k == 2 ==> e.stamp == pdf.stamp)
    ensures Stage(SoloStep(x, StepJob(Report), e), db, jobs, pdf, k + 1)
  {
  }

  /** A report worker that returned, is cleaning up or only has its job insert left. */
  predicate Settled(pc: Option<Pc>) {
    pc.None? || pc.value.StepFailed? || pc.value.SkipLater? || pc.value.InsertTeardown? || pc.value.Chain?
  }

  /** What such a worker cannot change. */
  predicate Kept(x: Solo, y: Solo) {
    && SameBut(y.db, x.db) && y.db.stored == x.db.stored && y.db.signed == x.db.signed
    && y.db.evidencePath == x.db.evidencePath && y.db.status == x.db.status
    && (x.db.steps.report != Succeeded ==> y.db.steps.report != Succeeded)
    && (x.pc.None? || x.pc.value.Chain? ==> y.db.steps.report == x.db.steps.report)
    && (x.pc != Some(Chain(true)) ==> (TeardownJob(NoReason) in y.jobs <==> TeardownJob(NoReason) in x.jobs))
  }

  lemma SettledStep(x: Solo, e: Env)
    requires Settled(x.pc)
    ensures var y := SoloStep(x, StepJob(Report), e);
            Settled(y.pc) && Kept(x, y) && y.pc != Some(Chain(true)) && (x.pc.None? || x.pc.value.Chain? ==> y.pc.None?)
  {
  }

  lemma {:induction false} SettledRun(x: Solo, script: seq<Env>)
    requires Settled(x.pc)
    ensures Kept(x, SoloRun(x, StepJob(Report), script))
    decreases |script|
  {
    if script != [] {
      SettledStep(x, script[0]);
      SettledRun(SoloStep(x, StepJob(Report), script[0]), script[1..]);
    }
  }

  lemma {:induction false} IdleRun(x: Solo, job: Job, envs: seq<Env>)
    requires x.pc.None?
    ensures SoloRun(x, job, envs) == x
    decreases |envs|
  {
    if envs != [] { IdleRun(x, job, envs[1..]); }
  }

  /** A passing run's last transition enqueues the teardown job without a reason if its insert arrives. */
  lemma ChainRun(x: Solo, script: seq<Env>)
    requires x.pc == Some(Chain(true)) && script != []
    ensures SoloRun(x, StepJob(Report), script).jobs
            == if Reached(script[0]) then x.jobs + {TeardownJob(NoReason)} else x.jobs
  {
    IdleRun(SoloStep(x, StepJob(Report), script[0]), StepJob(Report), script[1..]);
  }

  /** A transition that does not go well ends the run or sends it to its cleanup; its write may arrive. */
  lemma BadStep(x: Solo, db: Db, jobs: set<Job>, pdf: Pdf, k: nat, e: Env)
    requires pdf.rows == db.results && db.steps.report != Succeeded
    requires Stage(x, db, jobs, pdf, k) && k < LastStage(pdf) && !Good(k, e)
    ensures var y := SoloStep(x, StepJob(Report), e);
            && Settled(y.pc) && y.pc != Some(Chain(true)) && y.jobs == jobs
            && Written(y.db, db, pdf, if Reached(e) && 3 <= k then k + 1 else k)
            && (k >= 6 ==> y.pc.None? || y.pc.value.Chain?)
  {
  }

  /** What a run along a script has written, in terms of which writes arrived. */
  predicate Outcome(d: Db, jobs': set<Job>, db: Db, jobs: set<Job>, pdf: Pdf, script: seq<Env>) {
    && SameBut(d, db)
    && d.stored == (if Commits(script, 3) then Some(pdf) else db.stored)
    && d.signed == (if Commits(script, 4) then Some(pdf) else db.signed)
    && d.evidencePath == (if Commits(script, 5) then Some(EVIDENCE_KEY) else db.evidencePath)
    && (d.steps.report == Succeeded <==> Commits(script, 6) && db.steps.report != Skipped)
    && d.status == (if !AllPassed(pdf.rows) && Commits(script, 7) then Failed else db.status)
    && (TeardownJob(NoReason) in jobs' <==>
          TeardownJob(NoReason) in jobs || (AllPassed(pdf.rows) && Commits(script, 7)))
  }

  /** A failing report run that goes well up to its step's success enqueues the teardown job that says so,
      if the insert arrives. */
  lemma FailureIsChained(db: Db, jobs: set<Job>, script: seq<Env>)
    requires db.steps.report != Succeeded && !AllPassed(db.results) && ChainsFailure(script)
    ensures Session(db, jobs, StepJob(Report), script).1 == jobs + {TeardownJob(AssertionsFailed)}
  {
    var n: nat := 7;
    var x := GoodRun(db, jobs, Rendered(db, script), script, n);
    var y := SoloStep(x, StepJob(Report), script[n]);
    assert script[n..][1..] == script[n + 1..] && script[n + 1..][1..] == script[n + 2..];
    assert y.pc == Some(Chain(false)) && y.jobs == jobs;
    IdleRun(SoloStep(y, StepJob(Report), script[n + 1]), StepJob(Report), script[n + 2..]);
  }

  lemma {:induction false} GoodRun(db: Db, jobs: set<Job>, pdf: Pdf, script: seq<Env>, n: nat) returns (x: Solo)
    requires pdf == Rendered(db, script) && db.steps.report != Succeeded && n <= LastStage(pdf)
    requires n <= |script| && forall i :: 0 <= i < n ==> Good(i, script[i])
    ensures Stage(x, db, jobs, pdf, n)
    ensures SoloRun(Solo(db, jobs, Some(CheckDone)), StepJob(Report), script) == SoloRun(x, StepJob(Report), script[n..])
    decreases n
  {
    if n == 0 {
      x := Solo(db, jobs, Some(CheckDone));
      assert script[0..] == script;
    } else {
      var y := GoodRun(db, jobs, pdf, script, n - 1);
      GoodStep(y, db, jobs, pdf, n - 1, script[n - 1]);
      x := SoloStep(y, StepJob(Report), script[n - 1]);
      assert script[n - 1..][1..] == script[n..];
    }
  }

  /** So an undisturbed failing report run and the teardown job it enqueues end the drill failed, saying that
      assertions failed. */
  lemma FailedAssertionsFailDrill(db: Db, jobs: set<Job>, e: Env, n: nat, m: nat)
    requires db.steps.report != Succeeded && !AllPassed(db.results) && e.ok && e.ack && n >= 9 && m >= 6
    ensures var (d, j) := Session(db, jobs, StepJob(Report), Calms(e, n));
            var t := Session(d, j, TeardownJob(AssertionsFailed), Calms(e, m)).0;
            && TeardownJob(AssertionsFailed) in j
            && t.status == Failed && t.error == AssertionsFailed && SaysFailed(t) && t.signed == t.stored
            && t.evidencePath == Some(EVIDENCE_KEY)
  {
    var script := Calms(e, n);
    assert ChainsFailure(script);
    FailureIsChained(db, jobs, script);
    ReportRunExactly(db, jobs, script);
    CalmCommits(e, n, 3);
    CalmCommits(e, n, 4);
    CalmCommits(e, n, 5);
    var (d, j) := Session(db, jobs, StepJob(Report), script);
    TeardownRun(d, j, AssertionsFailed, e, m);
  }

  /** A failing run gets as far as its job insert, which arrives; whether MarkDrillFailed does is no matter. */
  predicate ChainsFailure(script: seq<Env>) {
    |script| > 8 && Reached(script[8]) && forall i :: 0 <= i < 7 ==> Good(i, script[i])
  }

  /** Exactly the writes before transition n arrived. */
  predicate Stopped(pdf: Pdf, script: seq<Env>, n: nat) {
    forall k :: 3 <= k < LastStage(pdf) ==> (Commits(script, k) <==> k < n)
  }

  predicate GoodTo(script: seq<Env>, k: nat) {
    k <= |script| && forall i :: 0 <= i < k ==> Good(i, script[i])
  }

  lemma StoppedThere(pdf: Pdf, script: seq<Env>, k: nat)
    requires GoodTo(script, k) && (k == |script| || k == LastStage(pdf))
    ensures Stopped(pdf, script, k)
  {
  }

  lemma StoppedBad(pdf: Pdf, script: seq<Env>, k: nat)
    requires GoodTo(script, k) && k < |script| && k < LastStage(pdf) && !Good(k, script[k])
    ensures Stopped(pdf, script, if Reached(script[k]) && 3 <= k then k + 1 else k)
    ensures AllPassed(pdf.rows) ==> !Commits(script, 7)
  {
  }

  lemma StoppedOutcome(x: Solo, y: Solo, db: Db, jobs: set<Job>, pdf: Pdf, script: seq<Env>, n: nat)
    requires Kept(x, y) && Written(x.db, db, pdf, n) && x.jobs == jobs
    requires n <= LastStage(pdf) && Stopped(pdf, script, n)
    requires n >= 7 ==> y.db.steps.report == x.db.steps.report
    requires TeardownJob(NoReason) in y.jobs <==>
               TeardownJob(NoReason) in jobs || (AllPassed(pdf.rows) && Commits(script, 7))
    ensures Outcome(y.db, y.jobs, db, jobs, pdf, script)
  {
  }

  /** From stage k on. */
  lemma {:induction false} ReportRunFrom(x: Solo, db: Db, jobs: set<Job>, pdf: Pdf, k: nat, script: seq<Env>)
    requires pdf == Rendered(db, script) && db.steps.report != Succeeded
    requires k <= LastStage(pdf) && GoodTo(script, k) && Stage(x, db, jobs, pdf, k)
    ensures var y := SoloRun(x, StepJob(Report), script[k..]);
            Outcome(y.db, y.jobs, db, jobs, pdf, script)
    decreases 8 - k
  {
    var rest := script[k..];
    if k == |script| {
      StoppedThere(pdf, script, k);
      StoppedOutcome(x, x, db, jobs, pdf, script, k);
    } else if k == LastStage(pdf) {
      SettledRun(x, rest);
      StoppedThere(pdf, script, k);
      if AllPassed(pdf.rows) { ChainRun(x, rest); }
      StoppedOutcome(x, SoloRun(x, StepJob(Report), rest), db, jobs, pdf, script, k);
    } else {
      var e, y := rest[0], SoloStep(x, StepJob(Report), rest[0]);
      assert rest[1..] == script[k + 1..];
      if Good(k, e) {
        GoodStep(x, db, jobs, pdf, k, e);
        ReportRunFrom(y, db, jobs, pdf, k + 1, script);
      } else {
        BadStep(x, db, jobs, pdf, k, e);
        StoppedBad(pdf, script, k);
        SettledRun(y, rest[1..]);
        StoppedOutcome(y, SoloRun(y, StepJob(Report), rest[1..]), db, jobs, pdf, script,
                       if Reached(e) && 3 <= k then k + 1 else k);
      }
    }
  }

  /** The whole effect of a report run that does not find its step done, whatever happens to it: object,
      signature, path, step and status change exactly if their own write arrives after all before it went
      well; a passing run enqueues the teardown job without a reason, a failing one never does. */
  lemma ReportRunExactly(db: Db, jobs: set<Job>, script: seq<Env>)
    requires db.steps.report != Succeeded
    ensures var (d, j) := Session(db, jobs, StepJob(Report), script);
            Outcome(d, j, db, jobs, Rendered(db, script), script)
  {
    assert script[0..] == script;
    ReportRunFrom(Solo(db, jobs, Some(CheckDone)), db, jobs, Rendered(db, script), 0, script);
  }

  // ---- the signature ----

  /** A report run leaves the signature on another document exactly if its object write arrives, its
      signature write does not, and the document it stored is not the one signed before. */
  lemma SignatureSplitExactly(db: Db, jobs: set<Job>, script: seq<Env>)
    requires db.signed == db.stored
    ensures var d := Session(db, jobs, StepJob(Report), script).0;
            d.signed != d.stored <==>
              && db.steps.report != Succeeded && Commits(script, 3) && !Commits(script, 4)
              && db.signed != Some(Rendered(db, script))
  {
    if db.steps.report != Succeeded {
      ReportRunExactly(db, jobs, script);
    } else {
      DoneKeeps(db, jobs, script);
    }
  }

  // ---- retry and teardown ----

  lemma StepThen(x: Solo, y: Solo, job: Job, e: Env, n: nat)
    requires n > 0 && SoloStep(x, job, e) == y
    ensures SoloRun(x, job, Calms(e, n)) == SoloRun(y, job, Calms(e, n - 1))
  {
    assert Calms(e, n)[1..] == Calms(e, n - 1);
  }

  lemma DoneRun(db: Db, jobs: set<Job>, e: Env, n: nat)
    requires db.steps.report == Succeeded && e.ok && e.ack && n >= 2
    ensures Session(db, jobs, StepJob(Report), Calms(e, n)) == (db, jobs + {TeardownJob(NoReason)})
  {
    var x := Solo(db, jobs, Some(CheckDone));
    var y := Solo(db, jobs, Some(Chain(true)));
    var z := Solo(db, jobs + {TeardownJob(NoReason)}, None);
    StepThen(x, y, StepJob(Report), e, n);
    StepThen(y, z, StepJob(Report), e, n - 1);
    IdleRun(z, StepJob(Report), Calms(e, n - 2));
  }

  /** A run that finds its step done changes neither evidence, step nor status. */
  lemma DoneKeeps(db: Db, jobs: set<Job>, script: seq<Env>)
    requires db.steps.report == Succeeded
    ensures var d := Session(db, jobs, StepJob(Report), script).0;
            && d.results == db.results && d.stored == db.stored && d.signed == db.signed
            && d.status == db.status && d.steps.report == Succeeded
  {
    if script != [] {
      SettledRun(SoloStep(Solo(db, jobs, Some(CheckDone)), StepJob(Report), script[0]), script[1..]);
    }
  }

  lemma NotifyRun(db: Db, jobs: set<Job>, job: Job, e: Env, n: nat)
    requires n > 0 && job.TeardownJob?
    ensures SoloRun(Solo(db, jobs, Some(Notify)), job, Calms(e, n)) == Solo(db, jobs, None)
  {
    StepThen(Solo(db, jobs, Some(Notify)), Solo(db, jobs, None), job, e, n);
    IdleRun(Solo(db, jobs, None), job, Calms(e, n - 1));
  }

  lemma FailDrillRun(db: Db, jobs: set<Job>, reason: Reason, e: Env, n: nat)
    requires e.ok && e.ack && n >= 2
    ensures SoloRun(Solo(db, jobs, Some(FailDrill)), TeardownJob(reason), Calms(e, n))
            == Solo(MarkDrillFailed(db, reason), jobs, None)
  {
    var failed := MarkDrillFailed(db, reason);
    StepThen(Solo(db, jobs, Some(FailDrill)), Solo(failed, jobs, Some(Notify)), TeardownJob(reason), e, n);
    NotifyRun(failed, jobs, TeardownJob(reason), e, n - 1);
  }

  lemma SucceedDrillRun(db: Db, jobs: set<Job>, reason: Reason, e: Env, n: nat)
    requires e.ok && e.ack && n >= 3
    ensures SoloRun(Solo(db, jobs, Some(ReadEvidence)), TeardownJob(reason), Calms(e, n))
            == Solo(MarkDrillSucceeded(db, if db.evidencePath.Some? then db.evidencePath.value else ""), jobs, None)
  {
    var path := if db.evidencePath.Some? then db.evidencePath.value else "";
    var done := MarkDrillSucceeded(db, path);
    var x := Solo(db, jobs, Some(ReadEvidence));
    var y := Solo(db, jobs, Some(SucceedDrill(path)));
    StepThen(x, y, TeardownJob(reason), e, n);
    StepThen(y, Solo(done, jobs, Some(Notify)), TeardownJob(reason), e, n - 1);
    NotifyRun(done, jobs, TeardownJob(reason), e, n - 2);
  }

  function AfterTeardown(db: Db, reason: Reason): Pc {
    if reason != NoReason then FailDrill else if db.status == Failed then Notify else ReadEvidence
  }

  lemma TeardownHead(db: Db, jobs: set<Job>, reason: Reason, e: Env, n: nat)
    requires e.ok && e.ack && n >= 3
    ensures SoloRun(Solo(db, jobs, Some(ReadDrill)), TeardownJob(reason), Calms(e, n))
            == SoloRun(Solo(MarkStepSucceeded(db, Teardown), jobs, Some(AfterTeardown(db, reason))),
                       TeardownJob(reason), Calms(e, n - 3))
  {
    var job := TeardownJob(reason);
    var x1 := Solo(db, jobs, Some(TearDown(db.status)));
    var x2 := Solo(db, jobs, Some(MarkTeardown(db.status, true)));
    StepThen(Solo(db, jobs, Some(ReadDrill)), x1, job, e, n);
    StepThen(x1, x2, job, e, n - 1);
    StepThen(x2, Solo(MarkStepSucceeded(db, Teardown), jobs, Some(AfterTeardown(db, reason))), job, e, n - 2);
  }

  /** How a teardown settles the drill. */
  function TeardownEnd(db: Db, reason: Reason): Db {
    if reason != NoReason then MarkDrillFailed(db, reason)
    else if db.status == Failed then db
    else MarkDrillSucceeded(db, if db.evidencePath.Some? then db.evidencePath.value else "")
  }

  lemma TeardownEnds(db: Db, jobs: set<Job>, reason: Reason, e: Env, n: nat)
    requires e.ok && e.ack && n >= 6
    ensures Session(db, jobs, TeardownJob(reason), Calms(e, n))
            == (TeardownEnd(MarkStepSucceeded(db, Teardown), reason), jobs)
  {
    TeardownHead(db, jobs, reason, e, n);
    var d := MarkStepSucceeded(db, Teardown);
    if reason != NoReason {
      FailDrillRun(d, jobs, reason, e, n - 3);
    } else if db.status == Failed {
      NotifyRun(d, jobs, TeardownJob(reason), e, n - 3);
    } else {
      SucceedDrillRun(d, jobs, reason, e, n - 3);
    }
  }

  /** An undisturbed teardown run: a reason fails the drill and is recorded as its error, a failed drill
      stays as it is, and any other succeeds without an error.  Evidence and the other steps stay. */
  lemma TeardownRun(db: Db, jobs: set<Job>, reason: Reason, e: Env, n: nat)
    requires e.ok && e.ack && n >= 6
    ensures var (db', jobs') := Session(db, jobs, TeardownJob(reason), Calms(e, n));
            && db'.status == (if reason != NoReason || db.status == Failed then Failed else Succeeded)
            && db'.error == (if reason != NoReason then reason else if db.status == Failed then db.error else NoReason)
            && db'.stored == db.stored && db'.signed == db.signed && db'.purged == db.purged
            && (forall s :: s != Teardown ==> db'.steps.Get(s) == db.steps.Get(s))
            && (db.steps.teardown != Skipped ==> db'.steps.teardown == Succeeded)
            && db'.evidencePath == (if db'.status == Succeeded && db.evidencePath.None? then Some("") else db.evidencePath)
            && jobs' == jobs
  {
    TeardownEnds(db, jobs, reason, e, n);
  }

  predicate SaysFailed(db: Db) { db.stored.Some? && Failing(db.stored.value) }

  /** A failing report run along the script, then an undisturbed retry of n transitions. */
  function RunAndRetry(db: Db, jobs: set<Job>, script: seq<Env>, e: Env, n: nat): (Db, set<Job>) {
    var (d, j) := Session(db, jobs, StepJob(Report), script);
    Session(d, j, StepJob(Report), Calms(e, n))
  }

  lemma CalmCommits(e: Env, n: nat, k: nat)
    requires e.ok && e.ack && k < n
    ensures Commits(Calms(e, n), k)
  {
  }

  /** The retry fails the drill unless it finds its step done and the drill not failed; then it enqueues a
      teardown job without a reason. */
  lemma RetryOutcome(db: Db, jobs: set<Job>, script: seq<Env>, e: Env, n: nat)
    requires !AllPassed(db.results) && e.ok && e.ack && n >= 8
    ensures var d1 := Session(db, jobs, StepJob(Report), script).0;
            var (d2, j2) := RunAndRetry(db, jobs, script, e, n);
            && (d2.status != Failed <==> d1.steps.report == Succeeded && d1.status != Failed)
            && (d1.steps.report == Succeeded ==> TeardownJob(NoReason) in j2)
            && (db.steps.report != Succeeded ==> SaysFailed(d2))
  {
    var (d1, j1) := Session(db, jobs, StepJob(Report), script);
    if db.steps.report != Succeeded { ReportRunExactly(db, jobs, script); } else { DoneKeeps(db, jobs, script); }
    if d1.steps.report == Succeeded {
      DoneRun(d1, j1, e, n);
    } else {
      ReportRunExactly(d1, j1, Calms(e, n));
      CalmCommits(e, n, 3);
      CalmCommits(e, n, 7);
    }
  }

  /** The verdict of a failing report run is lost by its retry, whatever happened to the run, exactly if
      the run left its step succeeded and the drill not failed; that is, if MarkStepSucceeded arrived, with
      or without its acknowledgement, and MarkDrillFailed did not.  The retry then enqueues a teardown job
      without a reason, and that job makes the drill succeed with a report saying FAILED.  In every other
      case, and with every other teardown job, the drill ends failed. */
  lemma VerdictLostExactly(db: Db, jobs: set<Job>, script: seq<Env>, e: Env, n: nat, reason: Reason, m: nat)
    requires !AllPassed(db.results) && db.steps.report != Succeeded
    requires e.ok && e.ack && n >= 8 && m >= 6
    ensures var d1 := Session(db, jobs, StepJob(Report), script).0;
            var (d2, j2) := RunAndRetry(db, jobs, script, e, n);
            var t := Session(d2, j2, TeardownJob(reason), Calms(e, m)).0;
            var lost := d1.steps.report == Succeeded && d1.status != Failed;
            && (lost <==> db.steps.report != Skipped && db.status != Failed && Commits(script, 6) && !Commits(script, 7))
            && (d2.status != Failed <==> lost) && (lost ==> TeardownJob(NoReason) in j2)
            && t.status == (if lost && reason == NoReason then Succeeded else Failed)
            && SaysFailed(t)
  {
    ReportRunExactly(db, jobs, script);
    RetryOutcome(db, jobs, script, e, n);
    var (d2, j2) := RunAndRetry(db, jobs, script, e, n);
    TeardownRun(d2, j2, reason, e, m);
  }

  /** If a teardown job without a reason is queued from before and runs before the retry, a failing run
      ends as a succeeded drill with a report saying FAILED exactly if the drill was not failed,
      MarkDrillFailed did not arrive, and such a report is stored, by this run or from before. */
  lemma TeardownBeforeRetry(db: Db, jobs: set<Job>, script: seq<Env>, e: Env, m: nat)
    requires !AllPassed(db.results) && db.steps.report != Succeeded && TeardownJob(NoReason) in jobs
    requires e.ok && e.ack && m >= 6
    ensures var (d, j) := Session(db, jobs, StepJob(Report), script);
            var t := Session(d, j, TeardownJob(NoReason), Calms(e, m)).0;
            && TeardownJob(NoReason) in j
            && (t.status == Succeeded && SaysFailed(t) <==>
                  db.status != Failed && !Commits(script, 7) && (Commits(script, 3) || SaysFailed(db)))
  {
    ReportRunExactly(db, jobs, script);
    var (d, j) := Session(db, jobs, StepJob(Report), script);
    TeardownRun(d, j, NoReason, e, m);
  }

  lemma {:induction false} JobsGrow(x: Solo, job: Job, envs: seq<Env>)
    ensures x.jobs <= SoloRun(x, job, envs).jobs
    decreases |envs|
  {
    if envs != [] { JobsGrow(SoloStep(x, job, envs[0]), job, envs[1..]); }
  }
}

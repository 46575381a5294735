/**
 Serial runs of a new drill that reach the states `DrillCuts` is about: every way of losing a verdict
 between the two last writes of a report run, and one through skipped steps that also leaves the signature
 on another document.
 */
module DrillRuns {
  import opened Wrappers
  import opened Runs
  import opened DrillPipeline
  import opened DrillSerial
  import opened DrillSolo
  import opened DrillCuts

  ghost predicate Reachable(db: Db, jobs: set<Job>) {
    exists acts :: SerialExec(INIT, acts) == State(db, jobs, map[])
  }

  lemma ReachSession(db: Db, jobs: set<Job>, job: Job, envs: seq<Env>)
    requires Reachable(db, jobs) && job in jobs
    ensures var (db', jobs') := Session(db, jobs, job, envs); Reachable(db', jobs') && jobs <= jobs'
  {
    var acts :| SerialExec(INIT, acts) == State(db, jobs, map[]);
    SessionIsSerial(db, jobs, job, envs);
    FoldSplit(SerialStep, INIT, acts, SessionActions(job, envs));
    var (db', jobs') := Session(db, jobs, job, envs);
    assert SerialExec(INIT, acts + SessionActions(job, envs)) == State(db', jobs', map[]);
    JobsGrow(Solo(db, jobs, Some(Entry(job))), job, envs);
  }

  // ---- undisturbed runs of the steps before report ----

  lemma StepHead(db: Db, jobs: set<Job>, s: StepName, e: Env, n: nat)
    requires e.ok && e.ack && n >= 2 && s != Provision && db.steps.Get(s) != Succeeded
    ensures SoloRun(Solo(db, jobs, Some(CheckDone)), StepJob(s), Calms(e, n))
            == SoloRun(Solo(MarkStepRunning(db, s), jobs, Some(DoWork)), StepJob(s), Calms(e, n - 2))
  {
    var x := Solo(db, jobs, Some(StepRunning));
    StepThen(Solo(db, jobs, Some(CheckDone)), x, StepJob(s), e, n);
    StepThen(x, Solo(MarkStepRunning(db, s), jobs, Some(DoWork)), StepJob(s), e, n - 1);
  }

  lemma StepTail(db: Db, jobs: set<Job>, s: StepName, e: Env, n: nat)
    requires e.ack && n >= 2
    ensures SoloRun(Solo(db, jobs, Some(StepSucceeded(true))), StepJob(s), Calms(e, n))
            == Solo(MarkStepSucceeded(db, s), jobs + {Successor(s, true)}, None)
  {
    var x := Solo(MarkStepSucceeded(db, s), jobs, Some(Chain(true)));
    var y := Solo(x.db, jobs + {Successor(s, true)}, None);
    StepThen(Solo(db, jobs, Some(StepSucceeded(true))), x, StepJob(s), e, n);
    StepThen(x, y, StepJob(s), e, n - 1);
    IdleRun(y, StepJob(s), Calms(e, n - 2));
  }

  /** The drill is running and the next step is due; steps from it on are not succeeded. */
  predicate Progress(db: Db, jobs: set<Job>, next: StepName) {
    && db.status == Running && db.sandbox.Some? && !db.purged
    && StepJob(next) in jobs
    && (forall s :: s in LaterSteps(next) || s == next ==> db.steps.Get(s) != Succeeded)
  }

  /** What the runs before report keep: evidence, retention and skipped steps. */
  predicate Keeps(db: Db, db': Db) {
    && db'.stored == db.stored && db'.signed == db.signed && db'.purged == db.purged
    && forall s :: db.steps.Get(s) == Skipped <==> db'.steps.Get(s) == Skipped
  }

  /** The step succeeded, unless it is skipped, and no other step changed. */
  predicate Ran(db: Db, db': Db, s: StepName) {
    db'.steps == db.steps.Set(s, if db.steps.Get(s) == Skipped then Skipped else Succeeded)
  }

  /** The data after an undisturbed run of a step: the next one is due. */
  lemma ProgressNext(db: Db, jobs: set<Job>, s: StepName, db': Db, next: StepName)
    requires Progress(db, jobs, s) && s in {Fetch, Restore, Assert} && Successor(s, true) == StepJob(next)
    requires Ran(db, db', s)
    requires db'.status == db.status && db'.sandbox == db.sandbox && db'.purged == db.purged
    requires db'.stored == db.stored && db'.signed == db.signed
    ensures Progress(db', jobs + {StepJob(next)}, next) && Keeps(db, db')
  {
  }

  lemma RanSteps(db: Db, s: StepName)
    requires db.steps.Get(s) != Succeeded
    ensures Ran(db, MarkStepSucceeded(MarkStepRunning(db, s), s), s)
  {
  }

  /** The provision run up to its work. */
  lemma ProvisionHead(db: Db, jobs: set<Job>, e: Env, n: nat)
    requires e.ok && e.ack && n >= 3 && db.steps.provision != Succeeded && db.status in {Pending, Running}
    ensures var d := MarkStepRunning(db.(status := Running), Provision);
            SoloRun(Solo(db, jobs, Some(CheckDone)), StepJob(Provision), Calms(e, n))
            == SoloRun(Solo(d, jobs, Some(DoWork)), StepJob(Provision), Calms(e, n - 3))
  {
    var job, d1 := StepJob(Provision), db.(status := Running);
    var x1 := Solo(db, jobs, Some(DrillRunning));
    var x2 := Solo(d1, jobs, Some(StepRunning));
    var x3 := Solo(MarkStepRunning(d1, Provision), jobs, Some(DoWork));
    StepThen(Solo(db, jobs, Some(CheckDone)), x1, job, e, n);
    StepThen(x1, x2, job, e, n - 1);
    StepThen(x2, x3, job, e, n - 2);
  }

  /** A drill whose provision may still run. */
  predicate Starting(db: Db) {
    && db.status in {Pending, Running} && !db.purged
    && forall s :: db.steps.Get(s) != Succeeded
  }

  lemma ProvisionRun(db: Db, jobs: set<Job>, e: Env, n: nat)
    requires n >= 7 && e.ok && e.ack && Starting(db)
    ensures var (db', jobs') := Session(db, jobs, StepJob(Provision), Calms(e, n));
            && Progress(db', jobs', Fetch) && Keeps(db, db') && Ran(db, db', Provision)
            && db'.sandbox == Some(e.text)
  {
    var job := StepJob(Provision);
    var d2 := MarkStepRunning(db.(status := Running), Provision);
    var d3 := d2.(sandbox := Some(e.text));
    ProvisionHead(db, jobs, e, n);
    var x4 := Solo(d2, jobs, Some(SetSandbox(e.text)));
    StepThen(Solo(d2, jobs, Some(DoWork)), x4, job, e, n - 3);
    StepThen(x4, Solo(d3, jobs, Some(StepSucceeded(true))), job, e, n - 4);
    StepTail(d3, jobs, Provision, e, n - 5);
    RanSteps(db.(status := Running), Provision);
  }

  lemma FetchRun(db: Db, jobs: set<Job>, e: Env, n: nat)
    requires n >= 6 && e.ok && e.ack && Progress(db, jobs, Fetch)
    ensures var (db', jobs') := Session(db, jobs, StepJob(Fetch), Calms(e, n));
            && Progress(db', jobs', Restore) && Keeps(db, db') && Ran(db, db', Fetch)
            && db'.sourceHash == Some(e.text)
  {
    var d := MarkStepRunning(db, Fetch);
    var x := Solo(d, jobs, Some(SetSourceHash(e.text)));
    StepHead(db, jobs, Fetch, e, n);
    StepThen(Solo(d, jobs, Some(DoWork)), x, StepJob(Fetch), e, n - 2);
    StepThen(x, Solo(d.(sourceHash := Some(e.text)), jobs, Some(StepSucceeded(true))), StepJob(Fetch), e, n - 3);
    StepTail(d.(sourceHash := Some(e.text)), jobs, Fetch, e, n - 4);
    RanSteps(db, Fetch);
    ProgressNext(db, jobs, Fetch, MarkStepSucceeded(d.(sourceHash := Some(e.text)), Fetch), Restore);
  }

  lemma RestoreRun(db: Db, jobs: set<Job>, e: Env, n: nat)
    requires n >= 6 && e.ok && e.ack && Progress(db, jobs, Restore)
    ensures var (db', jobs') := Session(db, jobs, StepJob(Restore), Calms(e, n));
            Progress(db', jobs', Assert) && Keeps(db, db') && Ran(db, db', Restore)
  {
    var d := MarkStepRunning(db, Restore);
    var x := Solo(d, jobs, Some(SetOutput(true, e.text)));
    StepHead(db, jobs, Restore, e, n);
    StepThen(Solo(d, jobs, Some(DoWork)), x, StepJob(Restore), e, n - 2);
    StepThen(x, Solo(d, jobs, Some(StepSucceeded(true))), StepJob(Restore), e, n - 3);
    StepTail(d, jobs, Restore, e, n - 4);
    RanSteps(db, Restore);
    ProgressNext(db, jobs, Restore, MarkStepSucceeded(d, Restore), Assert);
  }

  lemma ClearRun(db: Db, jobs: set<Job>, e: Env, specs: seq<Spec>, n: nat)
    requires e.ok && e.ack && n >= 2
    ensures SoloRun(Solo(db, jobs, Some(ClearResults(specs))), StepJob(Assert), Calms(e, n))
            == SoloRun(Solo(db.(results := []), jobs, Some(RecordResult(specs, 0))), StepJob(Assert), Calms(e, n - 2))
  {
    var job, d := StepJob(Assert), db.(results := []);
    StepThen(Solo(db, jobs, Some(ClearResults(specs))), Solo(d, jobs, Some(Connect(specs))), job, e, n);
    StepThen(Solo(d, jobs, Some(Connect(specs))), Solo(d, jobs, Some(RecordResult(specs, 0))), job, e, n - 1);
  }

  lemma RecordStep(db: Db, jobs: set<Job>, e: Env, specs: seq<Spec>, i: nat, n: nat)
    requires e.ok && e.ack && n > 0 && i < |specs|
    ensures SoloRun(Solo(db, jobs, Some(RecordResult(specs, i))), StepJob(Assert), Calms(e, n))
            == SoloRun(Solo(db.(results := db.results + [ResultRow(specs[i].kind, e.passed)]), jobs,
                            Some(RecordResult(specs, i + 1))), StepJob(Assert), Calms(e, n - 1))
  {
    Recorded(db, jobs, e, specs, i);
    var d := db.(results := db.results + [ResultRow(specs[i].kind, e.passed)]);
    StepThen(Solo(db, jobs, Some(RecordResult(specs, i))), Solo(d, jobs, Some(RecordResult(specs, i + 1))), StepJob(Assert), e, n);
  }

  lemma Recorded(db: Db, jobs: set<Job>, e: Env, specs: seq<Spec>, i: nat)
    requires e.ok && e.ack && i < |specs|
    ensures SoloStep(Solo(db, jobs, Some(RecordResult(specs, i))), StepJob(Assert), e)
            == Solo(db.(results := db.results + [ResultRow(specs[i].kind, e.passed)]), jobs, Some(RecordResult(specs, i + 1)))
  {
  }

  lemma RecordEnd(db: Db, jobs: set<Job>, e: Env, specs: seq<Spec>, n: nat)
    requires n > 0
    ensures SoloRun(Solo(db, jobs, Some(RecordResult(specs, |specs|))), StepJob(Assert), Calms(e, n))
            == SoloRun(Solo(db, jobs, Some(StepSucceeded(true))), StepJob(Assert), Calms(e, n - 1))
  {
    StepThen(Solo(db, jobs, Some(RecordResult(specs, |specs|))), Solo(db, jobs, Some(StepSucceeded(true))), StepJob(Assert), e, n);
  }

  lemma RecordRun(db: Db, jobs: set<Job>, e: Env, spec: Spec, n: nat)
    requires e.ok && e.ack && n >= 4
    ensures SoloRun(Solo(db, jobs, Some(ClearResults([spec]))), StepJob(Assert), Calms(e, n))
            == SoloRun(Solo(db.(results := [ResultRow(spec.kind, e.passed)]), jobs, Some(StepSucceeded(true))),
                       StepJob(Assert), Calms(e, n - 4))
  {
    var d0, d := db.(results := []), db.(results := [ResultRow(spec.kind, e.passed)]);
    ClearRun(db, jobs, e, [spec], n);
    assert [] + [ResultRow(spec.kind, e.passed)] == d.results;
    RecordStep(d0, jobs, e, [spec], 0, n - 2);
    RecordEnd(d, jobs, e, [spec], n - 3);
  }

  lemma AssertRun(db: Db, jobs: set<Job>, e: Env, spec: Spec, n: nat)
    requires n >= 9 && e.ok && e.ack && e.specs == [spec] && Progress(db, jobs, Assert)
    ensures var (db', jobs') := Session(db, jobs, StepJob(Assert), Calms(e, n));
            && Progress(db', jobs', Report) && Keeps(db, db') && Ran(db, db', Assert)
            && db'.results == [ResultRow(spec.kind, e.passed)]
  {
    var d := MarkStepRunning(db, Assert);
    var x := Solo(d.(listed := [spec]), jobs, Some(ClearResults([spec])));
    StepHead(db, jobs, Assert, e, n);
    StepThen(Solo(d, jobs, Some(DoWork)), x, StepJob(Assert), e, n - 2);
    RecordRun(x.db, jobs, e, spec, n - 3);
    var d' := x.db.(results := [ResultRow(spec.kind, e.passed)]);
    StepTail(d', jobs, Assert, e, n - 7);
    RanSteps(db, Assert);
    ProgressNext(db, jobs, Assert, MarkStepSucceeded(d', Assert), Report);
  }

  /** A repeated job of a step that is done writes nothing and only enqueues its successor; fetch needs the
      sandbox for that, and report enqueues a teardown job without a reason. */
  lemma DoneStepOnlyChains(db: Db, jobs: set<Job>, s: StepName, e: Env, n: nat)
    requires s != Teardown && db.steps.Get(s) == Succeeded && e.ok && e.ack && n >= 3
    ensures Session(db, jobs, StepJob(s), Calms(e, n))
            == (db, if s == Fetch && db.sandbox.None? then jobs
                    else jobs + {match s
                                 case Provision => StepJob(Fetch)
                                 case Fetch => StepJob(Restore)
                                 case Restore => StepJob(Assert)
                                 case Assert => StepJob(Report)
                                 case _ => TeardownJob(NoReason)})
  {
    var job, x := StepJob(s), Solo(db, jobs, Some(CheckDone));
    var y := SoloStep(x, job, e);
    StepThen(x, y, job, e, n);
    var z := SoloStep(y, job, e);
    StepThen(y, z, job, e, n - 1);
    var w := SoloStep(z, job, e);
    StepThen(z, w, job, e, n - 2);
    IdleRun(w, job, Calms(e, n - 3));
  }

  /** From a drill whose provision is due to one whose report is due. */
  lemma ReachReport(db0: Db, jobs0: set<Job>, e: Env, spec: Spec) returns (db: Db, jobs: set<Job>)
    requires Reachable(db0, jobs0) && StepJob(Provision) in jobs0 && Starting(db0)
    requires e.ok && e.ack && e.specs == [spec]
    ensures Reachable(db, jobs) && Progress(db, jobs, Report) && Keeps(db0, db)
    ensures StepJob(Assert) in jobs && db.results == [ResultRow(spec.kind, e.passed)]
  {
    var n: nat := 9;
    ReachSession(db0, jobs0, StepJob(Provision), Calms(e, n));
    ProvisionRun(db0, jobs0, e, n);
    var s := Session(db0, jobs0, StepJob(Provision), Calms(e, n));
    db, jobs := s.0, s.1;
    ReachSession(db, jobs, StepJob(Fetch), Calms(e, n));
    FetchRun(db, jobs, e, n);
    s := Session(db, jobs, StepJob(Fetch), Calms(e, n));
    db, jobs := s.0, s.1;
    ReachSession(db, jobs, StepJob(Restore), Calms(e, n));
    RestoreRun(db, jobs, e, n);
    s := Session(db, jobs, StepJob(Restore), Calms(e, n));
    db, jobs := s.0, s.1;
    ReachSession(db, jobs, StepJob(Assert), Calms(e, n));
    AssertRun(db, jobs, e, spec, n);
    s := Session(db, jobs, StepJob(Assert), Calms(e, n));
    db, jobs := s.0, s.1;
  }

  lemma NewReachable()
    ensures Reachable(NEW_DRILL, {StepJob(Provision)}) && Starting(NEW_DRILL)
  {
    assert SerialExec(INIT, []) == INIT;
  }

  // ---- losing the verdict between the last two writes ----

  /** Some drill with a due report is reached by a serial run; its report run along the script, the
      undisturbed retry and the teardown job the retry enqueues then end it succeeded with a stored report
      saying FAILED. */
  ghost predicate LosesVerdict(script: seq<Env>) {
    exists db, jobs :: Reachable(db, jobs) && StepJob(Report) in jobs && LostFrom(db, jobs, script)
  }

  ghost predicate LostFrom(db: Db, jobs: set<Job>, script: seq<Env>) {
    var e, n: nat, m: nat := Calm(true, 0), 8, 6;
    var (d, j) := RunAndRetry(db, jobs, script, e, n);
    var (t, k) := Session(d, j, TeardownJob(NoReason), Calms(e, m));
    TeardownJob(NoReason) in j && Reachable(t, k) && t.status == Succeeded && SaysFailed(t)
  }

  /** Every script that lets MarkStepSucceeded arrive and MarkDrillFailed not loses the verdict of a new
      drill with one failing assertion. */
  lemma EveryLosingScriptLoses(script: seq<Env>)
    requires Commits(script, 6) && !Commits(script, 7)
    ensures LosesVerdict(script)
  {
    NewReachable();
    var db, jobs := ReachReport(NEW_DRILL, {StepJob(Provision)}, Calm(false, 0), Spec("row_count"));
    assert !db.results[0].passed;
    var e, n: nat, m: nat := Calm(true, 0), 8, 6;
    ReachSession(db, jobs, StepJob(Report), script);
    var (d1, j1) := Session(db, jobs, StepJob(Report), script);
    ReachSession(d1, j1, StepJob(Report), Calms(e, n));
    VerdictLostExactly(db, jobs, script, e, n, NoReason, m);
    var (d2, j2) := Session(d1, j1, StepJob(Report), Calms(e, n));
    ReachSession(d2, j2, TeardownJob(NoReason), Calms(e, m));
    assert LostFrom(db, jobs, script);
  }

  /** The run dies between the two writes. */
  lemma VerdictLostByCrash(n: nat)
    requires n == 7
    ensures LosesVerdict(Calms(Calm(true, 0), n))
  {
    CalmCommits(Calm(true, 0), n, 6);
    EveryLosingScriptLoses(Calms(Calm(true, 0), n));
  }

  /** Nothing dies: MarkStepSucceeded arrives and only its acknowledgement is lost. */
  lemma VerdictLostByAcknowledgement(n: nat)
    requires n == 6
    ensures LosesVerdict(Calms(Calm(true, 0), n) + [Calm(true, 0).(ack := false)])
  {
    EveryLosingScriptLoses(Calms(Calm(true, 0), n) + [Calm(true, 0).(ack := false)]);
  }

  // ---- losing it through skipped steps ----

  lemma {:induction false} SoloRunSplit(x: Solo, job: Job, xs: seq<Env>, ys: seq<Env>)
    ensures SoloRun(x, job, xs + ys) == SoloRun(SoloRun(x, job, xs), job, ys)
    decreases |xs|
  {
    if xs == [] {
      assert xs + ys == ys;
    } else {
      assert (xs + ys)[0] == xs[0] && (xs + ys)[1..] == xs[1..] + ys;
      SoloRunSplit(SoloStep(x, job, xs[0]), job, xs[1..], ys);
    }
  }

  /** Everything from the failure of provision to its lost teardown insert. */
  lemma ProvisionFails(d: Db, jobs: set<Job>, bad: Env, n: nat)
    requires !bad.ok && bad.ack && n == 7 && d.steps == StepTable(Running, Pending, Pending, Pending, Pending, Pending)
    ensures var x := SoloRun(Solo(d, jobs, Some(DoWork)), StepJob(Provision), Calms(bad, n));
            && x.db == d.(steps := StepTable(Failed, Skipped, Skipped, Skipped, Skipped, Pending))
            && x.jobs == jobs
  {
    var job, t := StepJob(Provision), bad.text;
    var d1 := d.(steps := d.steps.(provision := Failed));
    var d2 := d1.(steps := d1.steps.(fetch := Skipped));
    var d3 := d2.(steps := d2.steps.(restore := Skipped));
    var d4 := d3.(steps := d3.steps.(asserts := Skipped));
    var d5 := d4.(steps := d4.steps.(report := Skipped));
    StepThen(Solo(d, jobs, Some(DoWork)), Solo(d, jobs, Some(StepFailed(t))), job, bad, n);
    StepThen(Solo(d, jobs, Some(StepFailed(t))), Solo(d1, jobs, Some(SkipLater(t, 0))), job, bad, n - 1);
    StepThen(Solo(d1, jobs, Some(SkipLater(t, 0))), Solo(d2, jobs, Some(SkipLater(t, 1))), job, bad, n - 2);
    StepThen(Solo(d2, jobs, Some(SkipLater(t, 1))), Solo(d3, jobs, Some(SkipLater(t, 2))), job, bad, n - 3);
    StepThen(Solo(d3, jobs, Some(SkipLater(t, 2))), Solo(d4, jobs, Some(SkipLater(t, 3))), job, bad, n - 4);
    StepThen(Solo(d4, jobs, Some(SkipLater(t, 3))), Solo(d5, jobs, Some(SkipLater(t, 4))), job, bad, n - 5);
    StepThen(Solo(d5, jobs, Some(SkipLater(t, 4))), Solo(d5, jobs, Some(InsertTeardown(t))), job, bad, n - 6);
  }

  /** A new drill whose first provision run failed, skipped the later steps and lost its teardown job. */
  lemma SkippedReachable() returns (db: Db, jobs: set<Job>)
    ensures Reachable(db, jobs) && StepJob(Provision) in jobs && Starting(db)
    ensures db.steps.asserts == Skipped && db.steps.report == Skipped
  {
    var e, n: nat, m: nat := Calm(true, 0), 3, 7;
    var bad := e.(ok := false);
    var job, jobs0 := StepJob(Provision), {StepJob(Provision)};
    NewReachable();
    ReachSession(NEW_DRILL, jobs0, job, Calms(e, n) + Calms(bad, m));
    var x := Solo(NEW_DRILL, jobs0, Some(CheckDone));
    SoloRunSplit(x, job, Calms(e, n), Calms(bad, m));
    ProvisionHead(NEW_DRILL, jobs0, e, n);
    var d := MarkStepRunning(NEW_DRILL.(status := Running), Provision);
    assert SoloRun(Solo(d, jobs0, Some(DoWork)), job, Calms(e, n - 3)) == Solo(d, jobs0, Some(DoWork));
    ProvisionFails(d, jobs0, bad, m);
    var s := Session(NEW_DRILL, jobs0, job, Calms(e, n) + Calms(bad, m));
    db, jobs := s.0, s.1;
  }

  /** Provision then succeeds on its retry, and the pipeline runs over the skipped steps to a passing
      report; a repeated assert run then records a failure. */
  lemma StaleReachable() returns (db: Db, jobs: set<Job>)
    ensures Reachable(db, jobs) && Progress(db, jobs, Report) && TeardownJob(NoReason) in jobs
    ensures !AllPassed(db.results) && db.signed.Some? && AllPassed(db.signed.value.rows)
  {
    var spec, e := Spec("row_count"), Calm(true, 0);
    var d0, j0 := SkippedReachable();
    var d1, j1 := ReachReport(d0, j0, e, spec);
    var n: nat := 9;
    var script := Calms(e, n);
    ReachSession(d1, j1, StepJob(Report), script);
    ReportRunExactly(d1, j1, script);
    CalmCommits(e, n, 4);
    CalmCommits(e, n, 7);
    assert AllPassed(Rendered(d1, script).rows);
    var s := Session(d1, j1, StepJob(Report), script);
    db, jobs := s.0, s.1;
    var f := Calm(false, 0);
    assert Progress(db, jobs, Assert);
    ReachSession(db, jobs, StepJob(Assert), Calms(f, n));
    AssertRun(db, jobs, f, spec, n);
    s := Session(db, jobs, StepJob(Assert), Calms(f, n));
    db, jobs := s.0, s.1;
    assert !db.results[0].passed;
  }

  /** The next report run dies right after its object write, and the queued teardown job runs.  A serial
      run: the drill is succeeded, nothing is purged, the stored report says FAILED, and the signature is
      over another document. */
  lemma SkippedStepsLoseVerdictAndSignature()
    ensures exists db, jobs ::
              && Reachable(db, jobs) && db.status == Succeeded && !db.purged
              && SaysFailed(db) && db.signed.Some? && db.signed != db.stored
  {
    var db, jobs := StaleReachable();
    var e, n: nat, m: nat := Calm(true, 0), 4, 6;
    var script := Calms(e, n);
    ReachSession(db, jobs, StepJob(Report), script);
    ReportRunExactly(db, jobs, script);
    CalmCommits(e, n, 3);
    TeardownBeforeRetry(db, jobs, script, e, m);
    var (d, j) := Session(db, jobs, StepJob(Report), script);
    ReachSession(d, j, TeardownJob(NoReason), Calms(e, m));
    TeardownRun(d, j, NoReason, e, m);
  }
}

/**
 Why the signature result needs serial runs: two report workers of one drill can interleave their
 Finalize calls so that a succeeded drill ends with a signature over a document that is not the stored
 one.
 */
module DrillRace {
  import opened Wrappers
  import opened Runs
  import opened DrillPipeline
  import opened DrillSerial
  import opened DrillSolo
  import opened DrillCuts
  import opened DrillRuns

  ghost predicate Reached(s: State) { exists acts :: Exec(INIT, acts) == s }

  lemma ReachedStep(s: State, a: Action, s': State)
    requires Reached(s) && Step(s, a) == s'
    ensures Reached(s')
  {
    var acts :| Exec(INIT, acts) == s;
    FoldSplit(Step, INIT, acts, [a]);
    assert Exec(s, [a]) == Exec(s', []);
    assert Exec(INIT, acts + [a]) == s';
  }

  /** Serial runs are interleaved runs. */
  lemma {:induction false} SerialReached(s: State, acts: seq<Action>)
    requires Reached(s)
    ensures Reached(SerialExec(s, acts))
    decreases |acts|
  {
    if acts != [] {
      var s' := SerialStep(s, acts[0]);
      if s' != s { ReachedStep(s, acts[0], s'); }
      SerialReached(s', acts[1..]);
    }
  }

  /** Two live report workers. */
  function Duo(db: Db, jobs: set<Job>, a: Pc, b: Pc): State {
    State(db, jobs, map[0 := Worker(StepJob(Report), a), 1 := Worker(StepJob(Report), b)])
  }

  lemma DuoFirst(db: Db, jobs: set<Job>, a: Pc, b: Pc, e: Env, db': Db, a': Pc)
    requires Reached(Duo(db, jobs, a, b)) && AdvanceStep(db, Report, a, e) == Effect(db', Some(a'), None)
    ensures Reached(Duo(db', jobs, a', b))
  {
    assert Step(Duo(db, jobs, a, b), Run(0, e)).live == Duo(db', jobs, a', b).live;
    ReachedStep(Duo(db, jobs, a, b), Run(0, e), Duo(db', jobs, a', b));
  }

  lemma DuoSecond(db: Db, jobs: set<Job>, a: Pc, b: Pc, e: Env, db': Db, b': Pc)
    requires Reached(Duo(db, jobs, a, b)) && AdvanceStep(db, Report, b, e) == Effect(db', Some(b'), None)
    ensures Reached(Duo(db', jobs, a, b'))
  {
    assert Step(Duo(db, jobs, a, b), Run(1, e)).live == Duo(db', jobs, a, b').live;
    ReachedStep(Duo(db, jobs, a, b), Run(1, e), Duo(db', jobs, a, b'));
  }

  lemma DuoStart(db: Db, jobs: set<Job>)
    requires Reached(State(db, jobs, map[])) && StepJob(Report) in jobs
    ensures Reached(Duo(db, jobs, CheckDone, CheckDone))
  {
    var s := State(db, jobs, map[]);
    var s1 := State(db, jobs, map[0 := Worker(StepJob(Report), CheckDone)]);
    assert Step(s, Start(0, StepJob(Report))).live == s1.live;
    ReachedStep(s, Start(0, StepJob(Report)), s1);
    assert Step(s1, Start(1, StepJob(Report))).live == Duo(db, jobs, CheckDone, CheckDone).live;
    ReachedStep(s1, Start(1, StepJob(Report)), Duo(db, jobs, CheckDone, CheckDone));
  }

  /** Both workers have rendered; each holds its own document. */
  lemma DuoRendered(db: Db, jobs: set<Job>)
    requires Reached(State(db, jobs, map[])) && Progress(db, jobs, Report)
    ensures Reached(Duo(MarkStepRunning(db, Report), jobs,
                        PutObject(Pdf(db.results, 0)), PutObject(Pdf(db.results, 1))))
  {
    var e, f := Calm(true, 0), Calm(true, 1);
    var d := MarkStepRunning(db, Report);
    var p, q := PutObject(Pdf(db.results, 0)), PutObject(Pdf(db.results, 1));
    DuoStart(db, jobs);
    DuoFirst(db, jobs, CheckDone, CheckDone, e, db, StepRunning);
    DuoFirst(db, jobs, StepRunning, CheckDone, e, d, DoWork);
    DuoFirst(d, jobs, DoWork, CheckDone, e, d, p);
    DuoSecond(d, jobs, p, CheckDone, f, d, StepRunning);
    DuoSecond(d, jobs, p, StepRunning, f, d, DoWork);
    DuoSecond(d, jobs, p, DoWork, f, d, q);
  }

  /** The first worker stores, the second stores over it and signs, the first signs over that. */
  lemma DuoFinalized(d: Db, jobs: set<Job>, p: Pdf, q: Pdf)
    requires Reached(Duo(d, jobs, PutObject(p), PutObject(q)))
    ensures Reached(Duo(d.(stored := Some(q), signed := Some(p)), jobs, SetEvidence(p), SetEvidence(q)))
  {
    var e := Calm(true, 0);
    var d1 := d.(stored := Some(p));
    var d2 := d.(stored := Some(q));
    var d3 := d2.(signed := Some(q));
    DuoFirst(d, jobs, PutObject(p), PutObject(q), e, d1, RecordSignature(p));
    DuoSecond(d1, jobs, RecordSignature(p), PutObject(q), e, d2, RecordSignature(q));
    DuoSecond(d2, jobs, RecordSignature(p), RecordSignature(q), e, d3, SetEvidence(q));
    DuoFirst(d3, jobs, RecordSignature(p), SetEvidence(q), e, d2.(signed := Some(p)), SetEvidence(p));
  }

  /** The second worker dies and the first inserts its successor. */
  lemma DuoChain(d: Db, jobs: set<Job>, b: Pc)
    requires Reached(Duo(d, jobs, Chain(true), b))
    ensures Reached(State(d, jobs + {TeardownJob(NoReason)}, map[]))
  {
    var s := Duo(d, jobs, Chain(true), b);
    var s1 := State(d, jobs, map[0 := Worker(StepJob(Report), Chain(true))]);
    assert Step(s, Crash(1)).live == s1.live;
    ReachedStep(s, Crash(1), s1);
    var s2 := State(d, jobs + {TeardownJob(NoReason)}, map[]);
    assert Step(s1, Run(0, Calm(true, 0))).live == s2.live;
    ReachedStep(s1, Run(0, Calm(true, 0)), s2);
  }

  lemma DuoFinish(d: Db, jobs: set<Job>, p: Pdf, b: Pc)
    requires Reached(Duo(d, jobs, SetEvidence(p), b)) && AllPassed(p.rows)
    ensures var d' := MarkStepSucceeded(d.(evidencePath := Some(EVIDENCE_KEY)), Report);
            Reached(State(d', jobs + {TeardownJob(NoReason)}, map[]))
  {
    var e := Calm(true, 0);
    var d1 := d.(evidencePath := Some(EVIDENCE_KEY));
    DuoFirst(d, jobs, SetEvidence(p), b, e, d1, StepSucceeded(true));
    DuoFirst(d1, jobs, StepSucceeded(true), b, e, MarkStepSucceeded(d1, Report), Chain(true));
    DuoChain(MarkStepSucceeded(d1, Report), jobs, b);
  }

  lemma Mixed() returns (d: Db, jobs: set<Job>)
    ensures Reached(State(d, jobs, map[])) && TeardownJob(NoReason) in jobs
    ensures d.status == Running && d.steps.report == Succeeded && !d.purged && d.stored.Some? && d.signed.Some? && d.stored != d.signed
  {
    NewReachable();
    d, jobs := ReachReport(NEW_DRILL, {StepJob(Provision)}, Calm(true, 0), Spec("row_count"));
    assert Reached(INIT) by { assert Exec(INIT, []) == INIT; }
    var prefix :| SerialExec(INIT, prefix) == State(d, jobs, map[]);
    SerialReached(INIT, prefix);
    var p, q := Pdf(d.results, 0), Pdf(d.results, 1);
    DuoRendered(d, jobs);
    d := MarkStepRunning(d, Report);
    DuoFinalized(d, jobs, p, q);
    d := d.(stored := Some(q), signed := Some(p));
    DuoFinish(d, jobs, p, SetEvidence(q));
    d := MarkStepSucceeded(d.(evidencePath := Some(EVIDENCE_KEY)), Report);
    jobs := jobs + {TeardownJob(NoReason)};
  }

  /** A run in which drill and report step succeed, nothing is purged, and the recorded signature covers a document
      other than the stored one. */
  lemma SignatureCanMissStoredObject()
    ensures exists acts ::
              var s := Exec(INIT, acts);
              && s.live == map[] && s.db.status == Succeeded && s.db.steps.report == Succeeded && !s.db.purged
              && s.db.stored.Some? && s.db.signed.Some? && s.db.stored != s.db.signed
  {
    var d, jobs := Mixed();
    var job, n: nat := TeardownJob(NoReason), 6;
    var envs := Calms(Calm(true, 0), n);
    SessionIsSerial(d, jobs, job, envs);
    SerialReached(State(d, jobs, map[]), SessionActions(job, envs));
    TeardownRun(d, jobs, NoReason, Calm(true, 0), n);
    var (d', jobs') := Session(d, jobs, job, envs);
    assert d'.steps.Get(Report) == d.steps.Get(Report);
    var acts :| Exec(INIT, acts) == State(d', jobs', map[]);
  }
}

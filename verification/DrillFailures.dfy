/**
 What a step whose work fails does to the drill, along any script: the step is failed, what waits behind it
 is skipped, and a teardown job carries the reason, which ends the drill failed.
 */
module DrillFailures {
  import opened Wrappers
  import opened DrillPipeline
  import opened DrillSerial
  import opened DrillSolo
  import opened DrillCuts

  // ---- where the work of a step can fail ----

  /** The first entries of a run's script go to the check whether the step is done (0), provision's
      MarkDrillRunning (1) and MarkStepRunning. */
  function WorkAt(s: StepName): nat { if s == Provision then 3 else 2 }

  /** The entry lets the run go on towards the end of its work.  Entries of an assert run after its work
      entry go to clearing, connecting and one assertion each; of a report run to object and signature. */
  predicate Proceeds(s: StepName, i: nat, e: Env) {
    if i == 0 then e.ok
    else if i < WorkAt(s) then e.ack
    else if s == Assert then (if i <= 3 then e.ack else if i == 4 then e.ok else e.ok && e.ack)
    else e.ack && (i == WorkAt(s) ==> e.ok)
  }

  /** The entry makes the work fail: sandbox, fetch, restore or render fails; earlier results cannot be
      cleared, no connection, an assertion that cannot be run or recorded; object or signature cannot be
      written. */
  predicate Breaks(s: StepName, specs: seq<Spec>, i: nat, e: Env) {
    match s
    case Provision => i == 3 && e.ack && !e.ok
    case Fetch => i == 2 && e.ack && !e.ok
    case Restore => i == 2 && e.ack && !e.ok
    case Assert => (i == 3 && !e.ack) || (i == 4 && !e.ok) || (5 <= i < 5 + |specs| && !(e.ok && e.ack))
    case Report => (i == 2 && e.ack && !e.ok) || (3 <= i <= 4 && !e.ack)
    case Teardown => false
  }

  /** The work fails at entry f, and all writes after that are acknowledged until the cleanup is over. */
  predicate FailsAt(s: StepName, script: seq<Env>, f: nat) {
    && f + CleanupLength(s) < |script|
    && (forall i :: 0 <= i < f ==> Proceeds(s, i, script[i]))
    && Breaks(s, if f > 2 then script[2].specs else [], f, script[f])
    && (forall i :: f < i < |script| ==> script[i].ack)
  }

  function CleanupLength(s: StepName): nat { |LaterSteps(s)| + 3 + if s == Restore then 1 else 0 }

  // ---- runs ----

  lemma On(x: Solo, job: Job, script: seq<Env>, k: nat)
    requires k < |script|
    ensures SoloRun(x, job, script[k..]) == SoloRun(SoloStep(x, job, script[k]), job, script[k + 1..])
  {
    assert script[k..][1..] == script[k + 1..];
  }

  /** What the cleanup leaves: a pending step among those skipped is skipped, all else is as it was. */
  predicate Skipping(t: StepTable, u: StepTable, later: seq<StepName>) {
    forall r :: u.Get(r) == if r in later && t.Get(r) == Pending then Skipped else t.Get(r)
  }

  lemma InsertRun(db: Db, jobs: set<Job>, s: StepName, text: string, script: seq<Env>, k: nat)
    requires k + 1 < |script| && script[k + 1].ack
    ensures SoloRun(Solo(db, jobs, Some(SkipLater(text, |LaterSteps(s)|))), StepJob(s), script[k..])
            == Solo(db, jobs + {TeardownJob(StepError(s, text))}, None)
  {
    var x := Solo(db, jobs, Some(InsertTeardown(text)));
    On(Solo(db, jobs, Some(SkipLater(text, |LaterSteps(s)|))), StepJob(s), script, k);
    On(x, StepJob(s), script, k + 1);
    IdleRun(SoloStep(x, StepJob(s), script[k + 1]), StepJob(s), script[k + 2..]);
  }

  lemma SkipOne(db: Db, jobs: set<Job>, s: StepName, text: string, i: nat, script: seq<Env>, k: nat)
    requires i < |LaterSteps(s)| && k < |script| && script[k].ack
    ensures SoloRun(Solo(db, jobs, Some(SkipLater(text, i))), StepJob(s), script[k..])
            == SoloRun(Solo(MarkStepSkipped(db, LaterSteps(s)[i]), jobs, Some(SkipLater(text, i + 1))), StepJob(s),
                       script[k + 1..])
  {
    On(Solo(db, jobs, Some(SkipLater(text, i))), StepJob(s), script, k);
  }

  lemma SkippingOn(db: Db, later: seq<StepName>, i: nat)
    requires i < |later|
    ensures forall u :: Skipping(MarkStepSkipped(db, later[i]).steps, u, later[i + 1..]) ==>
              Skipping(db.steps, u, later[i..])
  {
    assert later[i..] == [later[i]] + later[i + 1..];
  }

  lemma {:induction false} SkipRun(db: Db, jobs: set<Job>, s: StepName, text: string, i: nat, script: seq<Env>, k: nat)
    requires i <= |LaterSteps(s)| && k + |LaterSteps(s)| - i + 1 < |script|
    requires forall j :: k <= j < |script| ==> script[j].ack
    ensures var x := SoloRun(Solo(db, jobs, Some(SkipLater(text, i))), StepJob(s), script[k..]);
            && x.db == db.(steps := x.db.steps) && Skipping(db.steps, x.db.steps, LaterSteps(s)[i..])
            && x.jobs == jobs + {TeardownJob(StepError(s, text))}
    decreases |LaterSteps(s)| - i
  {
    var later := LaterSteps(s);
    if i == |later| {
      InsertRun(db, jobs, s, text, script, k);
      assert later[i..] == [];
    } else {
      var d := MarkStepSkipped(db, later[i]);
      SkipOne(db, jobs, s, text, i, script, k);
      SkipRun(d, jobs, s, text, i + 1, script, k + 1);
      SkippingOn(db, later, i);
      assert d == db.(steps := d.steps);
    }
  }

  lemma LaterExactly(s: StepName, r: StepName)
    ensures r in LaterSteps(s) <==> Ordinal(s) < Ordinal(r) < 5
  {
  }

  /** The steps a failed step leaves: itself failed, pending ones between it and teardown skipped. */
  predicate StepFailedIn(t: StepTable, u: StepTable, s: StepName) {
    forall r :: u.Get(r) == if r == s then Failed
                            else if Ordinal(s) < Ordinal(r) < 5 && t.Get(r) == Pending then Skipped
                            else t.Get(r)
  }

  lemma CleanupRun(db: Db, jobs: set<Job>, s: StepName, text: string, script: seq<Env>, k: nat)
    requires k + |LaterSteps(s)| + 2 < |script| && forall j :: k <= j < |script| ==> script[j].ack
    ensures var x := SoloRun(Solo(db, jobs, Some(StepFailed(text))), StepJob(s), script[k..]);
            && x.db == db.(steps := x.db.steps) && StepFailedIn(db.steps, x.db.steps, s)
            && x.jobs == jobs + {TeardownJob(StepError(s, text))}
  {
    On(Solo(db, jobs, Some(StepFailed(text))), StepJob(s), script, k);
    SkipRun(MarkStepFailed(db, s), jobs, s, text, 0, script, k + 1);
    assert LaterSteps(s)[0..] == LaterSteps(s);
    forall r ensures r in LaterSteps(s) <==> Ordinal(s) < Ordinal(r) < 5 { LaterExactly(s, r); }
  }

  /** The run up to the work: only the step's own row, and provision the drill's status, may change. */
  predicate Begun(db: Db, d: Db, s: StepName) {
    && d == db.(steps := d.steps, status := d.status)
    && (forall r :: r != s ==> d.steps.Get(r) == db.steps.Get(r))
    && d.status == (if s == Provision && db.status == Pending then Running else db.status)
  }

  lemma HeadRun(db: Db, jobs: set<Job>, s: StepName, script: seq<Env>) returns (d: Db)
    requires s != Teardown && db.steps.Get(s) != Succeeded && WorkAt(s) < |script|
    requires forall i :: 0 <= i < WorkAt(s) ==> Proceeds(s, i, script[i])
    ensures Begun(db, d, s)
    ensures SoloRun(Solo(db, jobs, Some(CheckDone)), StepJob(s), script)
            == SoloRun(Solo(d, jobs, Some(DoWork)), StepJob(s), script[WorkAt(s)..])
  {
    var job, x := StepJob(s), Solo(db, jobs, Some(CheckDone));
    assert script[0..] == script;
    On(x, job, script, 0);
    d := db;
    if s == Provision {
      On(Solo(d, jobs, Some(DrillRunning)), job, script, 1);
      d := MarkDrillRunning(d);
    }
    On(Solo(d, jobs, Some(StepRunning)), job, script, WorkAt(s) - 1);
    d := MarkStepRunning(d, s);
  }

  /** Only the results of the drill may have changed beyond that. */
  predicate Worked(db: Db, d: Db, s: StepName) {
    && d == db.(steps := d.steps, status := d.status, results := d.results, listed := d.listed,
                stored := d.stored, signed := d.signed)
    && (forall r :: r != s ==> d.steps.Get(r) == db.steps.Get(r))
    && d.status == (if s == Provision && db.status == Pending then Running else db.status)
    && (s != Assert ==> d.results == db.results && d.listed == db.listed)
    && (s != Report ==> d.stored == db.stored && d.signed == db.signed)
  }

  /** One entry of the assertion loop. */
  lemma RecordEntry(d: Db, jobs: set<Job>, specs: seq<Spec>, i: nat, script: seq<Env>, k: nat) returns (d': Db)
    requires i < |specs| && k < |script|
    ensures d' == d.(results := d'.results)
    ensures var e := script[k];
            SoloRun(Solo(d, jobs, Some(RecordResult(specs, i))), StepJob(Assert), script[k..])
            == SoloRun(Solo(d', jobs, Some(if e.ok && e.ack then RecordResult(specs, i + 1) else StepFailed(e.text))),
                       StepJob(Assert), script[k + 1..])
  {
    var e := script[k];
    On(Solo(d, jobs, Some(RecordResult(specs, i))), StepJob(Assert), script, k);
    d' := if e.ok && Reached(e) then d.(results := d.results + [ResultRow(specs[i].kind, e.passed)]) else d;
  }

  lemma {:induction false} RecordFails(db: Db, d: Db, jobs: set<Job>, specs: seq<Spec>, i: nat, script: seq<Env>, f: nat)
    returns (d': Db)
    requires Worked(db, d, Assert) && FailsAt(Assert, script, f) && specs == script[2].specs && f >= 5 + i
    ensures Worked(db, d', Assert)
    ensures SoloRun(Solo(d, jobs, Some(RecordResult(specs, i))), StepJob(Assert), script[5 + i..])
            == SoloRun(Solo(d', jobs, Some(StepFailed(script[f].text))), StepJob(Assert), script[f + 1..])
    decreases f - i
  {
    d' := RecordEntry(d, jobs, specs, i, script, 5 + i);
    if 5 + i < f { d' := RecordFails(db, d', jobs, specs, i + 1, script, f); }
  }

  lemma Connected(d: Db, jobs: set<Job>, specs: seq<Spec>, e: Env)
    ensures SoloStep(Solo(d, jobs, Some(Connect(specs))), StepJob(Assert), e)
            == Solo(d, jobs, Some(if e.ok then RecordResult(specs, 0) else StepFailed(e.text)))
  {
  }

  lemma ConnectFails(db: Db, d: Db, jobs: set<Job>, script: seq<Env>, f: nat) returns (d': Db)
    requires Worked(db, d, Assert) && FailsAt(Assert, script, f) && f > 3
    ensures Worked(db, d', Assert)
    ensures SoloRun(Solo(d, jobs, Some(Connect(script[2].specs))), StepJob(Assert), script[4..])
            == SoloRun(Solo(d', jobs, Some(StepFailed(script[f].text))), StepJob(Assert), script[f + 1..])
  {
    Connected(d, jobs, script[2].specs, script[4]);
    On(Solo(d, jobs, Some(Connect(script[2].specs))), StepJob(Assert), script, 4);
    d' := d;
    if f > 4 { d' := RecordFails(db, d, jobs, script[2].specs, 0, script, f); }
  }

  lemma ClearFails(db: Db, d: Db, jobs: set<Job>, script: seq<Env>, f: nat) returns (d': Db)
    requires Worked(db, d, Assert) && FailsAt(Assert, script, f)
    ensures Worked(db, d', Assert)
    ensures SoloRun(Solo(d, jobs, Some(ClearResults(script[2].specs))), StepJob(Assert), script[3..])
            == SoloRun(Solo(d', jobs, Some(StepFailed(script[f].text))), StepJob(Assert), script[f + 1..])
  {
    On(Solo(d, jobs, Some(ClearResults(script[2].specs))), StepJob(Assert), script, 3);
    d' := if Reached(script[3]) then d.(results := []) else d;
    if f > 3 { d' := ConnectFails(db, d', jobs, script, f); }
  }

  lemma AssertFails(db: Db, d: Db, jobs: set<Job>, script: seq<Env>, f: nat) returns (d': Db)
    requires Begun(db, d, Assert) && FailsAt(Assert, script, f) && db.sandbox.Some?
    ensures Worked(db, d', Assert)
    ensures SoloRun(Solo(d, jobs, Some(DoWork)), StepJob(Assert), script[2..])
            == SoloRun(Solo(d', jobs, Some(StepFailed(script[f].text))), StepJob(Assert), script[f + 1..])
  {
    On(Solo(d, jobs, Some(DoWork)), StepJob(Assert), script, 2);
    d' := ClearFails(db, d.(listed := script[2].specs), jobs, script, f);
  }

  lemma FinalizeFails(db: Db, d: Db, jobs: set<Job>, pdf: Pdf, script: seq<Env>, f: nat) returns (d': Db)
    requires Worked(db, d, Report) && FailsAt(Report, script, f) && f > 2
    ensures Worked(db, d', Report)
    ensures SoloRun(Solo(d, jobs, Some(PutObject(pdf))), StepJob(Report), script[3..])
            == SoloRun(Solo(d', jobs, Some(StepFailed(script[f].text))), StepJob(Report), script[f + 1..])
  {
    On(Solo(d, jobs, Some(PutObject(pdf))), StepJob(Report), script, 3);
    d' := if Reached(script[3]) then d.(stored := Some(pdf)) else d;
    if f > 3 {
      On(Solo(d', jobs, Some(RecordSignature(pdf))), StepJob(Report), script, 4);
      if Reached(script[4]) { d' := d'.(signed := Some(pdf)); }
    }
  }

  lemma ReportFails(db: Db, d: Db, jobs: set<Job>, script: seq<Env>, f: nat) returns (d': Db)
    requires Begun(db, d, Report) && FailsAt(Report, script, f)
    ensures Worked(db, d', Report)
    ensures SoloRun(Solo(d, jobs, Some(DoWork)), StepJob(Report), script[2..])
            == SoloRun(Solo(d', jobs, Some(StepFailed(script[f].text))), StepJob(Report), script[f + 1..])
  {
    On(Solo(d, jobs, Some(DoWork)), StepJob(Report), script, 2);
    d' := d;
    if f > 2 { d' := FinalizeFails(db, d, jobs, Pdf(d.results, script[2].stamp), script, f); }
  }

  /** Provision, fetch and restore fail at their work entry; restore then still writes its output. */
  lemma EarlyFails(db: Db, d: Db, jobs: set<Job>, s: StepName, script: seq<Env>, f: nat)
    requires s in {Provision, Fetch, Restore} && FailsAt(s, script, f) && (s != Provision ==> d.sandbox.Some?)
    ensures f == WorkAt(s)
    ensures SoloRun(Solo(d, jobs, Some(DoWork)), StepJob(s), script[f..])
            == SoloRun(Solo(d, jobs, Some(StepFailed(script[f].text))), StepJob(s),
                       script[f + 1 + (if s == Restore then 1 else 0)..])
  {
    var job, text := StepJob(s), script[f].text;
    On(Solo(d, jobs, Some(DoWork)), job, script, f);
    if s == Restore { On(Solo(d, jobs, Some(SetOutput(false, text))), job, script, f + 1); }
  }

  /** The run up to the failure of its work. */
  lemma ReachFailure(db: Db, jobs: set<Job>, s: StepName, script: seq<Env>, f: nat) returns (d: Db, k: nat)
    requires s != Teardown && db.steps.Get(s) != Succeeded && FailsAt(s, script, f)
    requires s in {Fetch, Restore, Assert} ==> db.sandbox.Some?
    ensures Worked(db, d, s) && f < k && k + |LaterSteps(s)| + 2 < |script|
    ensures SoloRun(Solo(db, jobs, Some(CheckDone)), StepJob(s), script)
            == SoloRun(Solo(d, jobs, Some(StepFailed(script[f].text))), StepJob(s), script[k..])
  {
    d := HeadRun(db, jobs, s, script);
    k := f + 1;
    if s == Assert {
      d := AssertFails(db, d, jobs, script, f);
    } else if s == Report {
      d := ReportFails(db, d, jobs, script, f);
    } else {
      EarlyFails(db, d, jobs, s, script, f);
      if s == Restore { k := k + 1; }
    }
  }

  lemma TablesAgree(db: Db, d: Db, s: StepName)
    requires Worked(db, d, s)
    ensures forall u :: StepFailedIn(d.steps, u, s) ==> StepFailedIn(db.steps, u, s)
  {
  }

  /** A step whose work fails, however far it got, is failed; every pending step between it and teardown is
      skipped and no other step changes; exactly one job is added, a teardown job whose reason names the step
      and the error; and no evidence changes unless it is the report that fails. */
  lemma WorkFailureFailsStep(db: Db, jobs: set<Job>, s: StepName, script: seq<Env>, f: nat)
    requires s != Teardown && db.steps.Get(s) != Succeeded
    requires s in {Fetch, Restore, Assert} ==> db.sandbox.Some?
    requires FailsAt(s, script, f)
    ensures var (d, j) := Session(db, jobs, StepJob(s), script);
            && StepFailedIn(db.steps, d.steps, s)
            && j == jobs + {TeardownJob(StepError(s, script[f].text))}
            && d.status == (if s == Provision && db.status == Pending then Running else db.status)
            && d.error == db.error && d.evidencePath == db.evidencePath
            && (s != Report ==> d.stored == db.stored && d.signed == db.signed)
  {
    var d, k := ReachFailure(db, jobs, s, script, f);
    CleanupRun(d, jobs, s, script[f].text, script, k);
    TablesAgree(db, d, s);
  }

  /** The queued teardown job then ends the drill failed, with that reason as its error. */
  lemma WorkFailureFailsDrill(db: Db, jobs: set<Job>, s: StepName, script: seq<Env>, f: nat, e: Env, n: nat)
    requires s != Teardown && db.steps.Get(s) != Succeeded
    requires s in {Fetch, Restore, Assert} ==> db.sandbox.Some?
    requires FailsAt(s, script, f) && e.ok && e.ack && n >= 6
    ensures var (d, j) := Session(db, jobs, StepJob(s), script);
            var reason := StepError(s, script[f].text);
            var t := Session(d, j, TeardownJob(reason), Calms(e, n)).0;
            && TeardownJob(reason) in j
            && t.status == Failed && t.error == reason && t.steps.Get(s) == Failed
  {
    WorkFailureFailsStep(db, jobs, s, script, f);
    var (d, j) := Session(db, jobs, StepJob(s), script);
    TeardownRun(d, j, StepError(s, script[f].text), e, n);
  }

  /** A teardown whose sandbox cannot be torn down fails its own step only: the drill is settled all the same. */
  lemma FailedTeardownStillSettles(db: Db, jobs: set<Job>, reason: Reason, script: seq<Env>)
    requires |script| >= 6 && script[0].ok && !script[1].ok && script[3].ok
    requires forall i :: 0 <= i < |script| ==> script[i].ack
    ensures var d := Session(db, jobs, TeardownJob(reason), script).0;
            && d.steps.teardown == Failed
            && d.status == (if reason != NoReason || db.status == Failed then Failed else Succeeded)
            && d.error == (if reason != NoReason then reason else if db.status == Failed then db.error else NoReason)
  {
    FailedTeardownHead(db, jobs, reason, script);
    SettleRun(MarkStepFailed(db, Teardown), jobs, reason, AfterTeardown(db, reason), script, 3);
  }

  lemma FailedTeardownHead(db: Db, jobs: set<Job>, reason: Reason, script: seq<Env>)
    requires |script| >= 3 && script[0].ok && !script[1].ok && script[2].ack
    ensures SoloRun(Solo(db, jobs, Some(ReadDrill)), TeardownJob(reason), script)
            == SoloRun(Solo(MarkStepFailed(db, Teardown), jobs, Some(AfterTeardown(db, reason))), TeardownJob(reason),
                       script[3..])
  {
    var job := TeardownJob(reason);
    assert script[0..] == script;
    On(Solo(db, jobs, Some(ReadDrill)), job, script, 0);
    On(Solo(db, jobs, Some(TearDown(db.status))), job, script, 1);
    On(Solo(db, jobs, Some(MarkTeardown(db.status, false))), job, script, 2);
  }

  lemma SettleRun(d: Db, jobs: set<Job>, reason: Reason, pc: Pc, script: seq<Env>, k: nat)
    requires k + 2 < |script| && script[k].ok && forall i :: 0 <= i < |script| ==> script[i].ack
    requires pc == AfterTeardown(d, reason)
    ensures SoloRun(Solo(d, jobs, Some(pc)), TeardownJob(reason), script[k..]) == Solo(TeardownEnd(d, reason), jobs, None)
  {
    var job, end := TeardownJob(reason), TeardownEnd(d, reason);
    On(Solo(d, jobs, Some(pc)), job, script, k);
    if pc == Notify {
      IdleRun(Solo(d, jobs, None), job, script[k + 1..]);
    } else if pc == FailDrill {
      NotifyEnds(end, jobs, reason, script, k + 1);
    } else {
      var path := if d.evidencePath.Some? then d.evidencePath.value else "";
      On(Solo(d, jobs, Some(SucceedDrill(path))), job, script, k + 1);
      NotifyEnds(end, jobs, reason, script, k + 2);
    }
  }

  lemma NotifyEnds(d: Db, jobs: set<Job>, reason: Reason, script: seq<Env>, k: nat)
    requires k < |script|
    ensures SoloRun(Solo(d, jobs, Some(Notify)), TeardownJob(reason), script[k..]) == Solo(d, jobs, None)
  {
    On(Solo(d, jobs, Some(Notify)), TeardownJob(reason), script, k);
    IdleRun(Solo(d, jobs, None), TeardownJob(reason), script[k + 1..]);
  }
}

/**
 The store and the step workers in the imperative form of the source, each worker proved to be exactly
 one session of the transition system.

 The surroundings are a script with one entry per transition: how the write went and what the external
 work returned.  A process whose script is used up has died; every call after that reports `Dead`.
 */
module DrillWorkers {
  import opened Wrappers
  import opened DrillPipeline
  import opened DrillSolo

  /** What the caller sees of a call. */
  datatype Ack = Ok | Error | Dead

  /** Data and queue when a worker of `job` at `pc` is run along the script. */
  ghost function Ends(db: Db, jobs: set<Job>, job: Job, pc: Pc, script: seq<Env>): (Db, set<Job>) {
    var x := SoloRun(Solo(db, jobs, Some(pc)), job, script);
    (x.db, x.jobs)
  }

  lemma {:induction false} Returned(db: Db, jobs: set<Job>, job: Job, script: seq<Env>)
    ensures SoloRun(Solo(db, jobs, None), job, script) == Solo(db, jobs, None)
    decreases |script|
  {
    if script != [] { Returned(db, jobs, job, script[1..]); }
  }

  /** One transition unfolded. */
  lemma Unfold(db: Db, jobs: set<Job>, job: Job, pc: Pc, script: seq<Env>)
    ensures script == [] ==> Ends(db, jobs, job, pc, script) == (db, jobs)
    ensures script != [] ==>
              var eff := Advance(db, job, pc, script[0]);
              var jobs' := if eff.insert.Some? then jobs + {eff.insert.value} else jobs;
              Ends(db, jobs, job, pc, script)
              == if eff.pc.Some? then Ends(eff.db, jobs', job, eff.pc.value, script[1..]) else (eff.db, jobs')
  {
    if script != [] {
      var x := SoloStep(Solo(db, jobs, Some(pc)), job, script[0]);
      if x.pc.None? { Returned(x.db, x.jobs, job, script[1..]); }
    }
  }

  class Deps {
    var db: Db
    var jobs: set<Job>
    var script: seq<Env>

    constructor (db: Db, jobs: set<Job>, script: seq<Env>)
      ensures this.db == db && this.jobs == jobs && this.script == script
    {
      this.db, this.jobs, this.script := db, jobs, script;
    }

    // ---- store calls ----

    /** The call was cut, or its script entry decided whether the write arrived and what was reported. */
    twostate predicate Wrote(after: Db, r: Ack)
      reads this
    {
      && jobs == old(jobs)
      && if old(script) == [] then r == Dead && db == old(db) && script == []
         else
           && script == old(script)[1..]
           && db == (if Reached(old(script)[0]) then after else old(db))
           && r == (if old(script)[0].ack then Ok else Error)
    }

    /** A read or external work: nothing is written. */
    twostate predicate Looked(new e: Option<Env>)
      reads this
    {
      && jobs == old(jobs) && db == old(db)
      && if old(script) == [] then e == None && script == []
         else e == Some(old(script)[0]) && script == old(script)[1..]
    }

    method Look() returns (e: Option<Env>)
      modifies this
      ensures Looked(e)
    {
      e := None;
      if script != [] { e, script := Some(script[0]), script[1..]; }
    }

    /** Runs one UPDATE whose effect on the data is `after`. */
    method Exec(after: Db) returns (r: Ack)
      modifies this
      ensures Wrote(after, r)
    {
      var e := Look();
      if e.None? { return Dead; }
      if Reached(e.value) { db := after; }
      r := if e.value.ack then Ok else Error;
    }

    method MarkDrillRunning() returns (r: Ack)
      modifies this
      ensures Wrote(if old(db).status in {Pending, Running} then old(db).(status := Running) else old(db), r)
    {
      r := Exec(DrillPipeline.MarkDrillRunning(db));
    }

    method MarkDrillSucceeded(path: string) returns (r: Ack)
      modifies this
      ensures Wrote(old(db).(status := Succeeded, evidencePath := Some(path), error := NoReason), r)
    {
      r := Exec(DrillPipeline.MarkDrillSucceeded(db, path));
    }

    method MarkDrillFailed(reason: Reason) returns (r: Ack)
      modifies this
      ensures Wrote(old(db).(status := Failed, error := reason), r)
    {
      r := Exec(DrillPipeline.MarkDrillFailed(db, reason));
    }

    method MarkStepRunning(s: StepName) returns (r: Ack)
      modifies this
      ensures Wrote(if old(db).steps.Get(s) in {Pending, Running, Failed}
                    then old(db).(steps := old(db).steps.Set(s, Running)) else old(db), r)
    {
      r := Exec(DrillPipeline.MarkStepRunning(db, s));
    }

    method MarkStepSucceeded(s: StepName) returns (r: Ack)
      modifies this
      ensures Wrote(if old(db).steps.Get(s) != Skipped
                    then old(db).(steps := old(db).steps.Set(s, Succeeded)) else old(db), r)
    {
      r := Exec(DrillPipeline.MarkStepSucceeded(db, s));
    }

    method MarkStepFailed(s: StepName) returns (r: Ack)
      modifies this
      ensures Wrote(old(db).(steps := old(db).steps.Set(s, Failed)), r)
    {
      r := Exec(DrillPipeline.MarkStepFailed(db, s));
    }

    method MarkStepSkipped(s: StepName) returns (r: Ack)
      modifies this
      ensures Wrote(if old(db).steps.Get(s) == Pending
                    then old(db).(steps := old(db).steps.Set(s, Skipped)) else old(db), r)
    {
      r := Exec(DrillPipeline.MarkStepSkipped(db, s));
    }

    method Insert(job: Job)
      modifies this
      ensures db == old(db)
      ensures jobs == if old(script) != [] && Reached(old(script)[0]) then old(jobs) + {job} else old(jobs)
    {
      var e := Look();
      if e.Some? && Reached(e.value) { jobs := jobs + {job}; }
    }

    // ---- shared helpers ----

    /** Inserts the successor of a step. */
    method ChainNext(s: StepName, pass: bool)
      modifies this
      ensures (db, jobs) == Ends(old(db), old(jobs), StepJob(s), Chain(pass), old(script))
    {
      Unfold(db, jobs, StepJob(s), Chain(pass), script);
      Insert(Successor(s, pass));
    }

    /** Marks the step failed, skips the steps after it and enqueues teardown with the reason. */
    method FailAndCleanup(s: StepName, text: string)
      modifies this
      ensures (db, jobs) == Ends(old(db), old(jobs), StepJob(s), StepFailed(text), old(script))
    {
      Unfold(db, jobs, StepJob(s), StepFailed(text), script);
      var r := MarkStepFailed(s);
      if r.Dead? { return; }
      SkipAndTeardown(s, text);
    }

    method SkipAndTeardown(s: StepName, text: string)
      modifies this
      ensures (db, jobs) == Ends(old(db), old(jobs), StepJob(s), SkipLater(text, 0), old(script))
    {
      var later := StepsAfter(s);
      for i := 0 to |later|
        invariant Ends(db, jobs, StepJob(s), SkipLater(text, i), script)
                  == Ends(old(db), old(jobs), StepJob(s), SkipLater(text, 0), old(script))
      {
        var alive := SkipOne(s, text, i);
        if !alive { return; }
      }
      Unfold(db, jobs, StepJob(s), SkipLater(text, |later|), script);
      var e := Look();
      if e.None? { return; }
      EnqueueTeardown(s, text);
    }

    method SkipOne(s: StepName, text: string, i: nat) returns (alive: bool)
      requires i < |LaterSteps(s)|
      modifies this
      ensures Ends(old(db), old(jobs), StepJob(s), SkipLater(text, i), old(script))
              == if alive then Ends(db, jobs, StepJob(s), SkipLater(text, i + 1), script) else (db, jobs)
    {
      Unfold(db, jobs, StepJob(s), SkipLater(text, i), script);
      var r := MarkStepSkipped(LaterSteps(s)[i]);
      alive := !r.Dead?;
    }

    method EnqueueTeardown(s: StepName, text: string)
      modifies this
      ensures (db, jobs) == Ends(old(db), old(jobs), StepJob(s), InsertTeardown(text), old(script))
    {
      Unfold(db, jobs, StepJob(s), InsertTeardown(text), script);
      Insert(TeardownJob(StepError(s, text)));
    }

    /** MarkStepSucceeded of a step whose run needs no further write, then the successor. */
    method SucceedAndChain(s: StepName)
      modifies this
      ensures (db, jobs) == Ends(old(db), old(jobs), StepJob(s), StepSucceeded(true), old(script))
    {
      Unfold(db, jobs, StepJob(s), StepSucceeded(true), script);
      var r := MarkStepSucceeded(s);
      if !r.Ok? { return; }
      ChainNext(s, true);
    }

    // ---- provision, fetch and restore ----

    method ProvisionWork()
      modifies this
      ensures (db, jobs) == Session(old(db), old(jobs), StepJob(Provision), old(script))
    {
      var job := StepJob(Provision);
      Unfold(db, jobs, job, CheckDone, script);
      var e := Look();
      if e.None? || !e.value.ok { return; }
      if db.steps.Get(Provision) == Succeeded { ChainNext(Provision, true); return; }
      Unfold(db, jobs, job, DrillRunning, script);
      var r := MarkDrillRunning();
      if !r.Ok? { return; }
      Unfold(db, jobs, job, StepRunning, script);
      r := MarkStepRunning(Provision);
      if !r.Ok? { return; }
      ProvisionSandbox();
    }

    method ProvisionSandbox()
      modifies this
      ensures (db, jobs) == Ends(old(db), old(jobs), StepJob(Provision), DoWork, old(script))
    {
      var job := StepJob(Provision);
      Unfold(db, jobs, job, DoWork, script);
      var e := Look();
      if e.None? || !e.value.ack { return; }
      if !e.value.ok { FailAndCleanup(Provision, e.value.text); return; }
      Unfold(db, jobs, job, SetSandbox(e.value.text), script);
      var r := Exec(db.(sandbox := Some(e.value.text)));
      if !r.Ok? { return; }
      SucceedAndChain(Provision);
    }

    method FetchWork()
      modifies this
      ensures (db, jobs) == Session(old(db), old(jobs), StepJob(Fetch), old(script))
    {
      var job := StepJob(Fetch);
      Unfold(db, jobs, job, CheckDone, script);
      var e := Look();
      if e.None? || !e.value.ok { return; }
      if db.steps.Get(Fetch) == Succeeded { ChainAlreadyFetched(); return; }
      Unfold(db, jobs, job, StepRunning, script);
      var r := MarkStepRunning(Fetch);
      if !r.Ok? { return; }
      FetchDump();
    }

    /** Fetches again to recover the local path, then enqueues restore. */
    method ChainAlreadyFetched()
      modifies this
      ensures (db, jobs) == Ends(old(db), old(jobs), StepJob(Fetch), Refetch, old(script))
    {
      Unfold(db, jobs, StepJob(Fetch), Refetch, script);
      var e := Look();
      if e.None? || !e.value.ok || db.sandbox.None? { return; }
      ChainNext(Fetch, true);
    }

    method FetchDump()
      modifies this
      ensures (db, jobs) == Ends(old(db), old(jobs), StepJob(Fetch), DoWork, old(script))
    {
      var job := StepJob(Fetch);
      Unfold(db, jobs, job, DoWork, script);
      var e := Look();
      if e.None? || !e.value.ack || db.sandbox.None? { return; }
      if !e.value.ok { FailAndCleanup(Fetch, e.value.text); return; }
      Unfold(db, jobs, job, SetSourceHash(e.value.text), script);
      var r := Exec(db.(sourceHash := Some(e.value.text)));
      if !r.Ok? { return; }
      SucceedAndChain(Fetch);
    }

    method RestoreWork()
      modifies this
      ensures (db, jobs) == Session(old(db), old(jobs), StepJob(Restore), old(script))
    {
      var job := StepJob(Restore);
      Unfold(db, jobs, job, CheckDone, script);
      var e := Look();
      if e.None? || !e.value.ok { return; }
      if db.steps.Get(Restore) == Succeeded { ChainNext(Restore, true); return; }
      Unfold(db, jobs, job, StepRunning, script);
      var r := MarkStepRunning(Restore);
      if !r.Ok? { return; }
      RestoreDump();
    }

    method RestoreDump()
      modifies this
      ensures (db, jobs) == Ends(old(db), old(jobs), StepJob(Restore), DoWork, old(script))
    {
      var job := StepJob(Restore);
      Unfold(db, jobs, job, DoWork, script);
      var e := Look();
      if e.None? || !e.value.ack || db.sandbox.None? { return; }
      Unfold(db, jobs, job, SetOutput(e.value.ok, e.value.text), script);
      var r := Exec(db);
      if r.Dead? { return; }
      if !e.value.ok { FailAndCleanup(Restore, e.value.text); return; }
      SucceedAndChain(Restore);
    }

    // ---- assert ----

    method AssertWork()
      modifies this
      ensures (db, jobs) == Session(old(db), old(jobs), StepJob(Assert), old(script))
    {
      var job := StepJob(Assert);
      Unfold(db, jobs, job, CheckDone, script);
      var e := Look();
      if e.None? || !e.value.ok { return; }
      if db.steps.Get(Assert) == Succeeded { ChainNext(Assert, true); return; }
      Unfold(db, jobs, job, StepRunning, script);
      var r := MarkStepRunning(Assert);
      if !r.Ok? { return; }
      Unfold(db, jobs, job, DoWork, script);
      e := Look();
      if e.None? || !e.value.ack || db.sandbox.None? { return; }
      db := db.(listed := e.value.specs);
      RunAssertions(e.value.specs);
    }

    /** Clears earlier results, connects, and records one row for each assertion. */
    method RunAssertions(specs: seq<Spec>)
      modifies this
      ensures (db, jobs) == Ends(old(db), old(jobs), StepJob(Assert), ClearResults(specs), old(script))
    {
      var job := StepJob(Assert);
      Unfold(db, jobs, job, ClearResults(specs), script);
      var e := Look();
      if e.None? { return; }
      if Reached(e.value) { db := db.(results := []); }
      if !e.value.ack { FailAndCleanup(Assert, e.value.text); return; }
      Unfold(db, jobs, job, Connect(specs), script);
      e := Look();
      if e.None? { return; }
      if !e.value.ok { FailAndCleanup(Assert, e.value.text); return; }
      RecordAll(specs);
    }

    method RecordAll(specs: seq<Spec>)
      modifies this
      ensures (db, jobs) == Ends(old(db), old(jobs), StepJob(Assert), RecordResult(specs, 0), old(script))
    {
      for i := 0 to |specs|
        invariant Ends(db, jobs, StepJob(Assert), RecordResult(specs, i), script)
                  == Ends(old(db), old(jobs), StepJob(Assert), RecordResult(specs, 0), old(script))
      {
        var more := RecordOne(specs, i);
        if !more { return; }
      }
      Unfold(db, jobs, StepJob(Assert), RecordResult(specs, |specs|), script);
      var e := Look();
      if e.None? { return; }
      SucceedAndChain(Assert);
    }

    method RecordOne(specs: seq<Spec>, i: nat) returns (more: bool)
      requires i < |specs|
      modifies this
      ensures Ends(old(db), old(jobs), StepJob(Assert), RecordResult(specs, i), old(script))
              == if more then Ends(db, jobs, StepJob(Assert), RecordResult(specs, i + 1), script) else (db, jobs)
    {
      Unfold(db, jobs, StepJob(Assert), RecordResult(specs, i), script);
      var e := Look();
      if e.None? { return false; }
      if !e.value.ok { FailAndCleanup(Assert, e.value.text); return false; }
      if Reached(e.value) { db := db.(results := db.results + [ResultRow(specs[i].kind, e.value.passed)]); }
      if !e.value.ack { FailAndCleanup(Assert, e.value.text); return false; }
      more := true;
    }

    // ---- teardown ----

    method TeardownWork(reason: Reason)
      modifies this
      ensures (db, jobs) == Session(old(db), old(jobs), TeardownJob(reason), old(script))
    {
      var job := TeardownJob(reason);
      Unfold(db, jobs, job, ReadDrill, script);
      var e := Look();
      if e.None? || !e.value.ok { return; }
      var seen := db.status;
      Unfold(db, jobs, job, TearDown(seen), script);
      e := Look();
      if e.None? { return; }
      FinishTeardown(reason, seen, e.value.ok);
    }

    /** Marks the teardown step, then settles the drill: a reason fails it, a drill already seen failed
        is left alone, any other succeeds. */
    method FinishTeardown(reason: Reason, seen: Status, ok: bool)
      modifies this
      ensures (db, jobs) == Ends(old(db), old(jobs), TeardownJob(reason), MarkTeardown(seen, ok), old(script))
    {
      Unfold(db, jobs, TeardownJob(reason), MarkTeardown(seen, ok), script);
      var r;
      if ok { r := MarkStepSucceeded(Teardown); } else { r := MarkStepFailed(Teardown); }
      if r.Dead? { return; }
      if reason != NoReason {
        FailDrillWithReason(reason);
      } else if seen == Failed {
        NotifyEnd(reason);
      } else {
        SucceedDrillFromEvidence();
      }
    }

    method FailDrillWithReason(reason: Reason)
      modifies this
      ensures (db, jobs) == Ends(old(db), old(jobs), TeardownJob(reason), FailDrill, old(script))
    {
      Unfold(db, jobs, TeardownJob(reason), FailDrill, script);
      var r := MarkDrillFailed(reason);
      if r.Dead? { return; }
      NotifyEnd(reason);
    }

    method SucceedDrillFromEvidence()
      modifies this
      ensures (db, jobs) == Ends(old(db), old(jobs), TeardownJob(NoReason), ReadEvidence, old(script))
    {
      var job := TeardownJob(NoReason);
      Unfold(db, jobs, job, ReadEvidence, script);
      var e := Look();
      if e.None? || !e.value.ok { return; }
      var path := if db.evidencePath.Some? then db.evidencePath.value else "";
      Unfold(db, jobs, job, SucceedDrill(path), script);
      var r := MarkDrillSucceeded(path);
      if !r.Ok? { return; }
      NotifyEnd(NoReason);
    }

    /** Audit, metrics, webhooks and push: outside the drill's own data. */
    method NotifyEnd(reason: Reason)
      modifies this
      ensures (db, jobs) == Ends(old(db), old(jobs), TeardownJob(reason), Notify, old(script))
    {
      Unfold(db, jobs, TeardownJob(reason), Notify, script);
      var e := Look();
    }

    // ---- the report worker ----

    method ReportWork()
      modifies this
      ensures (db, jobs) == Session(old(db), old(jobs), StepJob(Report), old(script))
    {
      var job := StepJob(Report);
      Unfold(db, jobs, job, CheckDone, script);
      var e := Look();
      if e.None? || !e.value.ok { return; }
      if db.steps.Get(Report) == Succeeded {
        ChainNext(Report, true);
        return;
      }
      Unfold(db, jobs, job, StepRunning, script);
      var r := MarkStepRunning(Report);
      if !r.Ok? { return; }
      Unfold(db, jobs, job, DoWork, script);
      e := Look();
      if e.None? || !e.value.ack { return; }
      if !e.value.ok {
        FailAndCleanup(Report, e.value.text);
        return;
      }
      var pdf := Pdf(db.results, e.value.stamp);
      var pass := Verdict(pdf.rows);
      Finalize(pdf, pass);
    }

    /** Any failed assertion fails the drill. */
    static method Verdict(rows: seq<ResultRow>) returns (pass: bool)
      ensures pass == AllPassed(rows)
    {
      pass := true;
      for i := 0 to |rows|
        invariant pass && forall j :: 0 <= j < i ==> rows[j].passed
      {
        if !rows[i].passed { return false; }
      }
    }

    /** The report worker from Finalize on. */
    method Finalize(pdf: Pdf, pass: bool)
      requires pass == AllPassed(pdf.rows)
      modifies this
      ensures (db, jobs) == Ends(old(db), old(jobs), StepJob(Report), PutObject(pdf), old(script))
    {
      var job := StepJob(Report);
      Unfold(db, jobs, job, PutObject(pdf), script);
      var e := Look();
      if e.None? { return; }
      if Reached(e.value) { db := db.(stored := Some(pdf)); }
      if !e.value.ack { FailAndCleanup(Report, e.value.text); return; }
      Unfold(db, jobs, job, RecordSignature(pdf), script);
      e := Look();
      if e.None? { return; }
      if Reached(e.value) { db := db.(signed := Some(pdf)); }
      if !e.value.ack { FailAndCleanup(Report, e.value.text); return; }
      Publish(pdf, pass);
    }

    /** The report worker from MarkEvidence on. */
    method Publish(pdf: Pdf, pass: bool)
      requires pass == AllPassed(pdf.rows)
      modifies this
      ensures (db, jobs) == Ends(old(db), old(jobs), StepJob(Report), SetEvidence(pdf), old(script))
    {
      var job := StepJob(Report);
      Unfold(db, jobs, job, SetEvidence(pdf), script);
      var r := Exec(db.(evidencePath := Some(EVIDENCE_KEY)));
      if !r.Ok? { return; }
      Conclude(pass);
    }

    /** The report worker from MarkStepSucceeded on: a failing verdict marks the drill at once. */
    method Conclude(pass: bool)
      modifies this
      ensures (db, jobs) == Ends(old(db), old(jobs), StepJob(Report), StepSucceeded(pass), old(script))
    {
      var job := StepJob(Report);
      Unfold(db, jobs, job, StepSucceeded(pass), script);
      var r := MarkStepSucceeded(Report);
      if !r.Ok? { return; }
      if !pass {
        Unfold(db, jobs, job, DrillFailed, script);
        r := MarkDrillFailed(AssertionsFailed);
        if r.Dead? { return; }
      }
      ChainNext(Report, pass);
    }
  }

  /** The steps after a step, without teardown. */
  method StepsAfter(name: StepName) returns (out: seq<StepName>)
    ensures out == LaterSteps(name)
  {
    out := [];
    var seen := false;
    for i := 0 to |ALL_STEPS|
      invariant seen <==> Ordinal(name) < i
      invariant |out| == if i <= Ordinal(name) then 0 else if i < 6 then i - Ordinal(name) - 1 else |LaterSteps(name)|
      invariant |out| <= |LaterSteps(name)| && out == LaterSteps(name)[..|out|]
    {
      var s := ALL_STEPS[i];
      if seen && s != Teardown { out := out + [s]; }
      if s == name { seen := true; }
    }
  }
}

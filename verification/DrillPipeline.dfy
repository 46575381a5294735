/**
 The drill pipeline, one store write or job insert at a time.

 A drill owns one row in drills, six rows in drill_steps, its assertion_results rows, one evidence
 object and one evidence_signatures row.  A worker is a job plus a program counter; every transition
 of `Advance` performs at most one write, so two workers may interleave between any two writes.
 Delivery is at least once and unbounded: a job that was ever inserted may be started again at any time,
 any number of times, also while another copy is running.
 */
module DrillPipeline {
  import opened Wrappers
  import opened Runs

  datatype Status = Pending | Running | Succeeded | Failed | Skipped

  datatype StepName = Provision | Fetch | Restore | Assert | Report | Teardown

  const ALL_STEPS: seq<StepName> := [Provision, Fetch, Restore, Assert, Report, Teardown]

  /** The place of a step in the pipeline. */
  function Ordinal(s: StepName): nat {
    match s
    case Provision => 0 case Fetch => 1 case Restore => 2 case Assert => 3 case Report => 4 case Teardown => 5
  }

  /** drill_steps: one status for each of the six steps. */
  datatype StepTable = StepTable(provision: Status, fetch: Status, restore: Status,
                                 asserts: Status, report: Status, teardown: Status)
  {
    function Get(s: StepName): Status {
      match s
      case Provision => provision case Fetch => fetch case Restore => restore
      case Assert => asserts case Report => report case Teardown => teardown
    }

    function Set(s: StepName, x: Status): (t: StepTable)
      ensures forall r :: t.Get(r) == if r == s then x else Get(r)
    {
      match s
      case Provision => this.(provision := x) case Fetch => this.(fetch := x)
      case Restore => this.(restore := x) case Assert => this.(asserts := x)
      case Report => this.(report := x) case Teardown => this.(teardown := x)
    }
  }

  const ALL_PENDING: StepTable := StepTable(Pending, Pending, Pending, Pending, Pending, Pending)

  /** A configured assertion, and the row its execution records. */
  datatype Spec = Spec(kind: string)
  datatype ResultRow = ResultRow(kind: string, passed: bool)

  /** What the report header says (report.Render). */
  datatype Verdict = Passed | RestoredOnly | FailedVerdict

  /** A rendered report: the rows it lists, and a stamp telling two renderings apart. */
  datatype Pdf = Pdf(rows: seq<ResultRow>, stamp: nat)

  predicate AllPassed(rows: seq<ResultRow>) {
    forall i :: 0 <= i < |rows| ==> rows[i].passed
  }

  /** The report worker overrides the drill status with its verdict before rendering, so the header
      depends on the listed rows alone. */
  function HeaderOf(pdf: Pdf): (v: Verdict)
    ensures v == FailedVerdict <==> exists i :: 0 <= i < |pdf.rows| && !pdf.rows[i].passed
    ensures v == RestoredOnly <==> |pdf.rows| == 0
  {
    if !AllPassed(pdf.rows) then FailedVerdict
    else if pdf.rows == [] then RestoredOnly
    else Passed
  }

  /** The failure_reason of a teardown job and the error column of a drill.  `NoReason` is the empty
      string (the NULL error); the two others are the texts the workers format. */
  datatype Reason = NoReason | StepError(step: StepName, text: string) | AssertionsFailed

  /** Everything stored about one drill.  `listed` is a history variable: the assertions read by the
      latest assert run that got as far as listing them.  `purged` records that the retention sweeper
      removed the object and the signature. */
  datatype Db = Db(
    status: Status,
    error: Reason,
    evidencePath: Option<string>,
    sandbox: Option<string>,
    sourceHash: Option<string>,
    steps: StepTable,
    results: seq<ResultRow>,
    stored: Option<Pdf>,
    signed: Option<Pdf>,
    purged: bool,
    listed: seq<Spec>)

  /** The storage key depends on the drill id only, so a drill has one object. */
  const EVIDENCE_KEY: string := "drill.pdf"

  datatype Job = StepJob(step: StepName) | TeardownJob(reason: Reason)

  // ---- the guarded UPDATE statements ----

  function MarkDrillRunning(db: Db): Db {
    if db.status in {Pending, Running} then db.(status := Running) else db
  }

  function MarkDrillSucceeded(db: Db, path: string): Db {
    db.(status := Succeeded, evidencePath := Some(path), error := NoReason)
  }

  function MarkDrillFailed(db: Db, reason: Reason): Db {
    db.(status := Failed, error := reason)
  }

  function MarkStepRunning(db: Db, s: StepName): Db {
    if db.steps.Get(s) in {Pending, Running, Failed} then db.(steps := db.steps.Set(s, Running)) else db
  }

  function MarkStepSucceeded(db: Db, s: StepName): Db {
    if db.steps.Get(s) != Skipped then db.(steps := db.steps.Set(s, Succeeded)) else db
  }

  function MarkStepFailed(db: Db, s: StepName): Db {
    db.(steps := db.steps.Set(s, Failed))
  }

  function MarkStepSkipped(db: Db, s: StepName): Db {
    if db.steps.Get(s) == Pending then db.(steps := db.steps.Set(s, Skipped)) else db
  }

  // ---- workers ----

  /** Where a worker is; the arguments are its local variables. */
  datatype Pc =
    | CheckDone
    | DrillRunning
    | StepRunning
    | DoWork
    | SetSandbox(name: string)
    | SetSourceHash(hash: string)
    | SetOutput(ok: bool, text: string)
    | ClearResults(specs: seq<Spec>)
    | Connect(specs: seq<Spec>)
    | RecordResult(specs: seq<Spec>, next: nat)
    | PutObject(pdf: Pdf)
    | RecordSignature(pdf: Pdf)
    | SetEvidence(pdf: Pdf)
    | StepSucceeded(pass: bool)
    | DrillFailed
    | Refetch
    | Chain(pass: bool)
    | StepFailed(text: string)
    | SkipLater(text: string, next: nat)
    | InsertTeardown(text: string)
    | ReadDrill
    | TearDown(seen: Status)
    | MarkTeardown(seen: Status, ok: bool)
    | FailDrill
    | ReadEvidence
    | SucceedDrill(path: string)
    | Notify

  /** What the surroundings decide for one transition.  A write may be committed and acknowledged,
      committed with its acknowledgement lost, or lost; external work succeeds or fails. */
  datatype Env = Env(commit: bool, ack: bool, ok: bool, text: string,
                     specs: seq<Spec>, passed: bool, stamp: nat)

  datatype Effect = Effect(db: Db, pc: Option<Pc>, insert: Option<Job>)

  predicate Reached(e: Env) { e.commit || e.ack }

  /** A write whose error makes the worker return it, so that the job is retried. */
  function Write(db: Db, after: Db, e: Env, pc: Pc): Effect {
    Effect(if Reached(e) then after else db, if e.ack then Some(pc) else None, None)
  }

  /** A write whose error is dropped. */
  function BestEffort(db: Db, after: Db, e: Env, pc: Pc): Effect {
    Effect(if Reached(e) then after else db, Some(pc), None)
  }

  /** A write whose error fails the step. */
  function WorkWrite(db: Db, after: Db, e: Env, pc: Pc): Effect {
    Effect(if Reached(e) then after else db, Some(if e.ack then pc else StepFailed(e.text)), None)
  }

  /** A job insert ends the worker, whether or not it is acknowledged. */
  function Insert(db: Db, job: Job, e: Env): Effect {
    Effect(db, None, if Reached(e) then Some(job) else None)
  }

  /** A transition without a write: reads and external work. */
  function Goto(db: Db, pc: Pc): Effect { Effect(db, Some(pc), None) }

  function Return(db: Db): Effect { Effect(db, None, None) }

  function LaterSteps(s: StepName): seq<StepName> {
    match s
    case Provision => [Fetch, Restore, Assert, Report]
    case Fetch => [Restore, Assert, Report]
    case Restore => [Assert, Report]
    case Assert => [Report]
    case Report => []
    case Teardown => []
  }

  function Successor(s: StepName, pass: bool): Job {
    match s
    case Provision => StepJob(Fetch)
    case Fetch => StepJob(Restore)
    case Restore => StepJob(Assert)
    case Assert => StepJob(Report)
    case Report => TeardownJob(if pass then NoReason else AssertionsFailed)
    case Teardown => TeardownJob(NoReason)
  }

  /** Reads and external work of a step; a transient read error returns, a failure of the work itself
      fails the step. */
  function DoStepWork(db: Db, s: StepName, e: Env): Effect {
    if !e.ack || (s in {Fetch, Restore, Assert} && db.sandbox.None?) then Return(db)
    else if s == Restore then Goto(db, SetOutput(e.ok, e.text))
    else if !e.ok && s != Assert then Goto(db, StepFailed(e.text))
    else match s
      case Provision => Goto(db, SetSandbox(e.text))
      case Fetch => Goto(db, SetSourceHash(e.text))
      case Assert => Goto(db.(listed := e.specs), ClearResults(e.specs))
      case Report => Goto(db, PutObject(Pdf(db.results, e.stamp)))
      case _ => Return(db)
  }

  /** The writes between the work and MarkStepSucceeded of provision, fetch and restore. */
  function AdvanceSandbox(db: Db, pc: Pc, e: Env): Effect {
    match pc
    case SetSandbox(name) => Write(db, db.(sandbox := Some(name)), e, StepSucceeded(true))
    case SetSourceHash(hash) => Write(db, db.(sourceHash := Some(hash)), e, StepSucceeded(true))
    case SetOutput(ok, text) =>
      BestEffort(db, db, e, if ok then StepSucceeded(true) else StepFailed(text))
    case _ => Return(db)
  }

  /** runAssertions: clear, connect, then run and record one assertion after the other. */
  function AdvanceAssert(db: Db, pc: Pc, e: Env): Effect {
    match pc
    case ClearResults(specs) => WorkWrite(db, db.(results := []), e, Connect(specs))
    case Connect(specs) => Goto(db, if e.ok then RecordResult(specs, 0) else StepFailed(e.text))
    case RecordResult(specs, i) =>
      if i >= |specs| then Goto(db, StepSucceeded(true))
      else if !e.ok then Goto(db, StepFailed(e.text))
      else WorkWrite(db, db.(results := db.results + [ResultRow(specs[i].kind, e.passed)]), e,
                     RecordResult(specs, i + 1))
    case _ => Return(db)
  }

  /** Finalize (object, then signature), then the evidence path, and the early MarkDrillFailed. */
  function AdvanceReport(db: Db, pc: Pc, e: Env): Effect {
    match pc
    case PutObject(pdf) => WorkWrite(db, db.(stored := Some(pdf)), e, RecordSignature(pdf))
    case RecordSignature(pdf) => WorkWrite(db, db.(signed := Some(pdf)), e, SetEvidence(pdf))
    case SetEvidence(pdf) =>
      Write(db, db.(evidencePath := Some(EVIDENCE_KEY)), e, StepSucceeded(AllPassed(pdf.rows)))
    case DrillFailed =>
      BestEffort(db, MarkDrillFailed(db, AssertionsFailed), e, Chain(false))
    case _ => Return(db)
  }

  /** failAndCleanup. */
  function AdvanceCleanup(db: Db, s: StepName, pc: Pc, e: Env): Effect {
    match pc
    case StepFailed(text) => BestEffort(db, MarkStepFailed(db, s), e, SkipLater(text, 0))
    case SkipLater(text, i) =>
      if i >= |LaterSteps(s)| then Goto(db, InsertTeardown(text))
      else BestEffort(db, MarkStepSkipped(db, LaterSteps(s)[i]), e, SkipLater(text, i + 1))
    case InsertTeardown(text) => Insert(db, TeardownJob(StepError(s, text)), e)
    case _ => Return(db)
  }

  /** One transition of the worker of a non-teardown step. */
  function AdvanceStep(db: Db, s: StepName, pc: Pc, e: Env): Effect {
    match pc
    case CheckDone =>
      if !e.ok then Return(db)
      else if db.steps.Get(s) == Succeeded then Goto(db, if s == Fetch then Refetch else Chain(true))
      else Goto(db, if s == Provision then DrillRunning else StepRunning)
    case DrillRunning => Write(db, MarkDrillRunning(db), e, StepRunning)
    case StepRunning => Write(db, MarkStepRunning(db, s), e, DoWork)
    case DoWork => DoStepWork(db, s, e)
    case StepSucceeded(pass) =>
      Write(db, MarkStepSucceeded(db, s), e, if pass then Chain(true) else DrillFailed)
    case Refetch => if e.ok && db.sandbox.Some? then Goto(db, Chain(true)) else Return(db)
    case Chain(pass) => Insert(db, Successor(s, pass), e)
    case StepFailed(_) => AdvanceCleanup(db, s, pc, e)
    case SkipLater(_, _) => AdvanceCleanup(db, s, pc, e)
    case InsertTeardown(_) => AdvanceCleanup(db, s, pc, e)
    case _ =>
      if s == Report then AdvanceReport(db, pc, e)
      else if s == Assert then AdvanceAssert(db, pc, e)
      else AdvanceSandbox(db, pc, e)
  }

  /** One transition of a teardown worker. */
  function AdvanceTeardown(db: Db, reason: Reason, pc: Pc, e: Env): Effect {
    match pc
    case ReadDrill => if e.ok then Goto(db, TearDown(db.status)) else Return(db)
    case TearDown(seen) => Goto(db, MarkTeardown(seen, e.ok))
    case MarkTeardown(seen, ok) =>
      BestEffort(db, if ok then MarkStepSucceeded(db, Teardown) else MarkStepFailed(db, Teardown), e,
                 if reason != NoReason then FailDrill else if seen == Failed then Notify else ReadEvidence)
    case FailDrill => BestEffort(db, MarkDrillFailed(db, reason), e, Notify)
    case ReadEvidence =>
      if !e.ok then Return(db)
      else Goto(db, SucceedDrill(if db.evidencePath.Some? then db.evidencePath.value else ""))
    case SucceedDrill(path) => Write(db, MarkDrillSucceeded(db, path), e, Notify)
    case _ => Return(db)
  }

  function Advance(db: Db, job: Job, pc: Pc, e: Env): Effect {
    match job
    case StepJob(s) => AdvanceStep(db, s, pc, e)
    case TeardownJob(reason) => AdvanceTeardown(db, reason, pc, e)
  }

  function Entry(job: Job): Pc { if job.StepJob? then CheckDone else ReadDrill }

  // ---- the whole system ----

  datatype Worker = Worker(job: Job, pc: Pc)

  datatype State = State(db: Db, jobs: set<Job>, live: map<nat, Worker>)

  datatype Action = Start(id: nat, job: Job) | Run(id: nat, env: Env) | Crash(id: nat)
    | PurgeObject | PurgeSignature

  function Step(s: State, a: Action): State {
    match a
    case Start(id, job) =>
      if job in s.jobs && id !in s.live then s.(live := s.live[id := Worker(job, Entry(job))]) else s
    case Run(id, e) =>
      if id !in s.live then s
      else
        var eff := Advance(s.db, s.live[id].job, s.live[id].pc, e);
        State(eff.db,
              if eff.insert.Some? then s.jobs + {eff.insert.value} else s.jobs,
              if eff.pc.Some? then s.live[id := s.live[id].(pc := eff.pc.value)] else s.live - {id})
    case Crash(id) => s.(live := s.live - {id})
    case PurgeObject =>
      if s.db.signed.Some? then s.(db := s.db.(stored := None, purged := true)) else s
    case PurgeSignature =>
      if s.db.purged then s.(db := s.db.(signed := None)) else s
  }

  const NEW_DRILL: Db :=
    Db(Pending, NoReason, None, None, None, ALL_PENDING, [], None, None, false, [])

  const INIT: State := State(NEW_DRILL, {StepJob(Provision)}, map[])

  function Exec(s: State, acts: seq<Action>): State { Fold(Step, s, acts) }
}

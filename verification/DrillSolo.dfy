/**
 One worker run on its own: the job's writes from its first read until it returns or its process dies.
 Every such session is a run of the serial system.
 */
module DrillSolo {
  import opened Wrappers
  import opened Runs
  import opened DrillPipeline
  import opened DrillSerial

  /** A drill's data and queue while one worker runs; no program counter once it has returned. */
  datatype Solo = Solo(db: Db, jobs: set<Job>, pc: Option<Pc>)

  function SoloStep(x: Solo, job: Job, e: Env): Solo {
    if x.pc.None? then x
    else
      var eff := Advance(x.db, job, x.pc.value, e);
      Solo(eff.db, if eff.insert.Some? then x.jobs + {eff.insert.value} else x.jobs, eff.pc)
  }

  /** The worker performs one transition per element; if the list ends first, it is cut there. */
  function SoloRun(x: Solo, job: Job, envs: seq<Env>): Solo
    decreases |envs|
  {
    if envs == [] then x else SoloRun(SoloStep(x, job, envs[0]), job, envs[1..])
  }

  /** Data and queue after a complete or cut run of a job. */
  function Session(db: Db, jobs: set<Job>, job: Job, envs: seq<Env>): (Db, set<Job>) {
    var x := SoloRun(Solo(db, jobs, Some(Entry(job))), job, envs);
    (x.db, x.jobs)
  }

  function Lift(x: Solo, job: Job): State {
    State(x.db, x.jobs, if x.pc.Some? then map[0 := Worker(job, x.pc.value)] else map[])
  }

  function RunActions(envs: seq<Env>): seq<Action> {
    seq(|envs|, i requires 0 <= i < |envs| => Run(0, envs[i]))
  }

  lemma SoloStepIsSerial(x: Solo, job: Job, e: Env)
    ensures SerialStep(Lift(x, job), Run(0, e)) == Lift(SoloStep(x, job, e), job)
  {
    var s, s' := Lift(x, job), Lift(SoloStep(x, job, e), job);
    assert SerialStep(s, Run(0, e)).live == s'.live;
  }

  lemma {:induction false} SoloRunIsSerial(x: Solo, job: Job, envs: seq<Env>)
    ensures SerialExec(Lift(x, job), RunActions(envs)) == Lift(SoloRun(x, job, envs), job)
    decreases |envs|
  {
    if envs != [] {
      SoloStepIsSerial(x, job, envs[0]);
      assert RunActions(envs)[0] == Run(0, envs[0]);
      assert RunActions(envs)[1..] == RunActions(envs[1..]);
      SoloRunIsSerial(SoloStep(x, job, envs[0]), job, envs[1..]);
    }
  }

  /** The serial system can start the job, run it along `envs` and lose the worker. */
  function SessionActions(job: Job, envs: seq<Env>): seq<Action> {
    [Start(0, job)] + RunActions(envs) + [Crash(0)]
  }

  lemma SessionIsSerial(db: Db, jobs: set<Job>, job: Job, envs: seq<Env>)
    requires job in jobs
    ensures var (db', jobs') := Session(db, jobs, job, envs);
            SerialExec(State(db, jobs, map[]), SessionActions(job, envs)) == State(db', jobs', map[])
  {
    var s := State(db, jobs, map[]);
    var x := Solo(db, jobs, Some(Entry(job)));
    assert SerialStep(s, Start(0, job)) == Lift(x, job);
    var acts := SessionActions(job, envs);
    assert acts[0] == Start(0, job) && acts[1..] == RunActions(envs) + [Crash(0)];
    FoldSplit(SerialStep, Lift(x, job), RunActions(envs), [Crash(0)]);
    SoloRunIsSerial(x, job, envs);
    var y := Lift(SoloRun(x, job, envs), job);
    assert SerialExec(y, [Crash(0)]) == SerialExec(SerialStep(y, Crash(0)), []);
    assert SerialStep(y, Crash(0)).live == map[];
  }

  /** A session of any job, cut anywhere, keeps what the serial system keeps: failure and step success
      stay, and the rows of a succeeded assert step are complete. */
  lemma SessionSettles(db: Db, jobs: set<Job>, job: Job, envs: seq<Env>)
    requires job in jobs && Lone(State(db, jobs, map[]))
    ensures var (db', jobs') := Session(db, jobs, job, envs);
            Settles(db, db') && Lone(State(db', jobs', map[]))
  {
    SessionIsSerial(db, jobs, job, envs);
    SerialExecLone(State(db, jobs, map[]), SessionActions(job, envs));
  }
}

/**
 Every interleaving of Encrypt, Decrypt, racing first-time mints, lazy re-wraps and RewrapAll on the
 account_evidence_keys table, statement by statement, by any number of processes, each with its own
 keyring.  Evidence keys are never shredded here.
 */
module KeyHistory {
  import opened Wrappers
  import opened Runs
  import opened Envelope

  /** One Encrypt that returned. */
  datatype Entry = Entry(account: Account, doc: Doc, blob: Blob)

  /** A Decrypt may be handed any blob; `earlier` is set when the blob is the result of an Encrypt that
      has already returned for the account. */
  datatype Task =
    | EncryptTask(account: Account, doc: Doc)
    | DecryptTask(account: Account, blob: Blob, earlier: Option<Doc>)

  /** Between which two statements a process stands. */
  datatype Point =
    | Loading
    | Inserting(wrapped: Blob)
    | Reloading
    | Unwrapping(wrapped: Blob)
    | Using(wrapped: Blob, raw: Plain)

  datatype Process =
    | Accessing(ring: Ring, task: Task, at: Point)
    | Rewrapping(ring: Ring, todo: map<Account, Blob>)

  /** One Decrypt that returned: the row it loaded, and its plaintext unless it failed. */
  datatype Outcome = Outcome(ring: Ring, task: Task, loaded: Option<Blob>, result: Option<Plain>)

  /** `deks` is a history variable: the key an account's row was created with. */
  datatype State = State(
    rows: map<Account, Blob>,
    procs: map<nat, Process>,
    log: set<Entry>,
    outcomes: set<Outcome>,
    deks: map<Account, nat>)

  datatype Action =
    | Start(pid: nat, ring: Ring, task: Task)
    | StartRewrap(pid: nat, ring: Ring)
    | Run(pid: nat, nonce: nat, raw: nat, lost: bool)
    | RewrapRow(pid: nat, account: Account, nonce: nat, lost: bool)
    | Stop(pid: nat)

  /** UPDATE account_evidence_keys SET wrapped_dek = w WHERE account_id = a. */
  function Update(rows: map<Account, Blob>, a: Account, w: Blob): map<Account, Blob> {
    if a in rows then rows[a := w] else rows
  }

  function Goto(s: State, pid: nat, p: Process, at: Point): State
    requires p.Accessing?
  {
    s.(procs := s.procs[pid := p.(at := at)])
  }

  function Fail(s: State, pid: nat, p: Process, loaded: Option<Blob>): State
    requires p.Accessing?
  {
    var t := s.(procs := s.procs - {pid});
    if p.task.DecryptTask? then t.(outcomes := t.outcomes + {Outcome(p.ring, p.task, loaded, None)}) else t
  }

  /** The next statement of Encrypt or Decrypt. */
  function RunAccess(s: State, pid: nat, p: Process, nonce: nat, raw: nat, lost: bool): State
    requires p.Accessing?
  {
    var a := p.task.account;
    match p.at
    case Loading =>
      if a in s.rows then Goto(s, pid, p, Unwrapping(s.rows[a]))
      else if p.task.DecryptTask? then Fail(s, pid, p, None)
      else Goto(s, pid, p, Inserting(SealAAD(Master(p.ring.active), RawKey(raw), ForAccount(a), nonce)))
    case Inserting(w) =>
      if lost then Fail(s, pid, p, None)
      else if a in s.rows then Goto(s, pid, p, Reloading)
      else
        var t := Goto(s, pid, p, Reloading);
        t.(rows := t.rows[a := w],
           deks := t.deks[a := if w.Sealed? && w.plain.RawKey? then w.plain.dek else 0])
    case Reloading =>
      if a in s.rows then Goto(s, pid, p, Unwrapping(s.rows[a])) else Fail(s, pid, p, None)
    case Unwrapping(w) =>
      var found := Unwrap(p.ring, a, w);
      if found.None? then Fail(s, pid, p, Some(w))
      else
        var t := Goto(s, pid, p, Using(w, found.value));
        if Classify(p.ring, a, w) == Retired && !lost
        then t.(rows := Update(t.rows, a, SealAAD(Master(p.ring.active), found.value, ForAccount(a), nonce)))
        else t
    case Using(w, key) =>
      if key.Document? then Fail(s, pid, p, Some(w))
      else
        var t := s.(procs := s.procs - {pid});
        match p.task
        case EncryptTask(_, doc) =>
          t.(log := t.log + {Entry(a, doc, SealAAD(Data(key.dek), Document(doc), NoAad, nonce))})
        case DecryptTask(_, blob, _) =>
          t.(outcomes := t.outcomes + {Outcome(p.ring, p.task, Some(w), OpenAAD(Data(key.dek), blob, NoAad))})
  }

  /** RewrapAll reads a snapshot and updates row after row; other statements run in between. */
  function RunRewrap(s: State, pid: nat, p: Process, a: Account, nonce: nat, lost: bool): State
    requires p.Rewrapping? && a in p.todo
  {
    var t := s.(procs := s.procs[pid := p.(todo := p.todo - {a})]);
    var found := FirstOpening(p.ring.retired, a, p.todo[a]);
    if Classify(p.ring, a, p.todo[a]) == Retired && found.Some? && !lost
    then t.(rows := Update(t.rows, a, SealAAD(Master(p.ring.active), found.value, ForAccount(a), nonce)))
    else t
  }

  function Step(s: State, act: Action): State {
    match act
    case Start(pid, ring, task) =>
      if task.DecryptTask? && task.earlier.Some? && Entry(task.account, task.earlier.value, task.blob) !in s.log
      then s
      else s.(procs := s.procs[pid := Accessing(ring, task, Loading)])
    case StartRewrap(pid, ring) => s.(procs := s.procs[pid := Rewrapping(ring, s.rows)])
    case Run(pid, nonce, raw, lost) =>
      if pid in s.procs && s.procs[pid].Accessing?
      then RunAccess(s, pid, s.procs[pid], nonce, raw, lost) else s
    case RewrapRow(pid, a, nonce, lost) =>
      if pid in s.procs && s.procs[pid].Rewrapping? && a in s.procs[pid].todo
      then RunRewrap(s, pid, s.procs[pid], a, nonce, lost) else s
    case Stop(pid) => s.(procs := s.procs - {pid})
  }

  function Exec(s: State, acts: seq<Action>): State { Fold(Step, s, acts) }

  const EMPTY: State := State(map[], map[], {}, {}, map[])

  // ---- the invariant ----

  /** The blob wraps the account's own key for the account, under some master key. */
  predicate Wraps(deks: map<Account, nat>, a: Account, w: Blob) {
    && a in deks && w.Sealed? && w.key.Master?
    && w.aad == ForAccount(a) && w.plain == RawKey(deks[a])
  }

  predicate EntryOk(deks: map<Account, nat>, e: Entry) {
    && e.account in deks
    && e.blob.Sealed? && e.blob.key == Data(deks[e.account]) && e.blob.aad == NoAad
    && e.blob.plain == Document(e.doc)
  }

  predicate TaskOk(deks: map<Account, nat>, t: Task) {
    t.DecryptTask? && t.earlier.Some? ==> EntryOk(deks, Entry(t.account, t.earlier.value, t.blob))
  }

  predicate ProcessOk(deks: map<Account, nat>, p: Process) {
    match p
    case Accessing(ring, task, at) =>
      TaskOk(deks, task) &&
      (match at
       case Inserting(w) => w.Sealed? && w.key.Master? && w.aad == ForAccount(task.account) && w.plain.RawKey?
                            && task.EncryptTask?
       case Unwrapping(w) => Wraps(deks, task.account, w)
       case Using(w, raw) => Wraps(deks, task.account, w) && raw == w.plain
                             && OpenedBy([ring.active] + ring.retired, task.account, w)
       case Reloading => task.EncryptTask?
       case _ => true)
    case Rewrapping(ring, todo) => forall a :: a in todo ==> Wraps(deks, a, todo[a])
  }

  /** What a returned Decrypt of an earlier Encrypt's result must have produced: the document exactly
      when the row it loaded was wrapped under one of its master keys. */
  predicate OutcomeOk(deks: map<Account, nat>, o: Outcome) {
    && TaskOk(deks, o.task)
    && (o.task.DecryptTask? && o.task.earlier.Some? ==>
          && o.loaded.Some? && Wraps(deks, o.task.account, o.loaded.value)
          && o.result == if OpenedBy([o.ring.active] + o.ring.retired, o.task.account, o.loaded.value)
                         then Some(Document(o.task.earlier.value)) else None)
  }

  ghost predicate Inv(s: State) {
    && s.rows.Keys == s.deks.Keys
    && (forall a :: a in s.rows ==> Wraps(s.deks, a, s.rows[a]))
    && (forall pid :: pid in s.procs ==> ProcessOk(s.deks, s.procs[pid]))
    && (forall e :: e in s.log ==> EntryOk(s.deks, e))
    && (forall o :: o in s.outcomes ==> OutcomeOk(s.deks, o))
  }

  predicate Extends(deks: map<Account, nat>, deks': map<Account, nat>) {
    forall a :: a in deks ==> a in deks' && deks'[a] == deks[a]
  }

  /** The obligation of one statement of a process. */
  ghost predicate Keeps(s: State, s': State) {
    Inv(s') && Extends(s.deks, s'.deks) && s.log <= s'.log
  }

  /** Moving one process and rewriting one row with a blob that wraps the same key keeps the invariant. */
  lemma KeepsRow(s: State, s': State, pid: nat, a: Account, w: Blob)
    requires Inv(s) && s'.deks == s.deks && s'.log == s.log && s'.outcomes == s.outcomes
    requires s'.rows == Update(s.rows, a, w)
    requires a in s.rows ==> Wraps(s.deks, a, w)
    requires forall q :: q in s'.procs ==> q == pid || (q in s.procs && s'.procs[q] == s.procs[q])
    requires pid in s'.procs ==> ProcessOk(s.deks, s'.procs[pid])
    ensures Keeps(s, s')
  {
  }

  lemma FailKeeps(s: State, pid: nat, p: Process, loaded: Option<Blob>)
    requires Inv(s) && p.Accessing? && ProcessOk(s.deks, p)
    requires p.task.DecryptTask? && p.task.earlier.Some? ==>
               loaded.Some? && Wraps(s.deks, p.task.account, loaded.value)
               && !OpenedBy([p.ring.active] + p.ring.retired, p.task.account, loaded.value)
    ensures Keeps(s, Fail(s, pid, p, loaded))
  {
  }

  lemma InsertKeeps(s: State, pid: nat, p: Process)
    requires Inv(s) && p.Accessing? && p.at.Inserting? && ProcessOk(s.deks, p) && p.task.account !in s.rows
    ensures Keeps(s, RunAccess(s, pid, p, 0, 0, false))
  {
    var s' := RunAccess(s, pid, p, 0, 0, false);
    assert Extends(s.deks, s'.deks);
    assert forall d: map<Account, nat>, a, w :: Extends(s.deks, d) && Wraps(s.deks, a, w) ==> Wraps(d, a, w);
    forall q | q in s'.procs ensures ProcessOk(s'.deks, s'.procs[q]) {
      if q != pid { assert ProcessOk(s.deks, s.procs[q]); }
    }
    forall o | o in s'.outcomes ensures OutcomeOk(s'.deks, o) { assert OutcomeOk(s.deks, o); }
  }

  lemma UseKeeps(s: State, pid: nat, p: Process, nonce: nat)
    requires Inv(s) && p.Accessing? && p.at.Using? && ProcessOk(s.deks, p)
    ensures Keeps(s, RunAccess(s, pid, p, nonce, 0, false))
  {
  }

  lemma UnwrapKeeps(s: State, pid: nat, p: Process, nonce: nat, lost: bool)
    requires Inv(s) && p.Accessing? && p.at.Unwrapping? && ProcessOk(s.deks, p)
    ensures Keeps(s, RunAccess(s, pid, p, nonce, 0, lost))
  {
    var a, w := p.task.account, p.at.wrapped;
    UnwrapExact(p.ring, a, w);
    if Unwrap(p.ring, a, w).None? {
      FailKeeps(s, pid, p, Some(w));
    } else {
      var s' := RunAccess(s, pid, p, nonce, 0, lost);
      var v := if Classify(p.ring, a, w) == Retired && !lost
               then SealAAD(Master(p.ring.active), w.plain, ForAccount(a), nonce)
               else s.rows[a];
      KeepsRow(s, s', pid, a, v);
    }
  }

  lemma AccessKeeps(s: State, pid: nat, p: Process, nonce: nat, raw: nat, lost: bool)
    requires Inv(s) && p.Accessing? && ProcessOk(s.deks, p)
    ensures Keeps(s, RunAccess(s, pid, p, nonce, raw, lost))
  {
    var a := p.task.account;
    var row := if a in s.rows then s.rows[a] else Junk([]);
    match p.at
    case Unwrapping(w) =>
      UnwrapKeeps(s, pid, p, nonce, lost);
      assert RunAccess(s, pid, p, nonce, raw, lost) == RunAccess(s, pid, p, nonce, 0, lost);
    case Using(w, key) =>
      UseKeeps(s, pid, p, nonce);
      assert RunAccess(s, pid, p, nonce, raw, lost) == RunAccess(s, pid, p, nonce, 0, false);
    case Inserting(w) =>
      if lost { FailKeeps(s, pid, p, None); }
      else if a in s.rows { KeepsRow(s, RunAccess(s, pid, p, nonce, raw, lost), pid, a, row); }
      else {
        InsertKeeps(s, pid, p);
        assert RunAccess(s, pid, p, nonce, raw, lost) == RunAccess(s, pid, p, 0, 0, false);
      }
    case Loading =>
      if a !in s.rows && p.task.DecryptTask? { FailKeeps(s, pid, p, None); }
      else { KeepsRow(s, RunAccess(s, pid, p, nonce, raw, lost), pid, a, row); }
    case Reloading =>
      if a in s.rows { KeepsRow(s, RunAccess(s, pid, p, nonce, raw, lost), pid, a, row); }
      else { FailKeeps(s, pid, p, None); }
  }

  lemma RewrapKeeps(s: State, pid: nat, p: Process, a: Account, nonce: nat, lost: bool)
    requires Inv(s) && p.Rewrapping? && a in p.todo && ProcessOk(s.deks, p)
    ensures Keeps(s, RunRewrap(s, pid, p, a, nonce, lost))
  {
    var s' := RunRewrap(s, pid, p, a, nonce, lost);
    FirstOpeningExact(p.ring.retired, a, p.todo[a]);
    var v := if Classify(p.ring, a, p.todo[a]) == Retired && !lost
             then SealAAD(Master(p.ring.active), p.todo[a].plain, ForAccount(a), nonce)
             else s.rows[a];
    UnwrapExact(p.ring, a, p.todo[a]);
    assert s'.rows == Update(s.rows, a, v);
    KeepsRow(s, s', pid, a, v);
  }

  lemma StepKeeps(s: State, act: Action)
    requires Inv(s)
    ensures Keeps(s, Step(s, act))
  {
    match act
    case Run(pid, nonce, raw, lost) =>
      if pid in s.procs && s.procs[pid].Accessing? { AccessKeeps(s, pid, s.procs[pid], nonce, raw, lost); }
    case RewrapRow(pid, a, nonce, lost) =>
      if pid in s.procs && s.procs[pid].Rewrapping? && a in s.procs[pid].todo {
        RewrapKeeps(s, pid, s.procs[pid], a, nonce, lost);
      }
    case Start(pid, ring, task) =>
    case StartRewrap(pid, ring) =>
    case Stop(pid) =>
  }

  lemma {:induction false} ExecKeeps(s: State, acts: seq<Action>)
    requires Inv(s)
    ensures Keeps(s, Exec(s, acts))
    decreases |acts|
  {
    if acts != [] {
      StepKeeps(s, acts[0]);
      ExecKeeps(Step(s, acts[0]), acts[1..]);
    }
  }

  /** An account's data-encryption key, once its row exists, is what that row wraps ever after,
      whoever mints, re-wraps or rotates in between; no row disappears. */
  lemma DekNeverChanges(acts: seq<Action>, more: seq<Action>, a: Account)
    requires a in Exec(EMPTY, acts).rows
    ensures var s, t := Exec(EMPTY, acts), Exec(EMPTY, acts + more);
            && a in t.rows && s.rows[a].Sealed? && t.rows[a].Sealed?
            && t.rows[a].plain == s.rows[a].plain && t.rows[a].plain.RawKey?
            && t.rows[a].aad == ForAccount(a)
  {
    ExecKeeps(EMPTY, acts);
    FoldSplit(Step, EMPTY, acts, more);
    ExecKeeps(Exec(EMPTY, acts), more);
  }

  /** Every Decrypt of the result of an earlier Encrypt for the account returned the original document
      if the row it loaded was wrapped under a master key of its ring, and failed only otherwise;
      it never met a missing row and never returned anything else. */
  lemma DecryptReturnsWhatWasEncrypted(acts: seq<Action>, o: Outcome, doc: Doc)
    requires o in Exec(EMPTY, acts).outcomes && o.task.DecryptTask? && o.task.earlier == Some(doc)
    ensures o.loaded.Some? && o.loaded.value.Sealed? && o.loaded.value.key.Master?
    ensures o.result == (if o.loaded.value.key.id in [o.ring.active] + o.ring.retired
                         then Some(Document(doc)) else None)
  {
    ExecKeeps(EMPTY, acts);
    assert OutcomeOk(Exec(EMPTY, acts).deks, o);
  }

  // ---- an undisturbed access completes ----

  function Statements(pid: nat, raw: nat, nonce: nat, n: nat): seq<Action> { seq(n, _ => Run(pid, nonce, raw, false)) }

  lemma RunOn(s: State, pid: nat, p: Process, raw: nat, nonce: nat, n: nat)
    requires pid in s.procs && s.procs[pid] == p && p.Accessing? && n > 0
    ensures Exec(s, Statements(pid, raw, nonce, n))
            == Exec(RunAccess(s, pid, p, nonce, raw, false), Statements(pid, raw, nonce, n - 1))
  {
    assert Statements(pid, raw, nonce, n)[1..] == Statements(pid, raw, nonce, n - 1);
  }

  /** What an access that returned has left: for Encrypt an entry, for Decrypt an outcome with the
      plaintext of its blob if that opens. */
  predicate Returned(t: State, ring: Ring, task: Task, dek: nat) {
    match task
    case EncryptTask(a, doc) =>
      exists e :: e in t.log && e.account == a && e.doc == doc && OpenAAD(Data(dek), e.blob, NoAad) == Some(Document(doc))
    case DecryptTask(a, blob, _) =>
      exists o :: o in t.outcomes && o.ring == ring && o.task == task && o.result == OpenAAD(Data(dek), blob, NoAad)
  }

  /** From a row its ring can open, two statements open it, move it to the active key and use it. */
  lemma UnwrapCompletes(s: State, pid: nat, ring: Ring, task: Task, raw: nat, nonce: nat)
    requires pid in s.procs && task.account in s.rows
    requires s.procs[pid] == Accessing(ring, task, Unwrapping(s.rows[task.account]))
    requires OpenedBy([ring.active] + ring.retired, task.account, s.rows[task.account])
    requires s.rows[task.account].plain.RawKey?
    ensures var t := Exec(s, Statements(pid, raw, nonce, 2));
            && Returned(t, ring, task, s.rows[task.account].plain.dek)
            && task.account in t.rows && OpenedBy([ring.active], task.account, t.rows[task.account])
            && t.rows[task.account].plain == s.rows[task.account].plain
  {
    var a, w, two: nat := task.account, s.rows[task.account], 2;
    var p := s.procs[pid];
    UnwrapExact(ring, a, w);
    var s1 := RunAccess(s, pid, p, nonce, raw, false);
    RunOn(s, pid, p, raw, nonce, two);
    var q := s1.procs[pid];
    RunOn(s1, pid, q, raw, nonce, two - 1);
    var t := RunAccess(s1, pid, q, nonce, raw, false);
    assert Exec(t, Statements(pid, raw, nonce, two - 2)) == t;
    match task
    case EncryptTask(_, doc) => assert Entry(a, doc, SealAAD(Data(w.plain.dek), Document(doc), NoAad, nonce)) in t.log;
    case DecryptTask(_, blob, _) =>
      assert Outcome(ring, task, Some(w), OpenAAD(Data(w.plain.dek), blob, NoAad)) in t.outcomes;
  }

  /** An access that nothing disturbs returns: Encrypt always if the account has no row yet, and both if the
      row opens under the ring.  The row is then on the active key, with the key it had or a new one. */
  lemma UndisturbedAccessReturns(s: State, pid: nat, ring: Ring, task: Task, raw: nat, nonce: nat)
    requires pid in s.procs && s.procs[pid] == Accessing(ring, task, Loading)
    requires task.account in s.rows ==>
               && OpenedBy([ring.active] + ring.retired, task.account, s.rows[task.account])
               && s.rows[task.account].plain.RawKey?
    requires task.account !in s.rows ==> task.EncryptTask?
    ensures var known := task.account in s.rows;
            var t := Exec(s, Statements(pid, raw, nonce, if known then 3 else 5));
            && Returned(t, ring, task, if known then s.rows[task.account].plain.dek else raw)
            && task.account in t.rows && OpenedBy([ring.active], task.account, t.rows[task.account])
            && t.rows[task.account].plain == (if known then s.rows[task.account].plain else RawKey(raw))
  {
    var a, p, five: nat := task.account, s.procs[pid], 5;
    if a in s.rows {
      RunOn(s, pid, p, raw, nonce, five - 2);
      UnwrapCompletes(RunAccess(s, pid, p, nonce, raw, false), pid, ring, task, raw, nonce);
    } else {
      var s1 := RunAccess(s, pid, p, nonce, raw, false);
      RunOn(s, pid, p, raw, nonce, five);
      var s2 := RunAccess(s1, pid, s1.procs[pid], nonce, raw, false);
      RunOn(s1, pid, s1.procs[pid], raw, nonce, five - 1);
      var s3 := RunAccess(s2, pid, s2.procs[pid], nonce, raw, false);
      RunOn(s2, pid, s2.procs[pid], raw, nonce, five - 2);
      UnwrapCompletes(s3, pid, ring, task, raw, nonce);
    }
  }

  // ---- rotations that lose nothing ----

  /** Every process wraps under one of the keys and can unwrap under all of them. */
  predicate Covers(keys: set<nat>, ring: Ring) {
    ring.active in keys && forall k :: k in keys ==> k == ring.active || k in ring.retired
  }

  predicate Careful(keys: set<nat>, acts: seq<Action>) {
    forall i :: 0 <= i < |acts| && (acts[i].Start? || acts[i].StartRewrap?) ==> Covers(keys, acts[i].ring)
  }

  predicate Within(keys: set<nat>, w: Blob) { w.Sealed? && w.key.Master? && w.key.id in keys }

  predicate ProcessWithin(keys: set<nat>, p: Process) {
    && Covers(keys, p.ring)
    && (p.Accessing? && (p.at.Inserting? || p.at.Unwrapping? || p.at.Using?) ==> Within(keys, p.at.wrapped))
    && (p.Rewrapping? ==> forall a :: a in p.todo ==> Within(keys, p.todo[a]))
  }

  ghost predicate AllWithin(keys: set<nat>, s: State) {
    && (forall a :: a in s.rows ==> Within(keys, s.rows[a]))
    && (forall pid :: pid in s.procs ==> ProcessWithin(keys, s.procs[pid]))
    && (forall o :: o in s.outcomes ==> Covers(keys, o.ring) && (o.loaded.Some? ==> Within(keys, o.loaded.value)))
  }

  lemma UnwrapWithin(keys: set<nat>, s: State, pid: nat, p: Process, nonce: nat, lost: bool)
    requires AllWithin(keys, s) && p.Accessing? && p.at.Unwrapping? && ProcessWithin(keys, p)
    ensures AllWithin(keys, RunAccess(s, pid, p, nonce, 0, lost))
  {
  }

  lemma UseWithin(keys: set<nat>, s: State, pid: nat, p: Process, nonce: nat)
    requires AllWithin(keys, s) && p.Accessing? && p.at.Using? && ProcessWithin(keys, p)
    ensures AllWithin(keys, RunAccess(s, pid, p, nonce, 0, false))
  {
  }

  lemma AccessWithin(keys: set<nat>, s: State, pid: nat, p: Process, nonce: nat, raw: nat, lost: bool)
    requires AllWithin(keys, s) && p.Accessing? && ProcessWithin(keys, p)
    ensures AllWithin(keys, RunAccess(s, pid, p, nonce, raw, lost))
  {
    match p.at {
      case Unwrapping(_) =>
        UnwrapWithin(keys, s, pid, p, nonce, lost);
        assert RunAccess(s, pid, p, nonce, raw, lost) == RunAccess(s, pid, p, nonce, 0, lost);
      case Using(_, _) =>
        UseWithin(keys, s, pid, p, nonce);
        assert RunAccess(s, pid, p, nonce, raw, lost) == RunAccess(s, pid, p, nonce, 0, false);
      case _ =>
    }
  }

  lemma StepWithin(keys: set<nat>, s: State, act: Action)
    requires AllWithin(keys, s)
    requires act.Start? || act.StartRewrap? ==> Covers(keys, act.ring)
    ensures AllWithin(keys, Step(s, act))
  {
    match act
    case Run(pid, nonce, raw, lost) =>
      if pid in s.procs && s.procs[pid].Accessing? { AccessWithin(keys, s, pid, s.procs[pid], nonce, raw, lost); }
    case _ =>
  }

  lemma {:induction false} ExecWithin(keys: set<nat>, s: State, acts: seq<Action>)
    requires AllWithin(keys, s) && Careful(keys, acts)
    ensures AllWithin(keys, Exec(s, acts))
    decreases |acts|
  {
    if acts != [] {
      StepWithin(keys, s, acts[0]);
      ExecWithin(keys, Step(s, acts[0]), acts[1..]);
    }
  }

  /** If every process that ever runs is configured with all the master keys any of them wraps under,
      then no Decrypt of earlier evidence ever fails, however rotations and re-wraps interleave. */
  lemma CarefulRotationLosesNothing(keys: set<nat>, acts: seq<Action>, o: Outcome, doc: Doc)
    requires Careful(keys, acts)
    requires o in Exec(EMPTY, acts).outcomes && o.task.DecryptTask? && o.task.earlier == Some(doc)
    ensures o.result == Some(Document(doc))
  {
    ExecWithin(keys, EMPTY, acts);
    DecryptReturnsWhatWasEncrypted(acts, o, doc);
    var k := o.loaded.value.key.id;
    assert k == o.ring.active ==> ([o.ring.active] + o.ring.retired)[0] == k;
  }
}

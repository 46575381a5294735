/**
 Account deletion: soft delete, then a hard delete that shreds the evidence key, deletes the evidence
 objects and removes the account, with crashes, retries and duplicate jobs at any point.
 No evidence is written for an account once it is soft-deleted.
 */
module AccountPurge {
  import opened Wrappers
  import opened Runs

  datatype AccountRow = AccountRow(deletedAt: Option<int>, purgeAfter: Option<int>)

  datatype DrillRow = DrillRow(account: nat, path: Option<nat>)

  /** Soft-deleted and out of its grace window. */
  predicate Due(a: AccountRow, now: int) {
    a.deletedAt.Some? && (a.purgeAfter.Some? ==> a.purgeAfter.value <= now)
  }

  datatype Point = Checking | Listing | Shredding(paths: set<nat>) | Deleting(paths: set<nat>)

  datatype Purge = Purge(account: nat, at: Point)

  /** `keys` holds the accounts that have a row in account_evidence_keys, `objects` the stored paths.
      `truncated` is a history variable: the accounts one of whose listings of evidence paths broke off
      early, which HardDelete does not notice. */
  datatype State = State(
    clock: int,
    accounts: map<nat, AccountRow>,
    keys: set<nat>,
    drills: map<nat, DrillRow>,
    objects: set<nat>,
    purges: map<nat, Purge>,
    truncated: set<nat>)

  datatype Action =
    | Tick(delta: nat)
    | SoftDelete(account: nat, grace: nat)
    | WriteEvidence(account: nat, drill: nat, path: nat)
    | Start(pid: nat, account: nat)
    | Run(pid: nat, path: nat, missed: set<nat>, reached: bool, ack: bool)
    | Crash(pid: nat)

  /** The evidence paths the account's drills point at. */
  function PathsOf(drills: map<nat, DrillRow>, account: nat): set<nat> {
    set d | d in drills && drills[d].account == account && drills[d].path.Some? :: drills[d].path.value
  }

  function Goto(s: State, pid: nat, p: Purge, at: Point): State { s.(purges := s.purges[pid := p.(at := at)]) }

  function Stop(s: State, pid: nat): State { s.(purges := s.purges - {pid}) }

  /** One statement of HardDelete; a failed write makes the job return and be retried.  The listing
      comes without the paths in `missed`. */
  function RunPurge(s: State, pid: nat, p: Purge, path: nat, missed: set<nat>, reached: bool, ack: bool): State {
    var a := p.account;
    match p.at
    case Checking =>
      if a in s.accounts && Due(s.accounts[a], s.clock) && ack then Goto(s, pid, p, Listing) else Stop(s, pid)
    case Listing =>
      var paths := PathsOf(s.drills, a);
      var t := if ack then Goto(s, pid, p, Shredding(paths - missed)) else Stop(s, pid);
      if paths !! missed then t else t.(truncated := t.truncated + {a})
    case Shredding(paths) =>
      var t := if ack then Goto(s, pid, p, Deleting(paths)) else Stop(s, pid);
      if reached || ack then t.(keys := t.keys - {a}) else t
    case Deleting(paths) =>
      if path in paths then
        var t := if ack then Goto(s, pid, p, Deleting(paths - {path})) else Stop(s, pid);
        if reached || ack then t.(objects := t.objects - {path}) else t
      else if paths != {} then s
      else
        var t := Stop(s, pid);
        if reached || ack
        then t.(accounts := t.accounts - {a}, keys := t.keys - {a},
                drills := map d | d in t.drills && t.drills[d].account != a :: t.drills[d])
        else t
  }

  function Step(s: State, act: Action): State {
    match act
    case Tick(delta) => s.(clock := s.clock + delta)
    case SoftDelete(a, grace) =>
      if a in s.accounts && s.accounts[a].deletedAt.None?
      then s.(accounts := s.accounts[a := AccountRow(Some(s.clock), Some(s.clock + grace))]) else s
    case WriteEvidence(a, d, path) =>
      // Finalize under a live account: the key is minted, the object stored, the path recorded
      if a in s.accounts && s.accounts[a].deletedAt.None? && d in s.drills && s.drills[d].account == a
         && (s.drills[d].path == Some(path) || (s.drills[d].path.None? && Unclaimed(s, path)))
      then s.(keys := s.keys + {a}, objects := s.objects + {path}, drills := s.drills[d := DrillRow(a, Some(path))])
      else s
    case Start(pid, a) => s.(purges := s.purges[pid := Purge(a, Checking)])
    case Run(pid, path, missed, reached, ack) =>
      if pid in s.purges then RunPurge(s, pid, s.purges[pid], path, missed, reached, ack) else s
    case Crash(pid) => Stop(s, pid)
  }

  /** A path derives from its drill's id, so no two drills share one and none is reused. */
  predicate Unclaimed(s: State, path: nat) {
    && (forall d :: d in s.drills ==> s.drills[d].path != Some(path))
    && (forall pid :: pid in s.purges ==> path !in Held(s.purges[pid]))
  }

  function Held(p: Purge): set<nat> {
    match p.at
    case Shredding(paths) => paths
    case Deleting(paths) => paths
    case _ => {}
  }

  function Exec(s: State, acts: seq<Action>): State { Fold(Step, s, acts) }

  // ---- the order of destruction ----

  predicate DueNow(s: State, a: nat) { a in s.accounts ==> Due(s.accounts[a], s.clock) }

  /** A purge past its check: the account is due (or already gone), the paths it holds are the account's
      own, and once the key is shredded the objects it no longer holds are gone, unless a listing of the
      account was truncated. */
  ghost predicate PurgeOk(s: State, p: Purge) {
    && (!p.at.Checking? ==> DueNow(s, p.account))
    && (forall path :: path in Held(p) ==>
          forall d :: d in s.drills && s.drills[d].path == Some(path) ==> s.drills[d].account == p.account)
    && (p.at.Shredding? && p.account !in s.truncated ==> PathsOf(s.drills, p.account) <= p.at.paths)
    && (p.at.Deleting? ==> p.account !in s.keys)
    && (p.at.Deleting? && p.account !in s.truncated ==>
          forall x :: x in PathsOf(s.drills, p.account) && x in s.objects ==> x in p.at.paths)
  }

  ghost predicate Inv(s: State) {
    && (forall d, e :: d in s.drills && e in s.drills && d != e && s.drills[d].path.Some? ==>
          s.drills[e].path != s.drills[d].path)
    && (forall d :: d in s.drills && s.drills[d].path.Some? && s.drills[d].path.value !in s.objects ==>
          s.drills[d].account !in s.keys && DueNow(s, s.drills[d].account))
    && (forall pid :: pid in s.purges ==> PurgeOk(s, s.purges[pid]))
  }

  /** What a single step may destroy. */
  ghost predicate Lawful(s: State, s': State) {
    && (forall a :: a in s.keys && a !in s'.keys ==> DueNow(s, a))
    && (forall d :: d in s.drills && s.drills[d].path.Some? && s.drills[d].path.value in s.objects
                    && s.drills[d].path.value !in s'.objects ==>
          DueNow(s, s.drills[d].account) && s.drills[d].account !in s.keys)
    && (forall a :: a in s.accounts && a !in s'.accounts ==>
          Due(s.accounts[a], s.clock) && a !in s.keys && (a !in s.truncated ==> PathsOf(s.drills, a) !! s.objects))
    && (forall d :: d in s.drills && d !in s'.drills ==> s.drills[d].account !in s'.accounts)
  }

  lemma WriteInv(s: State, a: nat, d: nat, path: nat)
    requires Inv(s)
    ensures Inv(Step(s, WriteEvidence(a, d, path))) && Lawful(s, Step(s, WriteEvidence(a, d, path)))
  {
    var s' := Step(s, WriteEvidence(a, d, path));
    forall pid | pid in s'.purges ensures PurgeOk(s', s'.purges[pid]) { assert PurgeOk(s, s.purges[pid]); }
  }

  lemma ShredInv(s: State, pid: nat, path: nat, missed: set<nat>, reached: bool, ack: bool)
    requires Inv(s) && pid in s.purges && s.purges[pid].at.Shredding?
    ensures var s' := RunPurge(s, pid, s.purges[pid], path, missed, reached, ack); Inv(s') && Lawful(s, s')
  {
    var s' := RunPurge(s, pid, s.purges[pid], path, missed, reached, ack);
    assert PurgeOk(s, s.purges[pid]);
    forall q | q in s'.purges ensures PurgeOk(s', s'.purges[q]) { assert PurgeOk(s, s.purges[q]); }
  }

  lemma DeleteInv(s: State, pid: nat, path: nat, missed: set<nat>, reached: bool, ack: bool)
    requires Inv(s) && pid in s.purges && s.purges[pid].at.Deleting? && path in s.purges[pid].at.paths
    ensures var s' := RunPurge(s, pid, s.purges[pid], path, missed, reached, ack); Inv(s') && Lawful(s, s')
  {
    var s' := RunPurge(s, pid, s.purges[pid], path, missed, reached, ack);
    assert PurgeOk(s, s.purges[pid]) && path in Held(s.purges[pid]);
    forall q | q in s'.purges ensures PurgeOk(s', s'.purges[q]) { assert PurgeOk(s, s.purges[q]); }
  }

  lemma RemoveInv(s: State, pid: nat, path: nat, missed: set<nat>, reached: bool, ack: bool)
    requires Inv(s) && pid in s.purges && s.purges[pid].at.Deleting? && path !in s.purges[pid].at.paths
    ensures var s' := RunPurge(s, pid, s.purges[pid], path, missed, reached, ack); Inv(s') && Lawful(s, s')
  {
    var s' := RunPurge(s, pid, s.purges[pid], path, missed, reached, ack);
    assert PurgeOk(s, s.purges[pid]);
    forall q | q in s'.purges ensures PurgeOk(s', s'.purges[q]) {
      var p := s.purges[q];
      assert PurgeOk(s, p);
      assert PathsOf(s'.drills, p.account) <= PathsOf(s.drills, p.account);
    }
  }

  /** A purge that has just listed the account's paths. */
  predicate Listed(s: State, p: Purge)
    requires p.at.Shredding?
  {
    && p.at.paths <= PathsOf(s.drills, p.account)
    && (p.account !in s.truncated ==> p.at.paths == PathsOf(s.drills, p.account))
  }

  /** The steps that destroy nothing. */
  lemma QuietInv(s: State, s': State)
    requires Inv(s) && s'.drills == s.drills && s'.objects == s.objects && s'.keys == s.keys
    requires s.truncated <= s'.truncated
    requires s'.accounts.Keys == s.accounts.Keys
    requires forall a :: DueNow(s, a) ==> DueNow(s', a)
    requires forall q :: q in s'.purges ==>
               || (q in s.purges && s'.purges[q] == s.purges[q])
               || s'.purges[q].at.Checking?
               || (s'.purges[q].at.Listing? && DueNow(s', s'.purges[q].account))
               || (s'.purges[q].at.Shredding? && Listed(s', s'.purges[q]) && DueNow(s', s'.purges[q].account))
    ensures Inv(s') && Lawful(s, s')
  {
    forall q | q in s'.purges ensures PurgeOk(s', s'.purges[q]) {
      if q in s.purges { assert PurgeOk(s, s.purges[q]); }
    }
  }

  lemma RunInv(s: State, pid: nat, path: nat, missed: set<nat>, reached: bool, ack: bool)
    requires Inv(s) && pid in s.purges
    ensures var s' := RunPurge(s, pid, s.purges[pid], path, missed, reached, ack); Inv(s') && Lawful(s, s')
  {
    var p := s.purges[pid];
    assert PurgeOk(s, p);
    match p.at {
      case Checking => QuietInv(s, RunPurge(s, pid, p, path, missed, reached, ack));
      case Listing => QuietInv(s, RunPurge(s, pid, p, path, missed, reached, ack));
      case Shredding(_) => ShredInv(s, pid, path, missed, reached, ack);
      case Deleting(paths) =>
        if path in paths { DeleteInv(s, pid, path, missed, reached, ack); } else { RemoveInv(s, pid, path, missed, reached, ack); }
    }
  }

  lemma StepInv(s: State, act: Action)
    requires Inv(s)
    ensures Inv(Step(s, act)) && Lawful(s, Step(s, act))
  {
    match act {
      case Run(pid, path, missed, reached, ack) => if pid in s.purges { RunInv(s, pid, path, missed, reached, ack); }
      case WriteEvidence(a, d, path) => WriteInv(s, a, d, path);
      case _ => QuietInv(s, Step(s, act));
    }
  }

  lemma {:induction false} ExecInv(s: State, acts: seq<Action>)
    requires Inv(s)
    ensures Inv(Exec(s, acts))
    decreases |acts|
  {
    if acts != [] {
      StepInv(s, acts[0]);
      ExecInv(Step(s, acts[0]), acts[1..]);
    }
  }

  /** Accounts with drills, and no evidence, purge or key yet. */
  predicate Pristine(s: State) {
    && s.purges == map[] && s.keys == {}
    && forall d :: d in s.drills ==> s.drills[d].path.None?
  }

  /** In every history, every single step destroys in order: a key only of an account that is
      soft-deleted and past its grace (or gone), an evidence object only when its account is so and its
      key is already gone, and an account only when its key and, unless a listing was truncated, all its
      evidence objects are gone. */
  lemma ErasureInOrder(s: State, acts: seq<Action>, act: Action)
    requires Pristine(s)
    ensures Lawful(Exec(s, acts), Step(Exec(s, acts), act))
  {
    ExecInv(s, acts);
    StepInv(Exec(s, acts), act);
  }

  /** At every moment, evidence that is listed but no longer stored belongs to a due account whose key is
      gone: whatever copy survives cannot be opened. */
  lemma MissingEvidenceIsShredded(s: State, acts: seq<Action>, d: nat)
    requires Pristine(s)
    requires var t := Exec(s, acts); d in t.drills && t.drills[d].path.Some? && t.drills[d].path.value !in t.objects
    ensures var t := Exec(s, acts); t.drills[d].account !in t.keys && DueNow(t, t.drills[d].account)
  {
    ExecInv(s, acts);
  }

  // ---- a truncated listing ----

  ghost predicate Reachable(s: State) { exists first, acts :: Pristine(first) && Exec(first, acts) == s }

  lemma ReachStep(s: State, act: Action, s': State)
    requires Reachable(s) && Step(s, act) == s'
    ensures Reachable(s')
  {
    var first, acts :| Pristine(first) && Exec(first, acts) == s;
    FoldSplit(Step, first, acts, [act]);
    assert Exec(s, [act]) == Exec(s', []) == s';
    assert Exec(first, acts + [act]) == s';
  }

  /** One account with one drill and its evidence. */
  function Single(a: nat, row: AccountRow, d: nat, x: nat, purges: map<nat, Purge>): State {
    State(0, map[a := row], {a}, map[d := DrillRow(a, Some(x))], {x}, purges, {})
  }

  lemma WrittenReachable(a: nat, d: nat, x: nat)
    ensures Reachable(Single(a, AccountRow(None, None), d, x, map[]))
  {
    var s := State(0, map[a := AccountRow(None, None)], {}, map[d := DrillRow(a, None)], {}, map[], {});
    var s' := Single(a, AccountRow(None, None), d, x, map[]);
    assert Reachable(s) by { assert Pristine(s) && Exec(s, []) == s; }
    var t := Step(s, WriteEvidence(a, d, x));
    assert t.drills == s'.drills && t.keys == s'.keys && t.objects == s'.objects;
    ReachStep(s, WriteEvidence(a, d, x), s');
  }

  lemma ListingReachable(a: nat, d: nat, x: nat, pid: nat)
    ensures Reachable(Single(a, AccountRow(Some(0), Some(0)), d, x, map[pid := Purge(a, Listing)]))
  {
    var row := AccountRow(Some(0), Some(0));
    WrittenReachable(a, d, x);
    var s1 := Single(a, row, d, x, map[]);
    assert Step(Single(a, AccountRow(None, None), d, x, map[]), SoftDelete(a, 0)).accounts == s1.accounts;
    ReachStep(Single(a, AccountRow(None, None), d, x, map[]), SoftDelete(a, 0), s1);
    var s2 := Single(a, row, d, x, map[pid := Purge(a, Checking)]);
    assert Step(s1, Start(pid, a)).purges == s2.purges;
    ReachStep(s1, Start(pid, a), s2);
    var s3 := Single(a, row, d, x, map[pid := Purge(a, Listing)]);
    assert Step(s2, Run(pid, 0, {}, true, true)).purges == s3.purges;
    ReachStep(s2, Run(pid, 0, {}, true, true), s3);
  }

  lemma MissedReachable(a: nat, d: nat, x: nat, pid: nat)
    ensures Reachable(Single(a, AccountRow(Some(0), Some(0)), d, x, map[pid := Purge(a, Shredding({}))])
                      .(truncated := {a}))
  {
    var row := AccountRow(Some(0), Some(0));
    var s := Single(a, row, d, x, map[pid := Purge(a, Listing)]);
    var s' := Single(a, row, d, x, map[pid := Purge(a, Shredding({}))]).(truncated := {a});
    ListingReachable(a, d, x, pid);
    var paths := PathsOf(s.drills, a);
    assert s.drills[d].path.value in paths && forall y :: y in paths ==> y == x;
    assert paths - {x} == {} && x in paths * {x};
    assert Step(s, Run(pid, 0, {x}, true, true)).purges == s'.purges;
    ReachStep(s, Run(pid, 0, {x}, true, true), s');
  }

  /** The condition on listings is needed: if the listing breaks off early, the account goes while its
      evidence object stays behind.  The key is gone all the same. */
  lemma TruncatedListingLeavesObject(a: nat, d: nat, x: nat, pid: nat)
    ensures exists s :: Reachable(s) && a !in s.accounts && x in s.objects && a !in s.keys
  {
    MissedReachable(a, d, x, pid);
    var s := Single(a, AccountRow(Some(0), Some(0)), d, x, map[pid := Purge(a, Shredding({}))]).(truncated := {a});
    var s1 := s.(keys := {}, purges := map[pid := Purge(a, Deleting({}))]);
    var act := Run(pid, 0, {}, true, true);
    assert Step(s, act).purges == s1.purges && Step(s, act).keys == s1.keys;
    ReachStep(s, act, s1);
    var s2 := Step(s1, act);
    ReachStep(s1, act, s2);
    assert a !in s2.accounts && x in s2.objects && a !in s2.keys;
  }

  // ---- HardDelete ----

  datatype Outcome = Deleted | LoadError | NotEligible | Failed {
    predicate Refused() { LoadError? || NotEligible? }
  }

  class Purger {
    var accounts: map<nat, AccountRow>
    var keys: set<nat>
    var drills: map<nat, DrillRow>
    var objects: set<nat>

    constructor (accounts: map<nat, AccountRow>, keys: set<nat>, drills: map<nat, DrillRow>, objects: set<nat>)
      ensures this.accounts == accounts && this.keys == keys && this.drills == drills && this.objects == objects
    {
      this.accounts, this.keys, this.drills, this.objects := accounts, keys, drills, objects;
    }

    method SoftDelete(a: nat, now: int, grace: nat) returns (purgeAfter: Option<int>)
      modifies this`accounts
      ensures purgeAfter.Some? <==> a in old(accounts) && old(accounts)[a].deletedAt.None?
      ensures purgeAfter.Some? ==>
                accounts == old(accounts)[a := AccountRow(Some(now), Some(now + grace))]
                && !Due(accounts[a], now + grace - 1) && Due(accounts[a], now + grace)
      ensures purgeAfter.None? ==> accounts == old(accounts)
    {
      if a !in accounts || accounts[a].deletedAt.Some? { return None; }
      accounts := accounts[a := AccountRow(Some(now), Some(now + grace))];
      purgeAfter := Some(now + grace);
    }

    /** The hard delete, dying after `budget` writes, its listing short of the paths in `missed`.
        Wherever it is cut, destruction is in order; a completed one leaves exactly the missed objects. */
    method HardDelete(a: nat, now: int, budget: nat, missed: set<nat>) returns (r: Outcome)
      modifies this
      ensures r.LoadError? <==> a !in old(accounts)
      ensures r.NotEligible? <==>
                && a in old(accounts)
                && (old(accounts)[a].deletedAt.None?
                    || (old(accounts)[a].purgeAfter.Some? && now < old(accounts)[a].purgeAfter.value))
      ensures r.Deleted? ==>
                forall d, x :: d in old(drills) && old(drills)[d] == DrillRow(a, Some(x)) && x !in missed ==> x !in objects
      ensures forall x :: x in old(objects) && x !in objects ==>
                exists d :: d in old(drills) && old(drills)[d] == DrillRow(a, Some(x))
      ensures r.Refused() || budget == 0 ==>
                accounts == old(accounts) && keys == old(keys) && drills == old(drills) && objects == old(objects)
      ensures keys == if r.Refused() || budget == 0 then old(keys) else old(keys) - {a}
      ensures old(objects) - objects <= PathsOf(old(drills), a) && objects <= old(objects)
      ensures objects != old(objects) ==> a !in keys
      ensures r.Deleted? ==> accounts == old(accounts) - {a} && a !in keys
      ensures r.Deleted? ==> objects == old(objects) - (PathsOf(old(drills), a) - missed)
      ensures r.Deleted? ==> drills == map d | d in old(drills) && old(drills)[d].account != a :: old(drills)[d]
      ensures !r.Deleted? ==> accounts == old(accounts) && drills == old(drills)
      ensures !r.Refused() && budget > |PathsOf(old(drills), a) - missed| + 1 ==> r.Deleted?
    {
      if a !in accounts { return LoadError; }
      if !Due(accounts[a], now) { return NotEligible; }
      var paths := PathsOf(drills, a) - missed;
      if budget == 0 { return Failed; }
      keys := keys - {a};
      var left := DeleteObjects(paths, budget - 1);
      if left.None? || left.value == 0 { return Failed; }
      accounts := accounts - {a};
      drills := map d | d in drills && drills[d].account != a :: drills[d];
      r := Deleted;
    }

    /** Deletes objects one by one until done or out of budget; deleting a missing object is no error. */
    method DeleteObjects(paths: set<nat>, budget: nat) returns (left: Option<nat>)
      modifies this`objects
      ensures old(objects) - paths <= objects <= old(objects)
      ensures left.Some? <==> budget >= |paths|
      ensures left.Some? ==> objects == old(objects) - paths && left.value == budget - |paths|
    {
      var n: nat := budget;
      var todo := paths;
      while todo != {}
        invariant todo <= paths && objects == old(objects) - (paths - todo)
        invariant n - |todo| == budget - |paths|
        decreases todo
      {
        if n == 0 { return None; }
        var path :| path in todo;
        objects := objects - {path};
        todo, n := todo - {path}, n - 1;
      }
      left := Some(n);
    }
  }
}

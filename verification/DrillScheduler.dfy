/**
 The drill scheduler: slot arithmetic, and overlapping, crashed and stale passes over due targets.
 Times are microseconds since the epoch.
 */
module DrillScheduler {
  import opened Wrappers
  import opened Runs

  datatype Cadence = Off | Hourly | Daily | Weekly | Monthly | Unrecognised

  const HOUR: int := 3_600_000_000

  function CadenceInterval(c: Cadence): (r: nat)
    ensures r == 0 <==> c in {Off, Unrecognised}
    ensures c == Hourly ==> r == HOUR
    ensures c == Daily ==> r == 24 * HOUR
    ensures c == Weekly ==> r == 168 * HOUR
    ensures c == Monthly ==> r == 720 * HOUR
  {
    match c
    case Hourly => HOUR
    case Daily => 24 * HOUR
    case Weekly => 7 * 24 * HOUR
    case Monthly => 30 * 24 * HOUR
    case _ => 0
  }

  // ---- slots ----

  /** The number of intervals to the first slot after `now`, at least one. */
  function Hops(slot: int, interval: int, now: int): int
    requires interval > 0
  {
    if now < slot + interval then 1 else (now - slot) / interval + 1
  }

  function NextSlot(slot: int, interval: int, now: int): int
    requires interval > 0
  {
    slot + Hops(slot, interval, now) * interval
  }

  lemma {:induction false} AtLeastOne(d: int, interval: int)
    requires d >= 1 && interval > 0
    ensures d * interval >= interval
    decreases d
  {
    if d > 1 {
      AtLeastOne(d - 1, interval);
      assert d * interval == (d - 1) * interval + interval;
    }
  }

  lemma Grid(slot: int, interval: int, j: int, k: int)
    requires interval > 0
    ensures j < k ==> slot + j * interval < slot + k * interval
  {
    if j < k {
      AtLeastOne(k - j, interval);
      assert (k - j) * interval == k * interval - j * interval;
    }
  }

  /** NextSlot is the least slot + k * interval, k >= 1, strictly after now. */
  lemma NextSlotLeast(slot: int, interval: int, now: int, k: int)
    requires interval > 0 && k >= 1
    ensures Hops(slot, interval, now) >= 1 && NextSlot(slot, interval, now) > now
    ensures slot + k * interval > now ==> NextSlot(slot, interval, now) <= slot + k * interval
  {
    var h := Hops(slot, interval, now);
    if now >= slot + interval {
      var q := (now - slot) / interval;
      assert q * interval <= now - slot < q * interval + interval;
      assert h * interval == q * interval + interval;
      if k < q { Grid(slot, interval, k, q); }
    }
    if h < k { Grid(slot, interval, h, k); }
  }

  /** The advance loop terminates, and at that slot. */
  method Advance(slot: int, interval: int, now: int) returns (next: int)
    requires interval > 0
    ensures next == NextSlot(slot, interval, now)
  {
    next := slot + interval;
    ghost var k := 1;
    while !(next > now)
      invariant k >= 1 && next == slot + k * interval
      invariant k <= Hops(slot, interval, now)
      decreases now - next
    {
      NextSlotLeast(slot, interval, now, 1);
      assert k != Hops(slot, interval, now);
      assert (k + 1) * interval == k * interval + interval;
      next := next + interval;
      k := k + 1;
    }
    NextSlotLeast(slot, interval, now, k);
    if k < Hops(slot, interval, now) { Grid(slot, interval, k, Hops(slot, interval, now)); }
  }

  /** Two slots of one schedule: a whole number of intervals apart. */
  ghost predicate OnGrid(base: int, interval: int, slot: int) { exists k: int :: slot == base + k * interval }

  lemma NextOnGrid(base: int, interval: int, slot: int, now: int)
    requires interval > 0 && OnGrid(base, interval, slot)
    ensures OnGrid(base, interval, NextSlot(slot, interval, now))
  {
    var k: int :| slot == base + k * interval;
    var h := Hops(slot, interval, now);
    assert k * interval + h * interval == (k + h) * interval;
    assert NextSlot(slot, interval, now) == base + (k + h) * interval;
  }

  // ---- passes ----

  /** The scheduled part of a database_targets row; `next` is next_drill_at, and `eligible` says that target
      and account are live, the target is no sample and the plan has scheduled drills. */
  datatype Target = Target(account: nat, eligible: bool, cadence: Cadence, next: Option<int>)

  predicate IsDue(t: Target, now: int) { t.eligible && t.cadence != Off && t.next.Some? && t.next.value <= now }

  /** A target as one pass read it. */
  datatype Due = Due(target: nat, account: nat, interval: nat, slot: int)

  /** The idempotency key names the target and the slot's second. */
  datatype SlotKey = SlotKey(account: nat, target: nat, second: int)

  function Unix(t: int): int { t / 1_000_000 }

  function KeyOf(d: Due): SlotKey { SlotKey(d.account, d.target, Unix(d.slot)) }

  /** Where a pass stands with the first of its remaining targets. */
  datatype Point = Checking | Inserting | Enqueueing(drill: nat) | Advancing

  datatype Pass = Pass(todo: seq<Due>, at: Point)

  /** `drills` maps a drill to the key it was created under, `jobs` counts its provision jobs. */
  datatype State = State(
    targets: map<nat, Target>,
    keys: map<SlotKey, nat>,
    drills: map<nat, SlotKey>,
    jobs: multiset<nat>,
    passes: map<nat, Pass>)

  datatype Action =
    | StartPass(pid: nat, now: int, ids: seq<nat>)
    | Run(pid: nat, now: int, newId: nat, reached: bool, ack: bool)
    | Skip(pid: nat)
    | Reschedule(target: nat, eligible: bool, cadence: Cadence, next: Option<int>)
    | Crash(pid: nat)

  /** DueTargets, for the ids whose rows it could lock. */
  function DueTargets(targets: map<nat, Target>, now: int, ids: seq<nat>): seq<Due>
    decreases |ids|
  {
    if ids == [] then []
    else
      var id, rest := ids[0], DueTargets(targets, now, ids[1..]);
      if id in targets && IsDue(targets[id], now)
      then [Due(id, targets[id].account, CadenceInterval(targets[id].cadence), targets[id].next.value)] + rest
      else rest
  }

  function NextTarget(s: State, pid: nat, p: Pass): State
    requires p.todo != []
  {
    s.(passes := s.passes[pid := Pass(p.todo[1..], Checking)])
  }

  function Goto(s: State, pid: nat, p: Pass, at: Point): State {
    s.(passes := s.passes[pid := p.(at := at)])
  }

  /** The next statement of a pass.  Writes may be lost, or arrive with their acknowledgement lost. */
  function RunPass(s: State, pid: nat, p: Pass, now: int, newId: nat, reached: bool, ack: bool): State
    requires p.todo != []
  {
    var d := p.todo[0];
    match p.at
    case Checking =>
      if d.interval == 0 then NextTarget(s, pid, p)
      else Goto(s, pid, p, if KeyOf(d) in s.keys then Advancing else Inserting)
    case Inserting =>
      // drill and key commit together; the unique index on the key aborts a second insert
      if KeyOf(d) in s.keys || newId in s.drills || !(reached || ack) then NextTarget(s, pid, p)
      else
        var t := if ack then Goto(s, pid, p, Enqueueing(newId)) else NextTarget(s, pid, p);
        t.(keys := t.keys[KeyOf(d) := newId], drills := t.drills[newId := KeyOf(d)])
    case Enqueueing(drill) =>
      var t := if ack then Goto(s, pid, p, Advancing) else NextTarget(s, pid, p);
      if reached || ack then t.(jobs := t.jobs + multiset{drill}) else t
    case Advancing =>
      var t := NextTarget(s, pid, p);
      if (reached || ack) && d.target in t.targets && d.interval > 0
      then t.(targets := t.targets[d.target :=
                t.targets[d.target].(next := Some(NextSlot(d.slot, d.interval, now)))])
      else t
  }

  function Step(s: State, a: Action): State {
    match a
    case StartPass(pid, now, ids) =>
      s.(passes := s.passes[pid := Pass(DueTargets(s.targets, now, ids), Checking)])
    case Run(pid, now, newId, reached, ack) =>
      if pid in s.passes && s.passes[pid].todo != []
      then RunPass(s, pid, s.passes[pid], now, newId, reached, ack) else s
    case Skip(pid) =>
      // a cadence the plan no longer allows: the target is rescheduled and passed over
      if pid in s.passes && s.passes[pid].todo != [] then NextTarget(s, pid, s.passes[pid]) else s
    case Reschedule(id, eligible, cadence, next) =>
      if id in s.targets
      then s.(targets := s.targets[id := Target(s.targets[id].account, eligible, cadence, next)]) else s
    case Crash(pid) => s.(passes := s.passes - {pid})
  }

  function Exec(s: State, acts: seq<Action>): State { Fold(Step, s, acts) }

  function Fresh(targets: map<nat, Target>): State { State(targets, map[], map[], multiset{}, map[]) }

  // ---- at most once ----

  predicate PassOk(s: State, p: Pass) {
    && (p.at.Enqueueing? ==> p.todo != [] && p.at.drill in s.drills && s.jobs[p.at.drill] == 0)
    && forall i :: 0 <= i < |p.todo| ==>
         p.todo[i].target in s.targets && s.targets[p.todo[i].target].account == p.todo[i].account
  }

  /** No two passes are about to enqueue the same drill. */
  ghost predicate Exclusive(passes: map<nat, Pass>) {
    forall p, q :: p in passes && q in passes && p != q && passes[p].at.Enqueueing? ==> passes[q].at != passes[p].at
  }

  ghost predicate Inv(s: State) {
    && (forall d :: d in s.drills ==> s.drills[d] in s.keys && s.keys[s.drills[d]] == d)
    && (forall k :: k in s.keys ==>
          k.target in s.targets && s.targets[k.target].account == k.account && s.keys[k] in s.drills)
    && (forall d :: d in s.jobs ==> d in s.drills && s.jobs[d] == 1)
    && (forall p :: p in s.passes ==> PassOk(s, s.passes[p]))
    && Exclusive(s.passes)
  }

  /** A pass reads, of the rows it could lock, all that are due and no other, as their rows stand. */
  lemma {:induction false} DueTargetsExact(targets: map<nat, Target>, now: int, ids: seq<nat>)
    ensures forall i :: 0 <= i < |DueTargets(targets, now, ids)| ==>
              var d := DueTargets(targets, now, ids)[i];
              && d.target in ids && d.target in targets
              && targets[d.target].eligible && targets[d.target].cadence != Off && d.slot <= now
              && targets[d.target].account == d.account && targets[d.target].next == Some(d.slot)
              && d.interval == CadenceInterval(targets[d.target].cadence)
    ensures forall id :: id in ids && id in targets && targets[id].eligible && targets[id].cadence != Off
                         && targets[id].next.Some? && targets[id].next.value <= now ==>
              exists i :: 0 <= i < |DueTargets(targets, now, ids)| && DueTargets(targets, now, ids)[i].target == id
    decreases |ids|
  {
    if ids != [] {
      var due, rest := DueTargets(targets, now, ids), DueTargets(targets, now, ids[1..]);
      DueTargetsExact(targets, now, ids[1..]);
      forall id | id in ids && id in targets && IsDue(targets[id], now)
        ensures exists i :: 0 <= i < |due| && due[i].target == id
      {
        if id == ids[0] {
          assert due[0].target == id;
        } else {
          var i :| 0 <= i < |rest| && rest[i].target == id;
          assert due[i + |due| - |rest|].target == id;
        }
      }
    }
  }

  /** Moving a pass to a point where it enqueues nothing keeps the invariant. */
  lemma MovePass(s: State, pid: nat, p: Pass)
    requires Inv(s) && PassOk(s, p) && !p.at.Enqueueing?
    ensures Inv(s.(passes := s.passes[pid := p]))
  {
  }

  /** Creating a drill under a free key keeps the invariant. */
  lemma CreateInv(s: State, k: SlotKey, drill: nat)
    requires Inv(s) && k !in s.keys && drill !in s.drills
    requires k.target in s.targets && s.targets[k.target].account == k.account
    ensures var t := s.(keys := s.keys[k := drill], drills := s.drills[drill := k]);
            Inv(t) && t.jobs[drill] == 0
  {
    var t := s.(keys := s.keys[k := drill], drills := s.drills[drill := k]);
    forall q | q in t.passes ensures PassOk(t, t.passes[q]) { assert PassOk(s, s.passes[q]); }
  }

  lemma EnterEnqueue(s: State, pid: nat, p: Pass, drill: nat)
    requires Inv(s) && PassOk(s, p) && p.todo != [] && drill in s.drills && s.jobs[drill] == 0
    requires forall q :: q in s.passes ==> s.passes[q].at != Enqueueing(drill)
    ensures Inv(s.(passes := s.passes[pid := p.(at := Enqueueing(drill))]))
  {
  }

  lemma InsertInv(s: State, pid: nat, p: Pass, newId: nat, ack: bool)
    requires Inv(s) && PassOk(s, p) && p.todo != [] && p.at.Inserting?
    requires KeyOf(p.todo[0]) !in s.keys && newId !in s.drills
    ensures Inv(RunPass(s, pid, p, 0, newId, true, ack))
  {
    var k := KeyOf(p.todo[0]);
    CreateInv(s, k, newId);
    var t := s.(keys := s.keys[k := newId], drills := s.drills[newId := k]);
    forall q | q in s.passes ensures s.passes[q].at != Enqueueing(newId) { assert PassOk(s, s.passes[q]); }
    if ack {
      EnterEnqueue(t, pid, p, newId);
    } else {
      MovePass(t, pid, Pass(p.todo[1..], Checking));
    }
  }

  lemma EnqueueInv(s: State, pid: nat, reached: bool, ack: bool)
    requires Inv(s) && pid in s.passes && s.passes[pid].todo != [] && s.passes[pid].at.Enqueueing?
    ensures Inv(RunPass(s, pid, s.passes[pid], 0, 0, reached, ack))
  {
    var p := s.passes[pid];
    assert PassOk(s, p);
    var p' := if ack then p.(at := Advancing) else Pass(p.todo[1..], Checking);
    var moved := s.(passes := s.passes[pid := p']);
    MovePass(s, pid, p');
    if reached || ack {
      var t := moved.(jobs := moved.jobs + multiset{p.at.drill});
      forall q | q in t.passes ensures PassOk(t, t.passes[q]) {
        assert PassOk(moved, moved.passes[q]);
        if q != pid && t.passes[q].at.Enqueueing? { assert s.passes[q].at != p.at; }
      }
    }
  }

  /** Rewriting a target's schedule keeps the invariant. */
  lemma ScheduleInv(s: State, id: nat, t: Target)
    requires Inv(s) && id in s.targets && t.account == s.targets[id].account
    ensures Inv(s.(targets := s.targets[id := t]))
  {
    var s' := s.(targets := s.targets[id := t]);
    forall q | q in s'.passes ensures PassOk(s', s'.passes[q]) { assert PassOk(s, s.passes[q]); }
  }

  lemma AdvanceInv(s: State, pid: nat, p: Pass, now: int, reached: bool, ack: bool)
    requires Inv(s) && PassOk(s, p) && p.todo != [] && p.at.Advancing?
    ensures Inv(RunPass(s, pid, p, now, 0, reached, ack))
  {
    var d := p.todo[0];
    MovePass(s, pid, Pass(p.todo[1..], Checking));
    if (reached || ack) && d.target in s.targets && d.interval > 0 {
      var t := s.targets[d.target].(next := Some(NextSlot(d.slot, d.interval, now)));
      ScheduleInv(NextTarget(s, pid, p), d.target, t);
    }
  }

  lemma RunPassInv(s: State, pid: nat, now: int, newId: nat, reached: bool, ack: bool)
    requires Inv(s) && pid in s.passes && s.passes[pid].todo != []
    ensures Inv(RunPass(s, pid, s.passes[pid], now, newId, reached, ack))
  {
    var p := s.passes[pid];
    assert PassOk(s, p);
    match p.at {
      case Checking =>
        if p.todo[0].interval == 0 {
          MovePass(s, pid, Pass(p.todo[1..], Checking));
        } else {
          MovePass(s, pid, p.(at := if KeyOf(p.todo[0]) in s.keys then Advancing else Inserting));
        }
      case Inserting =>
        if KeyOf(p.todo[0]) in s.keys || newId in s.drills || !(reached || ack) {
          MovePass(s, pid, Pass(p.todo[1..], Checking));
        } else {
          InsertInv(s, pid, p, newId, ack);
        }
      case Enqueueing(drill) => EnqueueInv(s, pid, reached, ack);
      case Advancing => AdvanceInv(s, pid, p, now, reached, ack);
    }
  }

  lemma StepInv(s: State, a: Action)
    requires Inv(s)
    ensures Inv(Step(s, a))
  {
    match a
    case StartPass(pid, now, ids) =>
      DueTargetsExact(s.targets, now, ids);
      MovePass(s, pid, Pass(DueTargets(s.targets, now, ids), Checking));
    case Run(pid, now, newId, reached, ack) =>
      if pid in s.passes && s.passes[pid].todo != [] { RunPassInv(s, pid, now, newId, reached, ack); }
    case Skip(pid) =>
      if pid in s.passes && s.passes[pid].todo != [] {
        assert PassOk(s, s.passes[pid]);
        MovePass(s, pid, Pass(s.passes[pid].todo[1..], Checking));
      }
    case Reschedule(id, eligible, cadence, next) =>
      if id in s.targets { ScheduleInv(s, id, Target(s.targets[id].account, eligible, cadence, next)); }
    case Crash(pid) => DropPass(s, pid);
  }

  lemma DropPass(s: State, pid: nat)
    requires Inv(s)
    ensures Inv(s.(passes := s.passes - {pid}))
  {
    var s' := s.(passes := s.passes - {pid});
    forall q | q in s'.passes ensures PassOk(s', s'.passes[q]) { assert PassOk(s, s.passes[q]); }
  }

  lemma {:induction false} ExecInv(s: State, acts: seq<Action>)
    requires Inv(s)
    ensures Inv(Exec(s, acts))
    decreases |acts|
  {
    if acts != [] {
      StepInv(s, acts[0]);
      ExecInv(Step(s, acts[0]), acts[1..]);
    }
  }

  /** However passes overlap, crash, stall or rewind a schedule, and whatever is rescheduled meanwhile, a
      target's slot gets at most one drill and that drill at most one provision job. */
  lemma AtMostOneDrillPerSlot(targets: map<nat, Target>, acts: seq<Action>, d1: nat, d2: nat)
    requires var s := Exec(Fresh(targets), acts); d1 in s.drills && d2 in s.drills
    ensures var s := Exec(Fresh(targets), acts);
            && (s.drills[d1].target == s.drills[d2].target && s.drills[d1].second == s.drills[d2].second ==> d1 == d2)
            && s.jobs[d1] <= 1
  {
    ExecInv(Fresh(targets), acts);
    var s := Exec(Fresh(targets), acts);
    if s.drills[d1].target == s.drills[d2].target && s.drills[d1].second == s.drills[d2].second {
      assert s.drills[d1] == s.drills[d2];
    }
  }

  // ---- no drift ----

  predicate Untouched(acts: seq<Action>, id: nat) {
    forall i :: 0 <= i < |acts| ==> !(acts[i].Reschedule? && acts[i].target == id)
  }

  ghost predicate DueOnGrid(d: Due, id: nat, n: nat, base: int) {
    d.target == id ==> d.interval == n && OnGrid(base, n, d.slot)
  }

  ghost predicate TodoOnGrid(todo: seq<Due>, id: nat, n: nat, base: int) {
    forall i :: 0 <= i < |todo| ==> DueOnGrid(todo[i], id, n, base)
  }

  ghost predicate TargetOnGrid(targets: map<nat, Target>, id: nat, cadence: Cadence, base: int) {
    && id in targets && targets[id].cadence == cadence
    && targets[id].next.Some? && OnGrid(base, CadenceInterval(cadence), targets[id].next.value)
  }

  /** Every slot of the target, stored or held by a pass, is on the grid of its first slot. */
  ghost predicate GridInv(s: State, id: nat, cadence: Cadence, base: int) {
    && TargetOnGrid(s.targets, id, cadence, base)
    && forall p :: p in s.passes ==> TodoOnGrid(s.passes[p].todo, id, CadenceInterval(cadence), base)
  }

  /** Moving a pass on, with the rest of its targets, keeps every slot on the grid. */
  lemma MovePassGrid(s: State, pid: nat, p: Pass, id: nat, cadence: Cadence, base: int)
    requires GridInv(s, id, cadence, base) && TodoOnGrid(p.todo, id, CadenceInterval(cadence), base)
    ensures GridInv(s.(passes := s.passes[pid := p]), id, cadence, base)
  {
  }

  lemma RunPassGrid(s: State, pid: nat, p: Pass, now: int, newId: nat, reached: bool, ack: bool,
                    id: nat, cadence: Cadence, base: int)
    requires GridInv(s, id, cadence, base) && CadenceInterval(cadence) > 0
    requires p.todo != [] && TodoOnGrid(p.todo, id, CadenceInterval(cadence), base)
    ensures GridInv(RunPass(s, pid, p, now, newId, reached, ack), id, cadence, base)
  {
    var d := p.todo[0];
    assert TodoOnGrid(p.todo[1..], id, CadenceInterval(cadence), base) by {
      assert forall i :: 0 <= i < |p.todo[1..]| ==> p.todo[1..][i] == p.todo[i + 1];
    }
    MovePassGrid(s, pid, Pass(p.todo[1..], Checking), id, cadence, base);
    forall at ensures GridInv(Goto(s, pid, p, at), id, cadence, base) {
      MovePassGrid(s, pid, p.(at := at), id, cadence, base);
    }
    assert DueOnGrid(d, id, CadenceInterval(cadence), base);
    if d.target == id { NextOnGrid(base, d.interval, d.slot, now); }
  }

  lemma StepGrid(s: State, a: Action, id: nat, cadence: Cadence, base: int)
    requires GridInv(s, id, cadence, base) && CadenceInterval(cadence) > 0
    requires !(a.Reschedule? && a.target == id)
    ensures GridInv(Step(s, a), id, cadence, base)
  {
    match a
    case StartPass(pid, now, ids) =>
      DueTargetsExact(s.targets, now, ids);
      assert TodoOnGrid(DueTargets(s.targets, now, ids), id, CadenceInterval(cadence), base);
    case Run(pid, now, newId, reached, ack) =>
      if pid in s.passes && s.passes[pid].todo != [] {
        RunPassGrid(s, pid, s.passes[pid], now, newId, reached, ack, id, cadence, base);
      }
    case Skip(pid) =>
      if pid in s.passes && s.passes[pid].todo != [] {
        assert TodoOnGrid(s.passes[pid].todo[1..], id, CadenceInterval(cadence), base);
      }
    case _ =>
  }

  lemma {:induction false} ExecGrid(s: State, acts: seq<Action>, id: nat, cadence: Cadence, base: int)
    requires GridInv(s, id, cadence, base) && CadenceInterval(cadence) > 0 && Untouched(acts, id)
    ensures GridInv(Exec(s, acts), id, cadence, base)
    decreases |acts|
  {
    if acts != [] {
      StepGrid(s, acts[0], id, cadence, base);
      ExecGrid(Step(s, acts[0]), acts[1..], id, cadence, base);
    }
  }

  /** While its cadence is not edited, a target's next slot stays a whole number of intervals from the
      first one through every run of late, stale and overlapping passes. */
  lemma ScheduleNeverDrifts(targets: map<nat, Target>, acts: seq<Action>, id: nat)
    requires id in targets && targets[id].next.Some? && CadenceInterval(targets[id].cadence) > 0
    requires Untouched(acts, id)
    ensures var t := Exec(Fresh(targets), acts).targets;
            && id in t && t[id].next.Some?
            && (t[id].next.value - targets[id].next.value) % CadenceInterval(targets[id].cadence) == 0
  {
    var base, n := targets[id].next.value, CadenceInterval(targets[id].cadence);
    assert base == base + 0 * n;
    ExecGrid(Fresh(targets), acts, id, targets[id].cadence, base);
    var t := Exec(Fresh(targets), acts).targets;
    var k: int :| t[id].next.value == base + k * n;
    MultipleOf(k, n);
  }

  lemma MultipleOf(k: int, n: int)
    requires n > 0
    ensures (k * n) % n == 0
  {
    assert (k * n) / n == k && (k * n) % n == 0 by { DivMod(k * n, n, k); }
  }

  lemma DivMod(x: int, n: int, k: int)
    requires n > 0 && x == k * n
    ensures x % n == 0 && x / n == k
  {
    var q, r := x / n, x % n;
    assert x == q * n + r && 0 <= r < n;
    assert (k - q) * n == r && (q - k) * n == -r;
    if k > q { AtLeastOne(k - q, n); } else if q > k { AtLeastOne(q - k, n); }
  }

  // ---- one pass on its own ----

  datatype Write = Write(reached: bool, ack: bool) {
    predicate Arrives() { reached || ack }
  }

  /** What the surroundings decide for one target of a pass: the time, the id of a new drill, whether the
      plan allows the cadence and which it allows instead, and how each write goes. */
  datatype Turn = Turn(now: int, newId: nat, allowed: bool, fallback: Cadence,
                       create: Write, enqueue: Write, advance: Write, downshift: Write)

  const DONE: Write := Write(true, true)

  predicate Calm(t: Turn) { t.allowed && t.create == DONE && t.enqueue == DONE && t.advance == DONE }

  /** AdvanceTargetSchedule. */
  function Advanced(targets: map<nat, Target>, id: nat, next: int): map<nat, Target> {
    if id in targets then targets[id := targets[id].(next := Some(next))] else targets
  }

  /** SetTargetSchedule to what the plan allows; a plan that allows nothing turns the schedule off. */
  function Downshifted(targets: map<nat, Target>, d: Due, fallback: Cadence, now: int): map<nat, Target> {
    if d.target !in targets || targets[d.target].account != d.account then targets
    else
      var n := CadenceInterval(fallback);
      targets[d.target := targets[d.target].(cadence := if n == 0 then Off else fallback,
                                             next := if n == 0 then None else Some(now + n))]
  }

  function AdvancedBy(s: State, d: Due, t: Turn): State
    requires d.interval > 0
  {
    if t.advance.Arrives() then s.(targets := Advanced(s.targets, d.target, NextSlot(d.slot, d.interval, t.now))) else s
  }

  /** Firing one due target. */
  function Fired(s: State, d: Due, t: Turn): State {
    if d.interval == 0 then s
    else if !t.allowed then
      if t.downshift.Arrives() then s.(targets := Downshifted(s.targets, d, t.fallback, t.now)) else s
    else if KeyOf(d) in s.keys then AdvancedBy(s, d, t)
    else if t.newId in s.drills || !t.create.Arrives() then s
    else
      var s1 := s.(keys := s.keys[KeyOf(d) := t.newId], drills := s.drills[t.newId := KeyOf(d)]);
      if !t.create.ack then s1
      else
        var s2 := if t.enqueue.Arrives() then s1.(jobs := s1.jobs + multiset{t.newId}) else s1;
        if t.enqueue.ack then AdvancedBy(s2, d, t) else s2
  }

  /** What a pass leaves behind: every due target fired in turn. */
  function FiredAll(s: State, due: seq<Due>, turns: seq<Turn>): State
    requires |turns| == |due|
    decreases |due|
  {
    if due == [] then s else FiredAll(Fired(s, due[0], turns[0]), due[1..], turns[1..])
  }

  predicate Ahead(targets: map<nat, Target>, id: nat, now: int) {
    id in targets && targets[id].next.Some? && targets[id].next.value > now
  }

  /** The slot has its drill, and the drill its one provision job. */
  predicate HasDrill(s: State, k: SlotKey, drill: nat) {
    k in s.keys && s.keys[k] == drill && drill in s.drills && s.drills[drill] == k && s.jobs[drill] == 1
  }

  predicate JobsOfDrills(s: State) { forall x :: x in s.jobs ==> x in s.drills }

  lemma FiredEffect(s: State, d: Due, t: Turn, now: int)
    requires d.interval > 0 && d.target in s.targets && Calm(t) && t.newId !in s.drills && now <= t.now
    requires JobsOfDrills(s)
    ensures var u := Fired(s, d, t);
            && KeyOf(d) in u.keys && u.targets.Keys == s.targets.Keys && JobsOfDrills(u)
            && u.drills.Keys <= s.drills.Keys + {t.newId}
            && (KeyOf(d) !in s.keys ==> HasDrill(u, KeyOf(d), t.newId))
            && Ahead(u.targets, d.target, now)
            && forall id :: Ahead(s.targets, id, now) ==> Ahead(u.targets, id, now)
  {
    NextSlotLeast(d.slot, d.interval, t.now, 1);
  }

  /** Firing a target changes no other key, drill or count. */
  lemma FiredKeeps(s: State, d: Due, t: Turn)
    requires t.newId !in s.drills
    ensures var u := Fired(s, d, t);
            && (forall k :: k in s.keys ==> k in u.keys && u.keys[k] == s.keys[k])
            && (forall k :: k in u.keys && k !in s.keys ==> u.keys[k] == t.newId)
            && (forall x :: x != t.newId ==> (x in u.drills <==> x in s.drills) && u.jobs[x] == s.jobs[x])
            && (forall k, x :: HasDrill(s, k, x) ==> HasDrill(u, k, x))
  {
  }

  predicate Distinct(turns: seq<Turn>) {
    forall i, j :: 0 <= i < j < |turns| ==> turns[i].newId != turns[j].newId
  }

  function NewIds(turns: seq<Turn>): set<nat> { set i | 0 <= i < |turns| :: turns[i].newId }

  /** The turns of a pass in which every write succeeds, with new ids for its drills. */
  predicate CalmTurns(s: State, due: seq<Due>, turns: seq<Turn>, now: int) {
    && |turns| == |due| && Distinct(turns) && JobsOfDrills(s)
    && (forall i :: 0 <= i < |due| ==> due[i].interval > 0 && due[i].target in s.targets)
    && (forall i :: 0 <= i < |turns| ==> Calm(turns[i]) && turns[i].newId !in s.drills && now <= turns[i].now)
  }

  lemma CalmRest(s: State, due: seq<Due>, turns: seq<Turn>, now: int)
    requires due != [] && CalmTurns(s, due, turns, now)
    ensures CalmTurns(Fired(s, due[0], turns[0]), due[1..], turns[1..], now)
  {
    FiredEffect(s, due[0], turns[0], now);
  }

  /** After such a pass every due target has its slot's drill and a slot after the start of the pass. */
  lemma {:induction false} FiredAllDone(s: State, due: seq<Due>, turns: seq<Turn>, now: int)
    requires CalmTurns(s, due, turns, now)
    ensures var u := FiredAll(s, due, turns);
            && (forall id :: Ahead(s.targets, id, now) ==> Ahead(u.targets, id, now))
            && (forall i :: 0 <= i < |due| ==> KeyOf(due[i]) in u.keys && Ahead(u.targets, due[i].target, now))
            && (forall k :: k in s.keys ==> k in u.keys && u.keys[k] == s.keys[k])
    decreases |due|
  {
    if due != [] {
      FiredEffect(s, due[0], turns[0], now);
      FiredKeeps(s, due[0], turns[0]);
      CalmRest(s, due, turns, now);
      FiredAllDone(Fired(s, due[0], turns[0]), due[1..], turns[1..], now);
      assert forall i :: 1 <= i < |due| ==> due[i] == due[1..][i - 1];
    }
  }

  /** No drill's jobs change but those of the new drills, and a drill with its job keeps it. */
  lemma {:induction false} FiredAllJobs(s: State, due: seq<Due>, turns: seq<Turn>, now: int)
    requires CalmTurns(s, due, turns, now)
    ensures var u := FiredAll(s, due, turns);
            && (forall x :: x !in NewIds(turns) ==> (x in u.drills <==> x in s.drills) && u.jobs[x] == s.jobs[x])
            && (forall k, x :: HasDrill(s, k, x) ==> HasDrill(u, k, x))
    decreases |due|
  {
    if due != [] {
      FiredKeeps(s, due[0], turns[0]);
      CalmRest(s, due, turns, now);
      FiredAllJobs(Fired(s, due[0], turns[0]), due[1..], turns[1..], now);
      NewIdsRest(turns);
    }
  }

  /** The drill of a slot that had none is new and has exactly one provision job. */
  lemma {:induction false} FiredAllEnqueued(s: State, due: seq<Due>, turns: seq<Turn>, now: int)
    requires CalmTurns(s, due, turns, now)
    ensures var u := FiredAll(s, due, turns);
            forall i :: 0 <= i < |due| && KeyOf(due[i]) !in s.keys ==>
              && KeyOf(due[i]) in u.keys
              && HasDrill(u, KeyOf(due[i]), u.keys[KeyOf(due[i])]) && u.keys[KeyOf(due[i])] !in s.drills
    decreases |due|
  {
    if due != [] {
      var t := Fired(s, due[0], turns[0]);
      FiredEffect(s, due[0], turns[0], now);
      FiredKeeps(s, due[0], turns[0]);
      CalmRest(s, due, turns, now);
      FiredAllEnqueued(t, due[1..], turns[1..], now);
      FiredAllDone(t, due[1..], turns[1..], now);
      FiredAllJobs(t, due[1..], turns[1..], now);
      assert forall i :: 1 <= i < |due| ==> due[i] == due[1..][i - 1];
      FiredAllKeys(s, due, turns, t, FiredAll(s, due, turns));
    }
  }

  lemma NewIdsRest(turns: seq<Turn>)
    requires turns != []
    ensures NewIds(turns) == {turns[0].newId} + NewIds(turns[1..])
  {
    assert forall i :: 1 <= i < |turns| ==> turns[i] == turns[1..][i - 1];
  }

  /** The free keys of a pass, from those of its rest. */
  lemma FiredAllKeys(s: State, due: seq<Due>, turns: seq<Turn>, t: State, u: State)
    requires due != [] && |turns| == |due| && t == Fired(s, due[0], turns[0]) && turns[0].newId !in s.drills
    requires KeyOf(due[0]) !in s.keys ==> HasDrill(t, KeyOf(due[0]), turns[0].newId)
    requires forall k, x :: HasDrill(t, k, x) ==> HasDrill(u, k, x)
    requires forall x :: x in s.drills ==> x in t.drills
    requires forall k :: k in t.keys ==> k in u.keys && u.keys[k] == t.keys[k]
    requires forall k :: k in t.keys && k !in s.keys ==> k == KeyOf(due[0])
    requires forall i :: 1 <= i < |due| && KeyOf(due[i]) !in t.keys ==>
               KeyOf(due[i]) in u.keys && HasDrill(u, KeyOf(due[i]), u.keys[KeyOf(due[i])]) && u.keys[KeyOf(due[i])] !in t.drills
    ensures forall i :: 0 <= i < |due| && KeyOf(due[i]) !in s.keys ==>
              && KeyOf(due[i]) in u.keys
              && HasDrill(u, KeyOf(due[i]), u.keys[KeyOf(due[i])]) && u.keys[KeyOf(due[i])] !in s.drills
  {
    forall i | 0 <= i < |due| && KeyOf(due[i]) !in s.keys
      ensures KeyOf(due[i]) in u.keys && HasDrill(u, KeyOf(due[i]), u.keys[KeyOf(due[i])]) && u.keys[KeyOf(due[i])] !in s.drills
    {
      if KeyOf(due[i]) in t.keys { assert HasDrill(u, KeyOf(due[0]), turns[0].newId); }
    }
  }

  /** Slots of one target have one key exactly if they lie in the same second. */
  lemma SlotKeysExactly(d: Due, e: Due)
    requires d.target == e.target && d.account == e.account
    ensures KeyOf(d) == KeyOf(e) <==> d.slot / 1_000_000 == e.slot / 1_000_000
    ensures d.slot - e.slot >= 1_000_000 || e.slot - d.slot >= 1_000_000 ==> KeyOf(d) != KeyOf(e)
  {
  }

  /** Two slots of a target at least one second apart, fired with every write succeeding, get two drills with
      a provision job each. */
  lemma SlotsApartGetTwoDrills(s: State, d: Due, e: Due, t: Turn, u: Turn)
    requires d.target == e.target && d.account == e.account && e.slot - d.slot >= 1_000_000
    requires d.interval > 0 && e.interval > 0 && d.target in s.targets && JobsOfDrills(s)
    requires KeyOf(d) !in s.keys && KeyOf(e) !in s.keys && Calm(t) && Calm(u)
    requires t.newId !in s.drills && u.newId !in s.drills && t.newId != u.newId
    ensures var r := Fired(Fired(s, d, t), e, u);
            HasDrill(r, KeyOf(d), t.newId) && HasDrill(r, KeyOf(e), u.newId)
  {
    SlotKeysExactly(d, e);
    FiredEffect(s, d, t, t.now);
    FiredKeeps(s, d, t);
    FiredEffect(Fired(s, d, t), e, u, u.now);
    FiredKeeps(Fired(s, d, t), e, u);
  }

  // ---- a pass is a run of the machine ----

  /** An action of the pass itself; only targets whose cadence the plan refuses are rescheduled or skipped. */
  predicate OwnAction(a: Action, pid: nat, refused: set<nat>) {
    match a
    case Run(p, _, _, _, _) => p == pid
    case Skip(p) => p == pid && refused != {}
    case Reschedule(id, _, _, _) => id in refused
    case _ => false
  }

  predicate Own(acts: seq<Action>, pid: nat, refused: set<nat>) {
    forall i :: 0 <= i < |acts| ==> OwnAction(acts[i], pid, refused)
  }

  ghost predicate Leads(s: State, t: State, pid: nat, refused: set<nat>) {
    exists acts :: Exec(s, acts) == t && Own(acts, pid, refused)
  }

  lemma LeadsTrans(s: State, t: State, u: State, pid: nat, refused: set<nat>)
    requires Leads(s, t, pid, refused) && Leads(t, u, pid, refused)
    ensures Leads(s, u, pid, refused)
  {
    var acts :| Exec(s, acts) == t && Own(acts, pid, refused);
    var more :| Exec(t, more) == u && Own(more, pid, refused);
    FoldSplit(Step, s, acts, more);
    assert Exec(s, acts + more) == u && Own(acts + more, pid, refused);
  }

  lemma LeadsMore(s: State, t: State, pid: nat, refused: set<nat>, more: set<nat>)
    requires Leads(s, t, pid, refused) && refused <= more
    ensures Leads(s, t, pid, more)
  {
    var acts :| Exec(s, acts) == t && Own(acts, pid, refused);
    assert Own(acts, pid, more);
  }

  lemma StepLeads(s: State, a: Action, t: State, pid: nat, refused: set<nat>)
    requires Step(s, a) == t && OwnAction(a, pid, refused)
    ensures Leads(s, t, pid, refused)
  {
    FoldOne(Step, s, a);
    assert Exec(s, [a]) == t && Own([a], pid, refused);
  }

  function WithPass(s: State, pid: nat, p: Pass): State { s.(passes := s.passes[pid := p]) }

  lemma Replaced(s: State, pid: nat, p: Pass, q: Pass)
    ensures WithPass(WithPass(s, pid, p), pid, q) == WithPass(s, pid, q)
  {
    assert WithPass(WithPass(s, pid, p), pid, q).passes == WithPass(s, pid, q).passes;
  }

  /** One statement of a pass that takes `s` and `p` to `s'` and `p'`. */
  lemma RunLeads(s: State, pid: nat, p: Pass, now: int, newId: nat, w: Write, s': State, p': Pass)
    requires p.todo != []
    requires RunPass(WithPass(s, pid, p), pid, p, now, newId, w.reached, w.ack) == WithPass(s', pid, p')
    ensures Leads(WithPass(s, pid, p), WithPass(s', pid, p'), pid, {})
  {
    StepLeads(WithPass(s, pid, p), Run(pid, now, newId, w.reached, w.ack), WithPass(s', pid, p'), pid, {});
  }

  /** The points a pass goes through with the first of its targets. */
  function Begin(due: seq<Due>): Pass { Pass(due, Checking) }

  function End(due: seq<Due>): Pass
    requires due != []
  {
    Pass(due[1..], Checking)
  }

  lemma CheckLeads(s: State, pid: nat, due: seq<Due>)
    requires due != []
    ensures Leads(WithPass(s, pid, Begin(due)),
                  WithPass(s, pid, if due[0].interval == 0 then End(due)
                                   else Pass(due, if KeyOf(due[0]) in s.keys then Advancing else Inserting)), pid, {})
  {
    var p := if due[0].interval == 0 then End(due)
             else Pass(due, if KeyOf(due[0]) in s.keys then Advancing else Inserting);
    Replaced(s, pid, Begin(due), p);
    RunLeads(s, pid, Begin(due), 0, 0, DONE, s, p);
  }

  lemma AdvanceLeads(s: State, pid: nat, due: seq<Due>, t: Turn)
    requires due != [] && due[0].interval > 0
    ensures Leads(WithPass(s, pid, Pass(due, Advancing)), WithPass(AdvancedBy(s, due[0], t), pid, End(due)), pid, {})
  {
    Replaced(s, pid, Pass(due, Advancing), End(due));
    RunLeads(s, pid, Pass(due, Advancing), t.now, 0, t.advance, AdvancedBy(s, due[0], t), End(due));
  }

  lemma EnqueueLeads(s: State, pid: nat, due: seq<Due>, t: Turn)
    requires due != [] && due[0].interval > 0
    ensures var s2 := if t.enqueue.Arrives() then s.(jobs := s.jobs + multiset{t.newId}) else s;
            Leads(WithPass(s, pid, Pass(due, Enqueueing(t.newId))),
                  WithPass(if t.enqueue.ack then AdvancedBy(s2, due[0], t) else s2, pid, End(due)), pid, {})
  {
    var s2 := if t.enqueue.Arrives() then s.(jobs := s.jobs + multiset{t.newId}) else s;
    var p := if t.enqueue.ack then Pass(due, Advancing) else End(due);
    Replaced(s, pid, Pass(due, Enqueueing(t.newId)), p);
    RunLeads(s, pid, Pass(due, Enqueueing(t.newId)), 0, 0, t.enqueue, s2, p);
    if t.enqueue.ack {
      AdvanceLeads(s2, pid, due, t);
      LeadsTrans(WithPass(s, pid, Pass(due, Enqueueing(t.newId))), WithPass(s2, pid, p),
                 WithPass(AdvancedBy(s2, due[0], t), pid, End(due)), pid, {});
    }
  }

  lemma CreateLeads(s: State, pid: nat, due: seq<Due>, t: Turn)
    requires due != [] && KeyOf(due[0]) !in s.keys && t.newId !in s.drills && t.create.Arrives()
    ensures var s1 := s.(keys := s.keys[KeyOf(due[0]) := t.newId], drills := s.drills[t.newId := KeyOf(due[0])]);
            Leads(WithPass(s, pid, Pass(due, Inserting)),
                  WithPass(s1, pid, if t.create.ack then Pass(due, Enqueueing(t.newId)) else End(due)), pid, {})
  {
    var s1 := s.(keys := s.keys[KeyOf(due[0]) := t.newId], drills := s.drills[t.newId := KeyOf(due[0])]);
    var p := if t.create.ack then Pass(due, Enqueueing(t.newId)) else End(due);
    Replaced(s, pid, Pass(due, Inserting), p);
    RunLeads(s, pid, Pass(due, Inserting), 0, t.newId, t.create, s1, p);
  }

  lemma InsertLeads(s: State, pid: nat, due: seq<Due>, t: Turn)
    requires due != [] && due[0].interval > 0 && KeyOf(due[0]) !in s.keys && t.allowed
    ensures Leads(WithPass(s, pid, Pass(due, Inserting)), WithPass(Fired(s, due[0], t), pid, End(due)), pid, {})
  {
    if t.newId in s.drills || !t.create.Arrives() {
      Replaced(s, pid, Pass(due, Inserting), End(due));
      RunLeads(s, pid, Pass(due, Inserting), 0, t.newId, t.create, s, End(due));
    } else {
      CreateLeads(s, pid, due, t);
      if t.create.ack {
        var s1 := s.(keys := s.keys[KeyOf(due[0]) := t.newId], drills := s.drills[t.newId := KeyOf(due[0])]);
        EnqueueLeads(s1, pid, due, t);
        LeadsTrans(WithPass(s, pid, Pass(due, Inserting)), WithPass(s1, pid, Pass(due, Enqueueing(t.newId))),
                   WithPass(Fired(s, due[0], t), pid, End(due)), pid, {});
      }
    }
  }

  lemma SkipLeads(s: State, pid: nat, due: seq<Due>, t: Turn)
    requires due != [] && due[0].interval > 0 && !t.allowed
    ensures Leads(WithPass(s, pid, Begin(due)), WithPass(Fired(s, due[0], t), pid, End(due)), pid, {due[0].target})
  {
    var d, s1 := due[0], Fired(s, due[0], t);
    var start, mid := WithPass(s, pid, Begin(due)), WithPass(s1, pid, Begin(due));
    if s1 == s {
      assert Exec(start, []) == mid && Own([], pid, {due[0].target});
    } else {
      var r := s1.targets[d.target];
      StepLeads(start, Reschedule(d.target, r.eligible, r.cadence, r.next), mid, pid, {due[0].target});
    }
    Replaced(s1, pid, Begin(due), End(due));
    StepLeads(mid, Skip(pid), WithPass(s1, pid, End(due)), pid, {due[0].target});
    LeadsTrans(start, mid, WithPass(s1, pid, End(due)), pid, {due[0].target});
  }

  /** The target, if the plan refuses its cadence. */
  function RefusedBy(d: Due, t: Turn): set<nat> { if d.interval > 0 && !t.allowed then {d.target} else {} }

  function Refused(due: seq<Due>, turns: seq<Turn>): set<nat>
    requires |turns| == |due|
    decreases |due|
  {
    if due == [] then {} else RefusedBy(due[0], turns[0]) + Refused(due[1..], turns[1..])
  }

  lemma FiredIsRun(s: State, pid: nat, due: seq<Due>, t: Turn)
    requires due != []
    ensures Leads(WithPass(s, pid, Begin(due)), WithPass(Fired(s, due[0], t), pid, End(due)), pid, RefusedBy(due[0], t))
  {
    CheckLeads(s, pid, due);
    if due[0].interval > 0 {
      var start, end := WithPass(s, pid, Begin(due)), WithPass(Fired(s, due[0], t), pid, End(due));
      if !t.allowed {
        SkipLeads(s, pid, due, t);
      } else if KeyOf(due[0]) in s.keys {
        AdvanceLeads(s, pid, due, t);
        LeadsTrans(start, WithPass(s, pid, Pass(due, Advancing)), end, pid, RefusedBy(due[0], t));
      } else {
        InsertLeads(s, pid, due, t);
        LeadsTrans(start, WithPass(s, pid, Pass(due, Inserting)), end, pid, RefusedBy(due[0], t));
      }
    }
  }

  /** Whatever a pass on its own does, with any writes lost and any cadence refused, the machine does by the
      statements of that pass alone; no target is rescheduled or passed over but those the plan refuses. */
  lemma {:induction false} PassIsRun(s: State, pid: nat, due: seq<Due>, turns: seq<Turn>)
    requires |turns| == |due|
    ensures Leads(WithPass(s, pid, Begin(due)), WithPass(FiredAll(s, due, turns), pid, Begin([])), pid, Refused(due, turns))
    decreases |due|
  {
    if due == [] {
      assert Exec(WithPass(s, pid, Begin(due)), []) == WithPass(s, pid, Begin([])) && Own([], pid, {});
    } else {
      var t, refused := Fired(s, due[0], turns[0]), Refused(due, turns);
      FiredIsRun(s, pid, due, turns[0]);
      PassIsRun(t, pid, due[1..], turns[1..]);
      LeadsMore(WithPass(s, pid, Begin(due)), WithPass(t, pid, End(due)), pid, RefusedBy(due[0], turns[0]), refused);
      LeadsMore(WithPass(t, pid, End(due)), WithPass(FiredAll(s, due, turns), pid, Begin([])), pid,
                Refused(due[1..], turns[1..]), refused);
      LeadsTrans(WithPass(s, pid, Begin(due)), WithPass(t, pid, End(due)),
                 WithPass(FiredAll(s, due, turns), pid, Begin([])), pid, Refused(due, turns));
    }
  }

  /** So a pass keeps the invariant behind at-most-once. */
  lemma PassKeepsInv(s: State, due: seq<Due>, turns: seq<Turn>)
    requires s.passes == map[] && Inv(s) && PassOk(s, Begin(due)) && |turns| == |due|
    ensures Inv(FiredAll(s, due, turns))
  {
    var pid: nat := 0;
    var u := FiredAll(s, due, turns);
    var start, end := WithPass(s, pid, Begin(due)), WithPass(u, pid, Begin([]));
    PassIsRun(s, pid, due, turns);
    var acts :| Exec(start, acts) == end && Own(acts, pid, Refused(due, turns));
    MovePass(s, pid, Begin(due));
    ExecInv(start, acts);
    FiredAllPasses(s, due, turns);
    WithoutPass(u, pid, Begin([]));
  }

  lemma WithoutPass(u: State, pid: nat, p: Pass)
    requires u.passes == map[] && Inv(WithPass(u, pid, p))
    ensures Inv(u)
  {
    DropPass(WithPass(u, pid, p), pid);
    assert WithPass(u, pid, p).passes - {pid} == u.passes;
  }

  /** And it keeps every schedule on its grid, except those it downshifts. */
  lemma PassNeverDrifts(s: State, now: int, ids: seq<nat>, turns: seq<Turn>, id: nat, cadence: Cadence, base: int)
    requires s.passes == map[] && |turns| == |DueTargets(s.targets, now, ids)|
    requires TargetOnGrid(s.targets, id, cadence, base) && CadenceInterval(cadence) > 0
    requires id !in Refused(DueTargets(s.targets, now, ids), turns)
    ensures TargetOnGrid(FiredAll(s, DueTargets(s.targets, now, ids), turns).targets, id, cadence, base)
  {
    var due := DueTargets(s.targets, now, ids);
    DueTargetsExact(s.targets, now, ids);
    assert TodoOnGrid(due, id, CadenceInterval(cadence), base);
    PassOnGrid(s, due, turns, id, cadence, base);
  }

  lemma PassOnGrid(s: State, due: seq<Due>, turns: seq<Turn>, id: nat, cadence: Cadence, base: int)
    requires s.passes == map[] && |turns| == |due| && id !in Refused(due, turns)
    requires TargetOnGrid(s.targets, id, cadence, base) && CadenceInterval(cadence) > 0
    requires TodoOnGrid(due, id, CadenceInterval(cadence), base)
    ensures TargetOnGrid(FiredAll(s, due, turns).targets, id, cadence, base)
  {
    var pid: nat := 0;
    var start, end := WithPass(s, pid, Begin(due)), WithPass(FiredAll(s, due, turns), pid, Begin([]));
    PassIsRun(s, pid, due, turns);
    var acts :| Exec(start, acts) == end && Own(acts, pid, Refused(due, turns));
    assert Untouched(acts, id);
    ExecGrid(start, acts, id, cadence, base);
  }

  lemma {:induction false} FiredAllPasses(s: State, due: seq<Due>, turns: seq<Turn>)
    requires |turns| == |due|
    ensures FiredAll(s, due, turns).passes == s.passes
    decreases |due|
  {
    if due != [] { FiredAllPasses(Fired(s, due[0], turns[0]), due[1..], turns[1..]); }
  }

  datatype Created = Reused(drill: nat) | New(drill: nat) | CreateError

  class Store {
    var targets: map<nat, Target>
    var keys: map<SlotKey, nat>
    var drills: map<nat, SlotKey>
    var jobs: multiset<nat>

    constructor (targets: map<nat, Target>)
      ensures this.targets == targets && keys == map[] && drills == map[] && jobs == multiset{}
    {
      this.targets, keys, drills, jobs := targets, map[], map[], multiset{};
    }

    ghost function Value(): State
      reads this
    {
      State(targets, keys, drills, jobs, map[])
    }

    /** Creates a drill under the key unless the key is taken; drill and key commit together or not at all,
        and an error may hide a commit. */
    method CreateDrillIdempotent(k: SlotKey, newId: nat, w: Write) returns (r: Created)
      modifies this`keys, this`drills
      ensures k in old(keys) ==> r == Reused(old(keys)[k]) && keys == old(keys) && drills == old(drills)
      ensures k !in old(keys) ==> !r.Reused? && (r.New? ==> r.drill == newId && k in keys)
      ensures k !in old(keys) && newId !in old(drills) && w.Arrives() ==>
                keys == old(keys)[k := newId] && drills == old(drills)[newId := k] && (r.New? <==> w.ack)
      ensures k !in old(keys) && (newId in old(drills) || !w.Arrives()) ==>
                keys == old(keys) && drills == old(drills) && r == CreateError
    {
      if k in keys { return Reused(keys[k]); }
      if newId in drills || !w.Arrives() { return CreateError; }
      keys, drills := keys[k := newId], drills[newId := k];
      r := if w.ack then New(newId) else CreateError;
    }

    /** A pass over the due targets. */
    method Work(due: seq<Due>, turns: seq<Turn>)
      requires |turns| == |due|
      modifies this
      ensures Value() == FiredAll(old(Value()), due, turns)
    {
      for i := 0 to |due|
        invariant FiredAll(Value(), due[i..], turns[i..]) == FiredAll(old(Value()), due, turns)
      {
        assert due[i..][1..] == due[i + 1..] && turns[i..][1..] == turns[i + 1..];
        Fire(due[i], turns[i]);
      }
    }

    /** The body of the loop. */
    method Fire(d: Due, t: Turn)
      modifies this
      ensures Value() == Fired(old(Value()), d, t)
      ensures d.interval == 0 || !t.allowed ==> keys == old(keys) && drills == old(drills) && jobs == old(jobs)
      ensures d.interval > 0 && !t.allowed && t.downshift.Arrives() && d.target in old(targets)
              && old(targets)[d.target].account == d.account ==>
                var n := CadenceInterval(t.fallback);
                && targets == old(targets)[d.target := targets[d.target]]
                && targets[d.target].cadence == (if n == 0 then Off else t.fallback)
                && targets[d.target].next == (if n == 0 then None else Some(t.now + n))
      ensures var created := d.interval > 0 && t.allowed && KeyOf(d) !in old(keys) && t.newId !in old(drills)
                             && t.create.Arrives();
              && keys == (if created then old(keys)[KeyOf(d) := t.newId] else old(keys))
              && drills == (if created then old(drills)[t.newId := KeyOf(d)] else old(drills))
              && jobs == (if created && t.create.ack && t.enqueue.Arrives() then old(jobs) + multiset{t.newId} else old(jobs))
              && (d.interval > 0 && t.allowed && KeyOf(d) !in old(keys) && !(created && t.create.ack && t.enqueue.ack) ==>
                    targets == old(targets))
      ensures d.interval > 0 && t.allowed && t.advance.Arrives() && d.target in old(targets)
              && (KeyOf(d) in old(keys) || (t.newId !in old(drills) && t.create.ack && t.enqueue.ack)) ==>
                targets == old(targets)[d.target := old(targets)[d.target].(next := Some(NextSlot(d.slot, d.interval, t.now)))]
    {
      if d.interval == 0 { return; }
      if !t.allowed {
        if t.downshift.Arrives() { targets := Downshifted(targets, d, t.fallback, t.now); }
        return;
      }
      var r := CreateDrillIdempotent(KeyOf(d), t.newId, t.create);
      if r.CreateError? { return; }
      if r.New? {
        if t.enqueue.Arrives() { jobs := jobs + multiset{r.drill}; }
        if !t.enqueue.ack { return; }
      }
      var next := Advance(d.slot, d.interval, t.now);
      if t.advance.Arrives() { targets := Advanced(targets, d.target, next); }
    }
  }
}

/**
 Backup check-in monitors: pings, the overdue sweeper, pause and resume.  Times and durations are
 seconds; the database clock never goes back.
 */
module Heartbeat {
  import opened Wrappers
  import opened Runs

  datatype Status = New | Up | Down | Paused

  datatype Kind = Ping | StartPing | FailPing

  /** A row of heartbeats.  `deleted` is deleted_at IS NOT NULL. */
  datatype Monitor = Monitor(account: nat, period: nat, grace: nat, status: Status,
                             lastPingAt: Option<int>, expectedBy: Option<int>, deleted: bool)

  /** What the sweeper looks at in an account. */
  datatype AccountRow = AccountRow(deleted: bool, onTrial: bool, trialEndsAt: Option<int>)

  predicate Eligible(a: AccountRow, now: int) {
    !a.deleted && !(a.onTrial && a.trialEndsAt.Some? && a.trialEndsAt.value < now)
  }

  // ---- one row ----

  function Created(account: nat, period: nat, grace: nat, now: int): Monitor {
    Monitor(account, period, grace, New, None, Some(now + period), false)
  }

  function Pinged(m: Monitor, k: Kind, now: int): Monitor {
    match k
    case StartPing => m
    case FailPing => m.(status := Down, lastPingAt := Some(now))
    case Ping => m.(status := Up, lastPingAt := Some(now), expectedBy := Some(now + m.period))
  }

  predicate Overdue(m: Monitor, now: int) {
    m.expectedBy.Some? && m.status in {New, Up} && m.expectedBy.value + m.grace < now
  }

  /** The WHERE clause of MarkOverdueDown. */
  predicate Lapses(m: Monitor, eligible: bool, now: int) { !m.deleted && eligible && Overdue(m, now) }

  function Swept(m: Monitor, eligible: bool, now: int): Monitor {
    if Lapses(m, eligible, now) then m.(status := Down) else m
  }

  function PausedAt(m: Monitor): Monitor { m.(status := Paused, expectedBy := None) }

  function Resumed(m: Monitor, now: int): Monitor { m.(status := New, expectedBy := Some(now + m.period)) }

  // ---- histories of one monitor ----

  datatype Event =
    | Receive(at: int, kind: Kind)
    | Sweep(at: int, eligible: bool)
    | Pause(at: int)
    | Resume(at: int)

  /** The alert an event raises. */
  datatype Edge = NoEdge | UpEdge | DownEdge

  function After(m: Monitor, e: Event): Monitor {
    match e
    case Receive(now, k) => Pinged(m, k, now)
    case Sweep(now, ok) => Swept(m, ok, now)
    case Pause(_) => PausedAt(m)
    case Resume(now) => Resumed(m, now)
  }

  /** The sweeper alerts on every row it flips; the ping handler on every transition it reports. */
  function EdgeOf(m: Monitor, e: Event): Edge {
    match e
    case Receive(_, StartPing) => NoEdge
    case Receive(_, FailPing) => if m.status != Down then DownEdge else NoEdge
    case Receive(_, Ping) => if m.status != Up then UpEdge else NoEdge
    case Sweep(now, ok) => if Lapses(m, ok, now) then DownEdge else NoEdge
    case Pause(_) => NoEdge
    case Resume(_) => NoEdge
  }

  function AfterAll(m: Monitor, es: seq<Event>): Monitor { Fold(After, m, es) }

  function Edges(m: Monitor, es: seq<Event>): (r: seq<Edge>)
    ensures |r| == |es|
    decreases |es|
  {
    if es == [] then [] else [EdgeOf(m, es[0])] + Edges(After(m, es[0]), es[1..])
  }

  predicate Ordered(es: seq<Event>) { forall i, j :: 0 <= i < j < |es| ==> es[i].at <= es[j].at }

  /** A monitor that can lapse has a deadline. */
  predicate Armed(m: Monitor) { m.status in {New, Up} ==> m.expectedBy.Some? }

  /** Every history of a created monitor keeps it armed, so no active monitor escapes the sweeper. */
  lemma {:induction false} AlwaysArmed(m: Monitor, es: seq<Event>)
    requires Armed(m)
    ensures Armed(AfterAll(m, es))
    decreases |es|
  {
    if es != [] { AlwaysArmed(After(m, es[0]), es[1..]); }
  }

  /** The edge at an event, and the edges after it, depend on the state the earlier events left. */
  lemma {:induction false} EdgesAt(m: Monitor, es: seq<Event>, i: nat)
    requires i < |es|
    ensures Edges(m, es)[i] == EdgeOf(AfterAll(m, es[..i]), es[i])
    ensures Edges(m, es)[i + 1..] == Edges(After(AfterAll(m, es[..i]), es[i]), es[i + 1..])
    decreases i
  {
    if i > 0 {
      var m1, rest := After(m, es[0]), es[1..];
      EdgesAt(m1, rest, i - 1);
      assert es[..i][1..] == rest[..i - 1] && rest[i..] == es[i + 1..];
      assert Edges(m, es)[1..] == Edges(m1, rest);
      assert Edges(m, es)[i + 1..] == Edges(m, es)[1..][i..];
    } else {
      assert es[..0] == [];
    }
  }

  // ---- alerts alternate ----

  /** An event after which an edge of the same kind may be raised again. */
  predicate Resets(edge: Edge, same: Edge, e: Event) {
    e.Pause? || e.Resume? || (edge != NoEdge && edge != same)
  }

  /** From a monitor already down (up), no further down (up) edge comes before an opposite edge, a
      pause or a resume. */
  lemma {:induction false} NoRepeat(m: Monitor, es: seq<Event>, same: Edge)
    requires same == DownEdge ==> m.status == Down
    requires same == UpEdge ==> m.status == Up
    requires same != NoEdge
    ensures forall j :: 0 <= j < |es| && Edges(m, es)[j] == same ==>
              exists i :: 0 <= i < j && Resets(Edges(m, es)[i], same, es[i])
    decreases |es|
  {
    if es != [] {
      var rest := Edges(After(m, es[0]), es[1..]);
      assert Edges(m, es)[1..] == rest;
      forall j | 0 <= j < |es| && Edges(m, es)[j] == same
        ensures exists i :: 0 <= i < j && Resets(Edges(m, es)[i], same, es[i])
      {
        if Resets(EdgeOf(m, es[0]), same, es[0]) {
          assert Resets(Edges(m, es)[0], same, es[0]);
        } else {
          NoRepeat(After(m, es[0]), es[1..], same);
          var i :| 0 <= i < j - 1 && Resets(rest[i], same, es[1..][i]);
          assert Resets(Edges(m, es)[i + 1], same, es[i + 1]);
        }
      }
    }
  }

  /** Between two alerts of one kind there is an alert of the other kind, a pause or a resume, however
      many sweepers overlap: one outage is never alerted twice. */
  lemma AlertsAlternate(m: Monitor, es: seq<Event>, i: nat, j: nat)
    requires i < j < |es|
    requires Edges(m, es)[i] == Edges(m, es)[j] && Edges(m, es)[i] != NoEdge
    ensures exists k :: i < k < j && Resets(Edges(m, es)[k], Edges(m, es)[i], es[k])
  {
    var same := Edges(m, es)[i];
    EdgesAt(m, es, i);
    var next, ys := After(AfterAll(m, es[..i]), es[i]), es[i + 1..];
    NoRepeat(next, ys, same);
    assert Edges(m, es)[j] == Edges(next, ys)[j - i - 1];
    var k :| 0 <= k < j - i - 1 && Resets(Edges(next, ys)[k], same, ys[k]);
    assert Edges(m, es)[i + 1 + k] == Edges(next, ys)[k] && es[i + 1 + k] == ys[k];
  }

  // ---- statuses ----

  predicate Succeeds(e: Event) { e.Receive? && e.kind == Ping }

  predicate Fails(e: Event) { e.Receive? && e.kind == FailPing }

  /** A success ping leaves a monitor up and alerts exactly if it was not; a fail ping leaves it down and
      alerts exactly if it was not; a start ping changes nothing; pauses and resumes never alert. */
  lemma PingsDecide(m: Monitor, es: seq<Event>, i: nat)
    requires i < |es|
    ensures var before, after := AfterAll(m, es[..i]), AfterAll(m, es[..i + 1]);
            var edge := Edges(m, es)[i];
            && (Succeeds(es[i]) ==> after.status == Up && edge == (if before.status == Up then NoEdge else UpEdge))
            && (Fails(es[i]) ==> after.status == Down && edge == (if before.status == Down then NoEdge else DownEdge))
            && (es[i].Receive? && es[i].kind == StartPing ==> after == before && edge == NoEdge)
            && (es[i].Pause? ==> after.status == Paused && edge == NoEdge)
            && (es[i].Resume? ==> after.status == New && edge == NoEdge)
            && (es[i].Sweep? ==> (after.status == Down <==> edge == DownEdge || before.status == Down))
            && (es[i].Sweep? && edge == NoEdge ==> after == before)
  {
    EdgesAt(m, es, i);
    FoldLast(After, m, es[..i + 1]);
    assert es[..i + 1][..i] == es[..i];
  }

  /** An event that takes a monitor down: a fail ping, or a sweep with a down alert. */
  predicate TakesDown(m: Monitor, es: seq<Event>, i: nat)
    requires i < |es|
  {
    Fails(es[i]) || (es[i].Sweep? && Edges(m, es)[i] == DownEdge)
  }

  /** None of the events from i to j brings the monitor out of being down. */
  predicate NoRelief(es: seq<Event>, i: nat, j: nat)
    requires j <= |es|
  {
    forall k :: i <= k < j ==> !Succeeds(es[k]) && !es[k].Pause? && !es[k].Resume?
  }

  /** Once taken down a monitor stays down until a success ping, a pause or a resume. */
  lemma {:induction false} StaysDownUntilRelief(m: Monitor, es: seq<Event>, i: nat, j: nat)
    requires i < j <= |es| && TakesDown(m, es, i) && NoRelief(es, i + 1, j)
    ensures AfterAll(m, es[..j]).status == Down
    decreases j
  {
    PingsDecide(m, es, j - 1);
    if j > i + 1 { StaysDownUntilRelief(m, es, i, j - 1); }
  }

  /** A monitor that was not down at first is down exactly if something took it down and nothing relieved it
      since. */
  lemma {:induction false} DownExactly(m: Monitor, es: seq<Event>, j: nat)
    requires m.status != Down && j <= |es|
    ensures AfterAll(m, es[..j]).status == Down <==> exists i :: 0 <= i < j && TakesDown(m, es, i) && NoRelief(es, i + 1, j)
    decreases j
  {
    if exists i :: 0 <= i < j && TakesDown(m, es, i) && NoRelief(es, i + 1, j) {
      var i :| 0 <= i < j && TakesDown(m, es, i) && NoRelief(es, i + 1, j);
      StaysDownUntilRelief(m, es, i, j);
    }
    if AfterAll(m, es[..j]).status == Down && j > 0 {
      PingsDecide(m, es, j - 1);
      if !TakesDown(m, es, j - 1) {
        DownExactly(m, es, j - 1);
        var i :| 0 <= i < j - 1 && TakesDown(m, es, i) && NoRelief(es, i + 1, j - 1);
        assert NoRelief(es, i + 1, j);
      }
    }
  }

  /** The time of the latest success or fail ping. */
  function LastPing(es: seq<Event>): Option<int>
    decreases |es|
  {
    if es == [] then None
    else
      var e := es[|es| - 1];
      if Succeeds(e) || Fails(e) then Some(e.at) else LastPing(es[..|es| - 1])
  }

  /** last_ping_at is that time, and a paused monitor has no deadline. */
  lemma {:induction false} PingTimesKept(account: nat, period: nat, grace: nat, created: int, es: seq<Event>)
    ensures var m := AfterAll(Created(account, period, grace, created), es);
            m.lastPingAt == LastPing(es) && (m.status == Paused ==> m.expectedBy.None?)
    decreases |es|
  {
    if es != [] {
      PingTimesKept(account, period, grace, created, es[..|es| - 1]);
      FoldLast(After, Created(account, period, grace, created), es);
    }
  }

  // ---- deadlines ----

  /** The event sets the deadline afresh. */
  predicate Arms(e: Event) { e.Resume? || (e.Receive? && e.kind == Ping) }

  /** The latest event that set the deadline, creation included. */
  function LastArm(created: int, es: seq<Event>): int
    decreases |es|
  {
    if es == [] then created
    else
      var e := es[|es| - 1];
      if Arms(e) then e.at else LastArm(created, es[..|es| - 1])
  }

  /** An active monitor's deadline is one period after it was last armed. */
  lemma {:induction false} DeadlineExact(account: nat, period: nat, grace: nat, created: int, es: seq<Event>)
    ensures var m := AfterAll(Created(account, period, grace, created), es);
            && m.period == period && m.grace == grace && !m.deleted
            && (m.status in {New, Up} ==> m.expectedBy == Some(LastArm(created, es) + period))
    decreases |es|
  {
    if es != [] {
      DeadlineExact(account, period, grace, created, es[..|es| - 1]);
      FoldLast(After, Created(account, period, grace, created), es);
    }
  }

  /** A sweep marks a monitor down exactly when it is active, its account eligible, and it was last
      armed more than period + grace ago. */
  lemma SweepDownsExactly(account: nat, period: nat, grace: nat, created: int, es: seq<Event>, i: nat)
    requires i < |es| && es[i].Sweep?
    ensures var m := Created(account, period, grace, created);
            Edges(m, es)[i] == DownEdge <==>
              && es[i].eligible && AfterAll(m, es[..i]).status in {New, Up}
              && es[i].at > LastArm(created, es[..i]) + period + grace
  {
    EdgesAt(Created(account, period, grace, created), es, i);
    DeadlineExact(account, period, grace, created, es[..i]);
  }

  /** Exactly when alerts go out: a down alert for a fail ping on a monitor not down, or for a sweep of an
      active monitor of an eligible account last armed more than period + grace ago; an up alert for a
      success ping on a monitor not up. */
  lemma AlertsExactly(account: nat, period: nat, grace: nat, created: int, es: seq<Event>, i: nat)
    requires i < |es|
    ensures var m := Created(account, period, grace, created);
            var before := AfterAll(m, es[..i]).status;
            && (Edges(m, es)[i] == DownEdge <==>
                  || (Fails(es[i]) && before != Down)
                  || (es[i].Sweep? && es[i].eligible && before in {New, Up}
                      && es[i].at > LastArm(created, es[..i]) + period + grace))
            && (Edges(m, es)[i] == UpEdge <==> Succeeds(es[i]) && before != Up)
  {
    EdgesAt(Created(account, period, grace, created), es, i);
    PingsDecide(Created(account, period, grace, created), es, i);
    if es[i].Sweep? { SweepDownsExactly(account, period, grace, created, es, i); }
  }

  /** Not paused since it was last armed. */
  predicate Watched(es: seq<Event>)
    decreases |es|
  {
    es == [] || (var e := es[|es| - 1]; Arms(e) || (!e.Pause? && Watched(es[..|es| - 1])))
  }

  lemma {:induction false} ActiveIsWatched(m: Monitor, es: seq<Event>)
    requires AfterAll(m, es).status in {New, Up}
    ensures Watched(es)
    decreases |es|
  {
    if es != [] {
      FoldLast(After, m, es);
      if !Arms(es[|es| - 1]) { ActiveIsWatched(m, es[..|es| - 1]); }
    }
  }

  /** While watched, success pings (creation and resume count as one) are at most `gap` apart, up to the
      pause that ends the watch or the end of the history. */
  predicate Punctual(created: int, es: seq<Event>, gap: nat) {
    && (forall k :: 0 <= k < |es| && (Arms(es[k]) || es[k].Pause?) && Watched(es[..k]) ==>
          es[k].at <= LastArm(created, es[..k]) + gap)
    && (es != [] && Watched(es) ==> es[|es| - 1].at <= LastArm(created, es) + gap)
  }

  /** Between event i and the next arming or pausing event k, the last arming stays the same one. */
  lemma {:induction false} PunctualAt(created: int, es: seq<Event>, gap: nat, i: nat, k: nat)
    requires Ordered(es) && Punctual(created, es, gap) && i <= k <= |es| && i < |es|
    requires Watched(es[..k]) && LastArm(created, es[..k]) == LastArm(created, es[..i])
    ensures es[i].at <= LastArm(created, es[..i]) + gap
    decreases |es| - k
  {
    if k == |es| {
      assert es[..k] == es;
    } else if !Arms(es[k]) && !es[k].Pause? {
      assert es[..k + 1][..k] == es[..k];
      PunctualAt(created, es, gap, i, k + 1);
    }
  }

  /** A monitor whose success pings are at most period + grace apart while it is not paused, and that
      never gets a fail ping, is never marked down. */
  lemma PunctualNeverDown(account: nat, period: nat, grace: nat, created: int, es: seq<Event>)
    requires Ordered(es) && Punctual(created, es, period + grace)
    requires forall i :: 0 <= i < |es| && es[i].Receive? ==> es[i].kind != FailPing
    ensures DownEdge !in Edges(Created(account, period, grace, created), es)
  {
    var m := Created(account, period, grace, created);
    forall i | 0 <= i < |es| ensures Edges(m, es)[i] != DownEdge {
      EdgesAt(m, es, i);
      if es[i].Sweep? && AfterAll(m, es[..i]).status in {New, Up} {
        ActiveIsWatched(m, es[..i]);
        PunctualAt(created, es, period + grace, i, i);
        SweepDownsExactly(account, period, grace, created, es, i);
      }
    }
  }

  // ---- silence is noticed ----

  predicate Silent(es: seq<Event>) {
    forall i :: 0 <= i < |es| ==> (es[i].Sweep? && es[i].eligible) || (es[i].Receive? && es[i].kind == StartPing)
  }

  lemma {:induction false} SilentRun(m: Monitor, es: seq<Event>, k: nat)
    requires Silent(es) && !m.deleted && k < |es| && es[k].Sweep?
    requires m.status == Down
             || (m.status in {New, Up} && m.expectedBy.Some? && m.expectedBy.value + m.grace < es[k].at)
    ensures AfterAll(m, es).status == Down
    decreases |es|
  {
    if k > 0 {
      SilentRun(After(m, es[0]), es[1..], k - 1);
    } else {
      StaysDown(After(m, es[0]), es[1..]);
    }
  }

  lemma {:induction false} StaysDown(m: Monitor, es: seq<Event>)
    requires Silent(es) && m.status == Down
    ensures AfterAll(m, es).status == Down
    decreases |es|
  {
    if es != [] { StaysDown(After(m, es[0]), es[1..]); }
  }

  /** Sweep times that start by x, end after x and are at most d apart include one in (x, x + d]. */
  lemma {:induction false} SweepInWindow(sweeps: seq<int>, d: nat, x: int) returns (k: nat)
    requires sweeps != [] && sweeps[0] <= x < sweeps[|sweeps| - 1]
    requires forall i :: 0 <= i < |sweeps| - 1 ==> sweeps[i + 1] - sweeps[i] <= d
    ensures k < |sweeps| && x < sweeps[k] <= x + d
    decreases |sweeps|
  {
    if sweeps[1] > x {
      k := 1;
    } else {
      k := SweepInWindow(sweeps[1..], d, x);
      k := k + 1;
    }
  }

  lemma {:induction false} LastArmBy(created: int, es: seq<Event>, t: int)
    requires created <= t && forall i :: 0 <= i < |es| ==> es[i].at <= t
    ensures LastArm(created, es) <= t
    decreases |es|
  {
    if es != [] { LastArmBy(created, es[..|es| - 1], t); }
  }

  /** After any history, if sweeps are at most d apart, an active monitor of an eligible account that
      hears nothing after t is down once the sweeps up to t + period + grace + d have run. */
  lemma SilenceIsNoticed(account: nat, period: nat, grace: nat, created: int,
                         past: seq<Event>, t: int, d: nat, es: seq<Event>, sweeps: seq<int>)
    requires created <= t && forall i :: 0 <= i < |past| ==> past[i].at <= t
    requires AfterAll(Created(account, period, grace, created), past).status in {New, Up}
    requires Silent(es)
    requires sweeps != [] && sweeps[0] <= t + period + grace < sweeps[|sweeps| - 1]
    requires forall i :: 0 <= i < |sweeps| - 1 ==> sweeps[i + 1] - sweeps[i] <= d
    requires forall i :: 0 <= i < |sweeps| && t < sweeps[i] <= t + period + grace + d ==> Sweep(sweeps[i], true) in es
    ensures AfterAll(Created(account, period, grace, created), past + es).status == Down
  {
    var m := AfterAll(Created(account, period, grace, created), past);
    FoldSplit(After, Created(account, period, grace, created), past, es);
    DeadlineExact(account, period, grace, created, past);
    LastArmBy(created, past, t);
    var k := SweepInWindow(sweeps, d, t + period + grace);
    var i :| 0 <= i < |es| && es[i] == Sweep(sweeps[k], true);
    SilentRun(m, es, i);
  }

  // ---- the store ----

  class Store {
    var rows: map<nat, Monitor>
    const accounts: map<nat, AccountRow>

    constructor (accounts: map<nat, AccountRow>)
      ensures rows == map[] && this.accounts == accounts
    {
      rows, this.accounts := map[], accounts;
    }

    /** The sweeper joins a monitor with its account. */
    predicate Sweepable(m: Monitor, now: int) {
      m.account in accounts && Eligible(accounts[m.account], now)
    }

    method Create(id: nat, account: nat, period: nat, grace: nat, now: int)
      requires id !in rows
      modifies this
      ensures rows == old(rows)[id := Created(account, period, grace, now)]
      ensures rows[id] == Monitor(account, period, grace, New, None, Some(now + period), false)
    {
      rows := rows[id := Monitor(account, period, grace, New, None, Some(now + period), false)];
    }

    /** Records a ping for the monitor a token resolves to; reports whether it caused an alert. */
    method RecordPing(id: nat, kind: Kind, now: int) returns (found: bool, transitioned: bool)
      modifies this
      ensures found <==> id in old(rows) && !old(rows)[id].deleted
      ensures !found ==> rows == old(rows) && !transitioned
      ensures found ==>
                && rows == old(rows)[id := After(old(rows)[id], Receive(now, kind))]
                && (transitioned <==> EdgeOf(old(rows)[id], Receive(now, kind)) != NoEdge)
      ensures found && kind == FailPing ==>
                && rows[id] == old(rows)[id].(status := Down, lastPingAt := Some(now))
                && (transitioned <==> old(rows)[id].status != Down)
      ensures found && kind == Ping ==>
                && rows[id] == old(rows)[id].(status := Up, lastPingAt := Some(now),
                                              expectedBy := Some(now + old(rows)[id].period))
                && (transitioned <==> old(rows)[id].status != Up)
      ensures found && kind == StartPing ==> rows == old(rows) && !transitioned
    {
      if id !in rows || rows[id].deleted { return false, false; }
      found := true;
      var h := rows[id];
      var prev := h.status;
      if kind == StartPing {
        rows := rows[id := h];
        return true, false;
      }
      var next := if kind == FailPing then Down else Up;
      if kind == Ping {
        h := h.(status := next, lastPingAt := Some(now), expectedBy := Some(now + h.period));
      } else {
        h := h.(status := next, lastPingAt := Some(now));
      }
      rows := rows[id := h];
      transitioned := prev != next;
    }

    /** Flips every lapsed monitor in one statement and returns the flipped ones: each row moves as one
        sweep event moves it, and exactly the rows with a down edge are returned. */
    method MarkOverdueDown(now: int) returns (downed: set<nat>)
      modifies this
      ensures rows.Keys == old(rows).Keys
      ensures forall id :: id in rows ==>
                rows[id] == After(old(rows)[id], Sweep(now, Sweepable(old(rows)[id], now)))
      ensures forall id :: id in rows ==> rows[id] == old(rows)[id].(status := if id in downed then Down else old(rows)[id].status)
      ensures forall id :: id in downed <==>
                && id in old(rows) && old(rows)[id].status in {New, Up} && !old(rows)[id].deleted
                && old(rows)[id].account in accounts && !accounts[old(rows)[id].account].deleted
                && !(accounts[old(rows)[id].account].onTrial && accounts[old(rows)[id].account].trialEndsAt.Some?
                     && accounts[old(rows)[id].account].trialEndsAt.value < now)
                && old(rows)[id].expectedBy.Some? && old(rows)[id].expectedBy.value + old(rows)[id].grace < now
      ensures forall id :: id in downed <==>
                id in old(rows) && EdgeOf(old(rows)[id], Sweep(now, Sweepable(old(rows)[id], now))) == DownEdge
    {
      downed := set id | id in rows && Lapses(rows[id], Sweepable(rows[id], now), now);
      rows := map id | id in rows :: if id in downed then rows[id].(status := Down) else rows[id];
    }

    method PauseMonitor(account: nat, id: nat) returns (found: bool)
      modifies this
      ensures found <==> id in old(rows) && old(rows)[id].account == account && !old(rows)[id].deleted
      ensures rows == if found then old(rows)[id := PausedAt(old(rows)[id])] else old(rows)
    {
      found := id in rows && rows[id].account == account && !rows[id].deleted;
      if found { rows := rows[id := rows[id].(status := Paused, expectedBy := None)]; }
    }

    method ResumeMonitor(account: nat, id: nat, now: int) returns (found: bool)
      modifies this
      ensures found <==> id in old(rows) && old(rows)[id].account == account && !old(rows)[id].deleted
      ensures rows == if found then old(rows)[id := Resumed(old(rows)[id], now)] else old(rows)
    {
      found := id in rows && rows[id].account == account && !rows[id].deleted;
      if found { rows := rows[id := rows[id].(status := New, expectedBy := Some(now + rows[id].period))]; }
    }
  }
}

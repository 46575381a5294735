/**
 The login throttle: a rolling window over one email's recorded attempts.  Times are microseconds.
 */
module LoginThrottle {
  import opened Wrappers

  datatype Attempt = Attempt(at: int, succeeded: bool)

  datatype Config = Config(maxFails: int, window: nat)

  datatype LockState = LockState(locked: bool, retryAfter: int)

  /** Attempts are recorded with the database clock, in order. */
  predicate Ordered(log: seq<Attempt>) {
    forall i, j :: 0 <= i < j < |log| ==> log[i].at <= log[j].at
  }

  predicate NotAfter(log: seq<Attempt>, t: int) { forall i :: 0 <= i < |log| ==> log[i].at <= t }

  // ---- what Check computes ----

  /** max(at) of the successes after the cutoff. */
  function LastSuccess(log: seq<Attempt>, cutoff: int): Option<int>
    decreases |log|
  {
    if log == [] then None
    else
      var a, m := log[|log| - 1], LastSuccess(log[..|log| - 1], cutoff);
      if a.succeeded && a.at > cutoff && (m.None? || m.value < a.at) then Some(a.at) else m
  }

  function Since(log: seq<Attempt>, cutoff: int): int {
    var m := LastSuccess(log, cutoff);
    if m.Some? && m.value > cutoff then m.value else cutoff
  }

  /** The failures after a time, in order. */
  function FailsAfter(log: seq<Attempt>, since: int): seq<Attempt>
    decreases |log|
  {
    if log == [] then []
    else
      var a := log[|log| - 1];
      FailsAfter(log[..|log| - 1], since) + if !a.succeeded && a.at > since then [a] else []
  }

  function Counted(c: Config, log: seq<Attempt>, now: int): seq<Attempt> {
    FailsAfter(log, Since(log, now - c.window))
  }

  function Check(c: Config, log: seq<Attempt>, now: int): LockState
    requires Ordered(log)
  {
    var fails := Counted(c, log, now);
    if |fails| < c.maxFails then LockState(false, 0)
    else
      var left := if fails == [] then 0 else fails[0].at + c.window - now;
      LockState(true, if left < 0 then 0 else left)
  }

  // ---- an independent reading: failures in the window since the last success ever ----

  function LastSuccessEver(log: seq<Attempt>): Option<int>
    decreases |log|
  {
    if log == [] then None
    else if log[|log| - 1].succeeded then Some(log[|log| - 1].at)
    else LastSuccessEver(log[..|log| - 1])
  }

  function Later(x: Option<int>, y: int): int { if x.Some? && x.value > y then x.value else y }

  lemma {:induction false} LastSuccessLatest(log: seq<Attempt>, cutoff: int)
    requires Ordered(log)
    ensures var m, e := LastSuccess(log, cutoff), LastSuccessEver(log);
            && (m.Some? ==> m.value > cutoff && e == m)
            && (m.None? ==> e.None? || e.value <= cutoff)
    ensures LastSuccessEver(log).Some? ==>
              exists i :: 0 <= i < |log| && log[i].succeeded && log[i].at == LastSuccessEver(log).value
    decreases |log|
  {
    if log != [] {
      var init := log[..|log| - 1];
      LastSuccessLatest(init, cutoff);
      if LastSuccessEver(init).Some? {
        var i :| 0 <= i < |init| && init[i].succeeded && init[i].at == LastSuccessEver(init).value;
        assert log[i] == init[i];
      }
    }
  }

  /** A success that ages out of the window never revives the failures before it: Check counts exactly
      the failures that are in the window and after the last success ever recorded. */
  lemma AgedSuccessRevivesNothing(c: Config, log: seq<Attempt>, now: int)
    requires Ordered(log)
    ensures Since(log, now - c.window) == Later(LastSuccessEver(log), now - c.window)
    ensures Counted(c, log, now) == FailsAfter(log, Later(LastSuccessEver(log), now - c.window))
  {
    LastSuccessLatest(log, now - c.window);
  }

  // ---- counting ----

  lemma {:induction false} FailsOrdered(log: seq<Attempt>, since: int)
    requires Ordered(log)
    ensures Ordered(FailsAfter(log, since))
    ensures forall i :: 0 <= i < |FailsAfter(log, since)| ==>
              var f := FailsAfter(log, since)[i]; f in log && !f.succeeded && f.at > since
    decreases |log|
  {
    if log != [] { FailsOrdered(log[..|log| - 1], since); }
  }

  /** Moving the start of the count forward keeps the tail of the counted failures. */
  lemma {:induction false} FailsLater(log: seq<Attempt>, since: int, later: int)
    requires Ordered(log) && since <= later
    ensures var f, g := FailsAfter(log, since), FailsAfter(log, later);
            && |g| <= |f| && g == f[|f| - |g|..]
            && (forall i :: 0 <= i < |f| - |g| ==> f[i].at <= later)
            && (forall i :: 0 <= i < |g| ==> g[i].at > later)
    decreases |log|
  {
    if log != [] {
      var init, a := log[..|log| - 1], log[|log| - 1];
      FailsLater(init, since, later);
      var f, g := FailsAfter(init, since), FailsAfter(init, later);
      FailsOrdered(init, since);
      if !a.succeeded && a.at > since && a.at <= later {
        assert forall i :: 0 <= i < |g| ==> g[i] in init && g[i].at <= a.at;
      }
    }
  }

  lemma CountedShrinks(c: Config, log: seq<Attempt>, now: int, later: int)
    requires Ordered(log) && now <= later
    ensures var f, g := Counted(c, log, now), Counted(c, log, later);
            && |g| <= |f| && g == f[|f| - |g|..]
            && (forall i :: 0 <= i < |f| - |g| ==> f[i].at <= later - c.window)
            && (forall i :: 0 <= i < |g| ==> g[i].at > later - c.window)
  {
    AgedSuccessRevivesNothing(c, log, now);
    AgedSuccessRevivesNothing(c, log, later);
    var e := LastSuccessEver(log);
    var x, y := Later(e, now - c.window), Later(e, later - c.window);
    FailsLater(log, x, y);
    FailsOrdered(log, x);
    FailsOrdered(log, y);
    assert Counted(c, log, now) == FailsAfter(log, x) && Counted(c, log, later) == FailsAfter(log, y);
  }

  // ---- what is counted, index by index ----

  /** The failures that lie in the window and after every success ever recorded. */
  function CountedIndices(c: Config, log: seq<Attempt>, now: int): set<int> {
    set i | 0 <= i < |log| && !log[i].succeeded && log[i].at > now - c.window
            && (forall j :: 0 <= j < |log| && log[j].succeeded ==> log[j].at < log[i].at)
  }

  function FailIndices(log: seq<Attempt>, since: int): set<int> {
    set i | 0 <= i < |log| && !log[i].succeeded && log[i].at > since
  }

  lemma FailIndicesAppend(log: seq<Attempt>, since: int)
    requires log != []
    ensures var n := |log| - 1;
            FailIndices(log, since)
            == FailIndices(log[..n], since) + if !log[n].succeeded && log[n].at > since then {n} else {}
  {
  }

  lemma {:induction false} FailsCount(log: seq<Attempt>, since: int)
    ensures |FailsAfter(log, since)| == |FailIndices(log, since)|
    decreases |log|
  {
    if log != [] {
      FailsCount(log[..|log| - 1], since);
      FailIndicesAppend(log, since);
    }
  }

  /** The first of the failures is the oldest. */
  ghost predicate OldestOf(log: seq<Attempt>, indices: set<int>, at: int) {
    exists i :: i in indices && 0 <= i < |log| && log[i].at == at && NoOlder(log, indices, at)
  }

  ghost predicate NoOlder(log: seq<Attempt>, indices: set<int>, at: int) {
    forall j :: j in indices && 0 <= j < |log| ==> at <= log[j].at
  }

  lemma {:induction false} FirstIsOldest(log: seq<Attempt>, since: int)
    requires Ordered(log) && FailsAfter(log, since) != []
    ensures OldestOf(log, FailIndices(log, since), FailsAfter(log, since)[0].at)
    decreases |log|
  {
    var n := |log| - 1;
    var init, at := log[..n], FailsAfter(log, since)[0].at;
    FailIndicesAppend(log, since);
    if FailsAfter(init, since) != [] {
      FirstIsOldest(init, since);
      assert FailsAfter(init, since)[0] == FailsAfter(log, since)[0];
      var i :| i in FailIndices(init, since) && 0 <= i < |init| && init[i].at == at;
      assert log[i] == init[i] && i in FailIndices(log, since);
      assert NoOlder(log, FailIndices(log, since), at) by {
        assert forall j :: 0 <= j < n ==> log[j] == init[j];
      }
    } else {
      FailsCount(init, since);
      assert FailIndices(init, since) == {};
      assert n in FailIndices(log, since);
    }
  }

  /** The last success ever is the latest of all successes. */
  lemma {:induction false} LastSuccessEverIs(log: seq<Attempt>)
    requires Ordered(log)
    ensures forall j :: 0 <= j < |log| && log[j].succeeded ==>
              LastSuccessEver(log).Some? && log[j].at <= LastSuccessEver(log).value
    ensures LastSuccessEver(log).Some? ==>
              exists j :: 0 <= j < |log| && log[j].succeeded && log[j].at == LastSuccessEver(log).value
    decreases |log|
  {
    if log != [] && !log[|log| - 1].succeeded {
      var init := log[..|log| - 1];
      LastSuccessEverIs(init);
      forall j | 0 <= j < |log| && log[j].succeeded
        ensures LastSuccessEver(log).Some? && log[j].at <= LastSuccessEver(log).value
      {
        assert log[j] == init[j];
      }
      if LastSuccessEver(init).Some? {
        var j :| 0 <= j < |init| && init[j].succeeded && init[j].at == LastSuccessEver(init).value;
        assert log[j] == init[j];
      }
    }
  }

  lemma IndicesAgree(c: Config, log: seq<Attempt>, now: int)
    requires Ordered(log)
    ensures FailIndices(log, Later(LastSuccessEver(log), now - c.window)) == CountedIndices(c, log, now)
  {
    LastSuccessEverIs(log);
    var e := LastSuccessEver(log);
    if e.Some? {
      var k :| 0 <= k < |log| && log[k].succeeded && log[k].at == e.value;
      assert forall i :: 0 <= i < |log| ==>
          (log[i].at > e.value <==> forall j :: 0 <= j < |log| && log[j].succeeded ==> log[j].at < log[i].at);
    }
  }

  /** The state Check must report: locked exactly if enough failures are counted, until the oldest of them
      leaves the window. */
  ghost predicate Reports(c: Config, log: seq<Attempt>, now: int, r: LockState) {
    var counted := CountedIndices(c, log, now);
    && (r.locked <==> |counted| >= c.maxFails)
    && (!r.locked || counted == {} ==> r.retryAfter == 0)
    && (r.locked && counted != {} ==> exists at :: OldestOf(log, counted, at) && r.retryAfter == Max0(at + c.window - now))
  }

  function Max0(x: int): int { if x < 0 then 0 else x }

  /** A success that ages out of the window never revives the failures before it, although Check looks for
      successes in the window only: it counts exactly the failures in the window after every success. */
  lemma CheckExactly(c: Config, log: seq<Attempt>, now: int)
    requires Ordered(log)
    ensures Reports(c, log, now, Check(c, log, now))
    ensures |Counted(c, log, now)| == |CountedIndices(c, log, now)|
  {
    AgedSuccessRevivesNothing(c, log, now);
    IndicesAgree(c, log, now);
    FailsCount(log, Later(LastSuccessEver(log), now - c.window));
    var counted, fails := CountedIndices(c, log, now), Counted(c, log, now);
    if fails != [] {
      FirstIsOldest(log, Later(LastSuccessEver(log), now - c.window));
      assert OldestOf(log, counted, fails[0].at);
    }
  }

  lemma SubsetSize(x: set<int>, y: set<int>)
    requires x <= y
    ensures |x| <= |y|
  {
    assert y == x + (y - x);
  }

  function Range(a: int, b: int): (r: set<int>)
    requires a <= b
    ensures |r| == b - a && forall i :: i in r <==> a <= i < b
    decreases b - a
  {
    if a == b then {} else Range(a, b - 1) + {b - 1}
  }

  /** maxFails failures in a row, inside the window and after every success, lock the email: the next login
      is refused and leaves no trace. */
  lemma FailuresInARowLock(c: Config, log: seq<Attempt>, k: nat, now: int, passwordOk: bool)
    requires Ordered(log) && k <= |log| && |log| - k >= c.maxFails
    requires forall i :: k <= i < |log| ==> !log[i].succeeded && log[i].at > now - c.window
    requires forall i, j :: 0 <= j < k <= i < |log| && log[j].succeeded ==> log[j].at < log[i].at
    ensures Check(c, log, now).locked && Attempted(c, log, Login(now, passwordOk)) == log
  {
    CheckExactly(c, log, now);
    assert Range(k, |log|) <= CountedIndices(c, log, now);
    SubsetSize(Range(k, |log|), CountedIndices(c, log, now));
  }

  // ---- logins, one at a time ----

  datatype Login = Login(at: int, passwordOk: bool)

  /** Check, and record the attempt unless the email is locked. */
  function Attempted(c: Config, log: seq<Attempt>, l: Login): seq<Attempt>
    requires Ordered(log)
  {
    if Check(c, log, l.at).locked then log else log + [Attempt(l.at, l.passwordOk)]
  }

  predicate LoginsOrdered(ls: seq<Login>) { forall i, j :: 0 <= i < j < |ls| ==> ls[i].at <= ls[j].at }

  lemma {:induction false} NoneAfter(log: seq<Attempt>, since: int)
    requires NotAfter(log, since)
    ensures FailsAfter(log, since) == []
    decreases |log|
  {
    if log != [] { NoneAfter(log[..|log| - 1], since); }
  }

  lemma AppendCounted(c: Config, log: seq<Attempt>, a: Attempt)
    requires Ordered(log) && NotAfter(log, a.at)
    ensures Ordered(log + [a])
    ensures |Counted(c, log + [a], a.at)| <= |Counted(c, log, a.at)| + 1
    ensures a.succeeded ==> Counted(c, log + [a], a.at) == []
  {
    var log' := log + [a];
    assert log'[..|log'| - 1] == log;
    AgedSuccessRevivesNothing(c, log', a.at);
    AgedSuccessRevivesNothing(c, log, a.at);
    if a.succeeded {
      assert Since(log', a.at - c.window) >= a.at;
      NoneAfter(log', Since(log', a.at - c.window));
    } else {
      assert Since(log', a.at - c.window) == Since(log, a.at - c.window);
    }
  }

  function Play(c: Config, log: seq<Attempt>, ls: seq<Login>): (r: seq<Attempt>)
    requires Ordered(log) && LoginsOrdered(ls) && (ls != [] ==> NotAfter(log, ls[0].at))
    ensures Ordered(r)
    decreases |ls|
  {
    if ls == [] then log else Play(c, Attempted(c, log, ls[0]), ls[1..])
  }

  lemma {:induction false} PlayBounded(c: Config, log: seq<Attempt>, ls: seq<Login>, t: int)
    requires c.maxFails >= 0
    requires Ordered(log) && LoginsOrdered(ls) && (ls != [] ==> NotAfter(log, ls[0].at))
    requires NotAfter(log, t) && forall i :: 0 <= i < |ls| ==> ls[i].at <= t
    requires forall u :: NotAfter(log, u) ==> |Counted(c, log, u)| <= c.maxFails
    ensures |Counted(c, Play(c, log, ls), t)| <= c.maxFails
    decreases |ls|
  {
    if ls != [] {
      var l := ls[0];
      var log' := Attempted(c, log, l);
      forall u | NotAfter(log', u) ensures |Counted(c, log', u)| <= c.maxFails {
        if log' != log {
          AppendCounted(c, log, Attempt(l.at, l.passwordOk));
          assert log'[|log|].at == l.at <= u;
          CountedShrinks(c, log', l.at, u);
        }
      }
      PlayBounded(c, log', ls[1..], t);
    }
  }

  /** Over every run of logins, one at a time, the counted failures never exceed the limit. */
  lemma FailuresNeverExceedLimit(c: Config, ls: seq<Login>, t: int)
    requires c.maxFails >= 0 && LoginsOrdered(ls) && forall i :: 0 <= i < |ls| ==> ls[i].at <= t
    ensures |Counted(c, Play(c, [], ls), t)| <= c.maxFails
    ensures |CountedIndices(c, Play(c, [], ls), t)| <= c.maxFails
  {
    assert forall u :: Counted(c, [], u) == [];
    PlayBounded(c, [], ls, t);
    CheckExactly(c, Play(c, [], ls), t);
  }

  /** A successful login is recorded, and from then on no earlier failure is counted. */
  lemma SuccessClears(c: Config, log: seq<Attempt>, l: Login, t: int)
    requires Ordered(log) && NotAfter(log, l.at) && l.passwordOk && !Check(c, log, l.at).locked
    ensures Attempted(c, log, l) == log + [Attempt(l.at, true)]
    ensures CountedIndices(c, Attempted(c, log, l), t) == {}
  {
    var log' := log + [Attempt(l.at, true)];
    assert log'[|log|].succeeded;
    assert forall i :: 0 <= i < |log'| ==> log'[i].at <= log'[|log|].at;
  }

  /** A first run of failed logins inside one window locks the email as soon as there are maxFails of them. */
  lemma {:induction false} FailedLoginsLock(c: Config, ls: seq<Login>, now: int)
    requires LoginsOrdered(ls) && |ls| >= c.maxFails
    requires forall i :: 0 <= i < |ls| ==> !ls[i].passwordOk && now - c.window < ls[i].at <= now
    ensures Check(c, Play(c, [], ls), now).locked
  {
    PlayFailures(c, [], ls, now);
    FailuresInARowLock(c, Play(c, [], ls), 0, now, true);
  }

  lemma {:induction false} PlayFailures(c: Config, log: seq<Attempt>, ls: seq<Login>, now: int)
    requires Ordered(log) && LoginsOrdered(ls) && (ls != [] ==> NotAfter(log, ls[0].at))
    requires |log| + |ls| >= c.maxFails
    requires forall i :: 0 <= i < |log| ==> !log[i].succeeded && log[i].at > now - c.window
    requires forall i :: 0 <= i < |ls| ==> !ls[i].passwordOk && now - c.window < ls[i].at <= now
    ensures var r := Play(c, log, ls);
            && |r| >= c.maxFails && forall i :: 0 <= i < |r| ==> !r[i].succeeded && r[i].at > now - c.window
    decreases |ls|
  {
    if ls != [] {
      var l := ls[0];
      var log' := Attempted(c, log, l);
      if log' == log {
        CheckExactly(c, log, l.at);
        SubsetSize(CountedIndices(c, log, l.at), Range(0, |log|));
      }
      PlayFailures(c, log', ls[1..], now);
    }
  }

  /** With no further attempt, a locked email stays locked until exactly RetryAfter later. */
  lemma LockEndsExactly(c: Config, ls: seq<Login>, now: int, later: int)
    requires c.maxFails >= 1 && LoginsOrdered(ls) && now <= later
    requires forall i :: 0 <= i < |ls| ==> ls[i].at <= now
    requires Check(c, Play(c, [], ls), now).locked
    ensures var log := Play(c, [], ls);
            Check(c, log, later).locked <==> later < now + Check(c, log, now).retryAfter
  {
    var log := Play(c, [], ls);
    FailuresNeverExceedLimit(c, ls, now);
    CountedShrinks(c, log, now, now);
    CountedShrinks(c, log, now, later);
    FailsOrdered(log, Since(log, now - c.window));
    var f, g := Counted(c, log, now), Counted(c, log, later);
    assert |f| == c.maxFails && f[0].at > now - c.window;
    if |g| == |f| { assert g[0] == f[0]; }
  }

  // ---- the throttle ----

  class Throttle {
    const c: Config
    var attempts: map<string, seq<Attempt>>

    constructor (maxFails: int, window: nat)
      ensures Valid() && c == Config(maxFails, window) && attempts == map[]
    {
      c, attempts := Config(maxFails, window), map[];
    }

    function Log(email: string): seq<Attempt>
      reads this
    {
      if email in attempts then attempts[email] else []
    }

    ghost predicate Valid()
      reads this
    {
      forall email :: email in attempts ==> Ordered(attempts[email])
    }

    /** The lock state of an email: locked exactly if the failures in the window and after its last success
        ever are maxFails or more, until the oldest of them leaves the window. */
    method CheckEmail(email: string, now: int) returns (r: LockState)
      requires Valid()
      ensures Reports(c, Log(email), now, r)
      ensures r == Check(c, Log(email), now)
    {
      r := Query(Log(email), now);
      CheckExactly(c, Log(email), now);
    }

    /** The two queries of Check and the decision on their results. */
    method Query(log: seq<Attempt>, now: int) returns (r: LockState)
      requires Ordered(log)
      ensures r == Check(c, log, now)
    {
      var cutoff := now - c.window;
      var lastSuccess: Option<int> := None;
      for i := 0 to |log|
        invariant lastSuccess == LastSuccess(log[..i], cutoff)
      {
        var a := log[i];
        assert log[..i + 1][..i] == log[..i];
        if a.succeeded && a.at > cutoff && (lastSuccess.None? || lastSuccess.value < a.at) { lastSuccess := Some(a.at); }
      }
      assert log[..|log|] == log;
      var since := cutoff;
      if lastSuccess.Some? && lastSuccess.value > since { since := lastSuccess.value; }
      var fails, oldest := 0, None;
      for i := 0 to |log|
        invariant fails == |FailsAfter(log[..i], since)|
        invariant oldest == if fails == 0 then None else Some(FailsAfter(log[..i], since)[0].at)
      {
        assert log[..i + 1][..i] == log[..i];
        if !log[i].succeeded && log[i].at > since {
          if fails == 0 { oldest := Some(log[i].at); }
          fails := fails + 1;
        }
      }
      if fails < c.maxFails { return LockState(false, 0); }
      var left := if oldest.Some? then oldest.value + c.window - now else 0;
      r := LockState(true, if left < 0 then 0 else left);
    }

    /** Appends an attempt at the database's time, which is no earlier than that of any before. */
    method Record(email: string, now: int, succeeded: bool)
      requires Valid() && NotAfter(Log(email), now)
      modifies this
      ensures Valid()
      ensures Log(email) == old(Log(email)) + [Attempt(now, succeeded)]
      ensures forall e :: e != email ==> Log(e) == old(Log(e))
    {
      attempts := attempts[email := Log(email) + [Attempt(now, succeeded)]];
    }
  }
}

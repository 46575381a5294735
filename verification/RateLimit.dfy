/**
 The keyed token-bucket limiter with idle eviction, over exact reals.  Times are seconds.
 */
module RateLimit {
  import opened Wrappers

  datatype Bucket = Bucket(tokens: real, lastSeen: real)

  datatype Config = Config(rate: real, burst: real) {
    predicate Valid() { rate > 0.0 && burst >= 1.0 }
  }

  datatype Answer = Answer(ok: bool, wait: real)

  function Min(a: real, b: real): real { if a < b then a else b }

  /** The tokens that drip in between two times. */
  function Drip(c: Config, s: real, t: real): real { (t - s) * c.rate }

  /** The tokens a call at `now` finds, from a bucket that may not exist. */
  function Level(c: Config, b: Option<Bucket>, now: real): real {
    match b
    case None => c.burst
    case Some(k) => Min(c.burst, k.tokens + Drip(c, k.lastSeen, now))
  }

  function AllowAt(c: Config, b: Option<Bucket>, now: real): (Bucket, Answer)
    requires c.Valid()
  {
    var tokens := Level(c, b, now);
    if tokens >= 1.0 then (Bucket(tokens - 1.0, now), Answer(true, 0.0))
    else (Bucket(tokens, now), Answer(false, (1.0 - tokens) / c.rate))
  }

  predicate Evicts(b: Option<Bucket>, now: real, ttl: real) { b.Some? && b.value.lastSeen < now - ttl }

  /** What happens to one key: a call, or a sweep of the map it lives in. */
  datatype Event = Call(at: real) | Sweep(at: real)

  function After(c: Config, ttl: real, b: Option<Bucket>, e: Event): Option<Bucket>
    requires c.Valid()
  {
    match e
    case Call(now) => Some(AllowAt(c, b, now).0)
    case Sweep(now) => if Evicts(b, now, ttl) then None else b
  }

  function AfterAll(c: Config, ttl: real, b: Option<Bucket>, es: seq<Event>): Option<Bucket>
    requires c.Valid()
    decreases |es|
  {
    if es == [] then b else AfterAll(c, ttl, After(c, ttl, b, es[0]), es[1..])
  }

  /** The answers to the calls among the events. */
  function Answers(c: Config, ttl: real, b: Option<Bucket>, es: seq<Event>): seq<Answer>
    requires c.Valid()
    decreases |es|
  {
    if es == [] then []
    else
      (if es[0].Call? then [AllowAt(c, b, es[0].at).1] else []) + Answers(c, ttl, After(c, ttl, b, es[0]), es[1..])
  }

  function Allowed(answers: seq<Answer>): nat
    decreases |answers|
  {
    if answers == [] then 0 else (if answers[0].ok then 1 else 0) + Allowed(answers[1..])
  }

  predicate Ordered(es: seq<Event>) {
    forall i, j :: 0 <= i < j < |es| ==> es[i].at <= es[j].at
  }

  predicate OnlyCalls(es: seq<Event>) { forall i :: 0 <= i < |es| ==> es[i].Call? }

  /** The bucket is sane at time t: tokens within bounds, last seen no later. */
  predicate Sane(c: Config, b: Option<Bucket>, t: real) {
    b.Some? ==> 0.0 <= b.value.tokens <= c.burst && b.value.lastSeen <= t
  }

  lemma Scale(rate: real, x: real, y: real)
    requires rate > 0.0 && x <= y
    ensures x * rate <= y * rate && (x < y ==> x * rate < y * rate)
    ensures 0.0 * rate == 0.0
  {
  }

  lemma DripLaws(c: Config, s: real, u: real, t: real)
    requires c.Valid() && s <= u <= t
    ensures 0.0 <= Drip(c, s, u) <= Drip(c, s, t) && Drip(c, s, s) == 0.0
    ensures Drip(c, s, u) + Drip(c, u, t) == Drip(c, s, t)
  {
    Scale(c.rate, 0.0, u - s);
    Scale(c.rate, u - s, t - s);
  }

  lemma LevelBounds(c: Config, b: Option<Bucket>, s: real, t: real)
    requires c.Valid() && Sane(c, b, s) && s <= t
    ensures 0.0 <= Level(c, b, s) <= Level(c, b, t) <= c.burst
    ensures Level(c, b, t) <= Level(c, b, s) + Drip(c, s, t)
  {
    DripLaws(c, s, s, t);
    if b.Some? { DripLaws(c, b.value.lastSeen, s, t); }
  }

  /** A call takes one token if it is allowed and none otherwise. */
  lemma LevelAfter(c: Config, b: Option<Bucket>, u: real)
    requires c.Valid()
    ensures var (b', a) := AllowAt(c, b, u);
            Level(c, Some(b'), u) == Level(c, b, u) - (if a.ok then 1.0 else 0.0)
  {
    DripLaws(c, u, u, u);
  }

  lemma AfterSane(c: Config, ttl: real, b: Option<Bucket>, e: Event, s: real)
    requires c.Valid() && Sane(c, b, s) && s <= e.at
    ensures Sane(c, After(c, ttl, b, e), e.at)
  {
    LevelBounds(c, b, s, e.at);
  }

  /** Tokens stay within [0, burst] through every run. */
  lemma {:induction false} TokensBounded(c: Config, ttl: real, b: Option<Bucket>, es: seq<Event>, s: real, t: real)
    requires c.Valid() && Sane(c, b, s) && Ordered(es)
    requires forall i :: 0 <= i < |es| ==> s <= es[i].at <= t
    requires s <= t
    ensures Sane(c, AfterAll(c, ttl, b, es), t)
    decreases |es|
  {
    if es != [] {
      AfterSane(c, ttl, b, es[0], s);
      TokensBounded(c, ttl, After(c, ttl, b, es[0]), es[1..], es[0].at, t);
    }
  }

  /** From level L at time s, at most L + rate * (t - s) calls are allowed by time t. */
  lemma {:induction false} AllowedBound(c: Config, ttl: real, b: Option<Bucket>, es: seq<Event>, s: real, t: real)
    requires c.Valid() && Sane(c, b, s) && Ordered(es) && OnlyCalls(es)
    requires forall i :: 0 <= i < |es| ==> s <= es[i].at <= t
    requires s <= t
    ensures Allowed(Answers(c, ttl, b, es)) as real <= Level(c, b, s) + Drip(c, s, t)
    decreases |es|
  {
    LevelBounds(c, b, s, t);
    DripLaws(c, s, s, t);
    if es != [] {
      var u := es[0].at;
      var (k, a) := AllowAt(c, b, u);
      var rest := Answers(c, ttl, Some(k), es[1..]);
      AfterSane(c, ttl, b, es[0], s);
      AllowedBound(c, ttl, Some(k), es[1..], u, t);
      LevelAfter(c, b, u);
      LevelBounds(c, b, s, u);
      DripLaws(c, s, u, t);
      assert Answers(c, ttl, b, es) == [a] + rest;
      assert ([a] + rest)[1..] == rest;
    }
  }

  lemma {:induction false} AfterAllSplit(c: Config, ttl: real, b: Option<Bucket>, xs: seq<Event>, ys: seq<Event>)
    requires c.Valid()
    ensures AfterAll(c, ttl, b, xs + ys) == AfterAll(c, ttl, AfterAll(c, ttl, b, xs), ys)
    ensures Answers(c, ttl, b, xs + ys) == Answers(c, ttl, b, xs) + Answers(c, ttl, AfterAll(c, ttl, b, xs), ys)
    decreases |xs|
  {
    if xs == [] {
      assert xs + ys == ys;
    } else {
      assert (xs + ys)[0] == xs[0] && (xs + ys)[1..] == xs[1..] + ys;
      AfterAllSplit(c, ttl, After(c, ttl, b, xs[0]), xs[1..], ys);
    }
  }

  /** The limiter's promise: a key that was never swept gets at most burst + rate * (t - s) calls
      allowed inside any window [s, t], whatever it did before. */
  lemma WindowBound(c: Config, ttl: real, before: seq<Event>, inside: seq<Event>, s: real, t: real)
    requires c.Valid() && Ordered(before + inside) && OnlyCalls(before + inside) && s <= t
    requires forall i :: 0 <= i < |inside| ==> s <= inside[i].at <= t
    ensures var all := Answers(c, ttl, None, before + inside);
            var first := Answers(c, ttl, None, before);
            && |first| <= |all| && all[..|first|] == first
            && Allowed(all[|first|..]) as real <= c.burst + Drip(c, s, t)
  {
    AfterAllSplit(c, ttl, None, before, inside);
    var b := AfterAll(c, ttl, None, before);
    DripLaws(c, s, s, t);
    if inside != [] {
      var u := inside[0].at;
      assert forall i :: 0 <= i < |before| ==> before[i] == (before + inside)[i];
      assert forall i :: 0 <= i < |inside| ==> inside[i] == (before + inside)[|before| + i];
      TokensBounded(c, ttl, None, before, if before == [] then u else before[0].at, u);
      AllowedBound(c, ttl, b, inside, u, t);
      LevelBounds(c, b, u, u);
      DripLaws(c, s, u, t);
    }
  }

  /** The advised wait is exact: with no call in between, a refused caller is still refused before it
      has passed and allowed once it has. */
  lemma WaitExact(c: Config, b: Option<Bucket>, now: real, later: real)
    requires c.Valid() && Sane(c, b, now) && now <= later && !AllowAt(c, b, now).1.ok
    ensures var (b', a) := AllowAt(c, b, now);
            AllowAt(c, Some(b'), later).1.ok <==> later >= now + a.wait
  {
    var (b', a) := AllowAt(c, b, now);
    LevelBounds(c, b, now, now);
    assert a.wait * c.rate == 1.0 - b'.tokens;
    if later >= now + a.wait {
      Scale(c.rate, a.wait, later - now);
    } else {
      Scale(c.rate, later - now, a.wait);
    }
  }

  // ---- eviction ----

  /** A swept bucket answers like an unswept one: it is the same, or it was dropped when full. */
  predicate Alike(c: Config, swept: Option<Bucket>, kept: Option<Bucket>, now: real) {
    || swept == kept
    || (swept.None? && kept.Some? && kept.value.tokens + Drip(c, kept.value.lastSeen, now) >= c.burst)
  }

  function CallsOf(es: seq<Event>): seq<Event>
    decreases |es|
  {
    if es == [] then [] else (if es[0].Call? then [es[0]] else []) + CallsOf(es[1..])
  }

  /** A bucket idle for the ttl has had the whole burst drip in. */
  lemma IdleRefills(c: Config, ttl: real, seen: real, now: real)
    requires c.Valid() && ttl * c.rate >= c.burst && seen < now - ttl
    ensures Drip(c, seen, now) >= c.burst
  {
    Scale(c.rate, ttl, now - seen);
  }

  lemma AlikeStep(c: Config, ttl: real, swept: Option<Bucket>, kept: Option<Bucket>, e: Event, s: real)
    requires c.Valid() && ttl * c.rate >= c.burst
    requires Sane(c, kept, s) && s <= e.at && Alike(c, swept, kept, s)
    ensures e.Call? ==> AllowAt(c, swept, e.at) == AllowAt(c, kept, e.at)
    ensures e.Sweep? ==> Alike(c, After(c, ttl, swept, e), kept, e.at)
  {
    if kept.Some? {
      var seen := kept.value.lastSeen;
      DripLaws(c, seen, s, e.at);
      if e.Sweep? && Evicts(kept, e.at, ttl) {
        IdleRefills(c, ttl, seen, e.at);
      }
    }
  }

  lemma {:induction false} EvictionInvisible(c: Config, ttl: real, swept: Option<Bucket>, kept: Option<Bucket>,
                                             es: seq<Event>, s: real)
    requires c.Valid() && ttl * c.rate >= c.burst
    requires Sane(c, kept, s) && Alike(c, swept, kept, s) && Ordered(es)
    requires forall i :: 0 <= i < |es| ==> s <= es[i].at
    ensures Answers(c, ttl, swept, es) == Answers(c, ttl, kept, CallsOf(es))
    decreases |es|
  {
    if es != [] {
      var e := es[0];
      AlikeStep(c, ttl, swept, kept, e, s);
      if e.Call? {
        AfterSane(c, ttl, kept, e, s);
        var b := After(c, ttl, kept, e);
        EvictionInvisible(c, ttl, b, b, es[1..], e.at);
        assert CallsOf(es)[0] == e && CallsOf(es)[1..] == CallsOf(es[1..]);
      } else {
        assert Sane(c, kept, e.at);
        EvictionInvisible(c, ttl, After(c, ttl, swept, e), kept, es[1..], e.at);
        assert CallsOf(es) == [] + CallsOf(es[1..]) == CallsOf(es[1..]);
        assert Answers(c, ttl, swept, es) == [] + Answers(c, ttl, After(c, ttl, swept, e), es[1..]);
      }
    }
  }

  // ---- the condition is exact ----

  function Repeat(e: Event, n: nat): seq<Event> { seq(n, _ => e) }

  /** n calls at one instant from a level of at least n are all allowed. */
  lemma {:induction false} BurstAllowed(c: Config, ttl: real, b: Option<Bucket>, now: real, n: nat)
    requires c.Valid() && Level(c, b, now) >= n as real && (b.Some? ==> b.value.lastSeen <= now)
    ensures var es := Repeat(Call(now), n);
            && |Answers(c, ttl, b, es)| == n && Allowed(Answers(c, ttl, b, es)) == n
            && (n > 0 ==> AfterAll(c, ttl, b, es) == Some(Bucket(Level(c, b, now) - n as real, now)))
    decreases n
  {
    if n > 0 {
      var es := Repeat(Call(now), n);
      var b' := After(c, ttl, b, es[0]);
      assert es[1..] == Repeat(Call(now), n - 1);
      LevelAfter(c, b, now);
      BurstAllowed(c, ttl, b', now, n - 1);
      assert Answers(c, ttl, b, es) == [AllowAt(c, b, now).1] + Answers(c, ttl, b', es[1..]);
    }
  }

  function Visible(n: nat, u: real): seq<Event> {
    Repeat(Call(0.0), n) + [Sweep(u)] + Repeat(Call(u), n)
  }

  lemma {:induction false} CallsOfSplit(xs: seq<Event>, ys: seq<Event>)
    ensures CallsOf(xs + ys) == CallsOf(xs) + CallsOf(ys)
    decreases |xs|
  {
    if xs == [] {
      assert xs + ys == ys;
    } else {
      assert (xs + ys)[0] == xs[0] && (xs + ys)[1..] == xs[1..] + ys;
      CallsOfSplit(xs[1..], ys);
    }
  }

  lemma {:induction false} CallsOfCalls(es: seq<Event>)
    requires OnlyCalls(es)
    ensures CallsOf(es) == es
    decreases |es|
  {
    if es != [] { CallsOfCalls(es[1..]); }
  }

  lemma {:induction false} AllowedSplit(xs: seq<Answer>, ys: seq<Answer>)
    ensures Allowed(xs + ys) == Allowed(xs) + Allowed(ys)
    decreases |xs|
  {
    if xs == [] {
      assert xs + ys == ys;
    } else {
      assert (xs + ys)[0] == xs[0] && (xs + ys)[1..] == xs[1..] + ys;
      AllowedSplit(xs[1..], ys);
    }
  }

  /** The swept limiter allows both bursts in full. */
  lemma SweptAllows(c: Config, ttl: real, n: nat, u: real)
    requires c.Valid() && c.burst == n as real && 0.0 <= ttl < u
    ensures Allowed(Answers(c, ttl, None, Visible(n, u))) == 2 * n
  {
    var first, second := Repeat(Call(0.0), n), Repeat(Call(u), n);
    var drained := Some(Bucket(0.0, 0.0));
    BurstAllowed(c, ttl, None, 0.0, n);
    BurstAllowed(c, ttl, None, u, n);
    assert AfterAll(c, ttl, drained, [Sweep(u)]) == AfterAll(c, ttl, None, []);
    assert Answers(c, ttl, drained, [Sweep(u)]) == [] + Answers(c, ttl, None, []);
    AfterAllSplit(c, ttl, None, first, [Sweep(u)]);
    AfterAllSplit(c, ttl, None, first + [Sweep(u)], second);
    AllowedSplit(Answers(c, ttl, None, first), Answers(c, ttl, None, second));
    assert Answers(c, ttl, None, first) + [] == Answers(c, ttl, None, first);
  }

  lemma CallsOfVisible(n: nat, u: real)
    ensures CallsOf(Visible(n, u)) == Repeat(Call(0.0), n) + Repeat(Call(u), n)
  {
    var first, second := Repeat(Call(0.0), n), Repeat(Call(u), n);
    CallsOfSplit(first + [Sweep(u)], second);
    CallsOfSplit(first, [Sweep(u)]);
    CallsOfCalls(first);
    CallsOfCalls(second);
    assert CallsOf([Sweep(u)]) == [] + CallsOf([]);
  }

  /** The unswept one does not, if the bucket has not refilled. */
  lemma UnsweptRefuses(c: Config, ttl: real, n: nat, u: real)
    requires c.Valid() && c.burst == n as real && 0.0 <= u && Drip(c, 0.0, u) < c.burst
    ensures Allowed(Answers(c, ttl, None, CallsOf(Visible(n, u)))) < 2 * n
  {
    var first, second := Repeat(Call(0.0), n), Repeat(Call(u), n);
    CallsOfVisible(n, u);
    var drained := Some(Bucket(0.0, 0.0));
    BurstAllowed(c, ttl, None, 0.0, n);
    AfterAllSplit(c, ttl, None, first, second);
    DripLaws(c, 0.0, u, u);
    AllowedBound(c, ttl, drained, second, u, u);
    AllowedSplit(Answers(c, ttl, None, first), Answers(c, ttl, drained, second));
  }

  /** A time past the ttl at which a bucket drained at 0 is not yet full. */
  lemma TooSoon(c: Config, ttl: real) returns (u: real)
    requires c.Valid() && 0.0 <= ttl && ttl * c.rate < c.burst
    ensures ttl < u && Drip(c, 0.0, u) < c.burst
  {
    var full := c.burst / c.rate;
    if ttl >= full { Scale(c.rate, full, ttl); }
    u := (ttl + full) / 2.0;
    Scale(c.rate, u, full);
    assert Drip(c, 0.0, u) == u * c.rate;
  }

  /** Drain the bucket, wait longer than the ttl but not long enough to refill, sweep, drain again: if
      ttl * rate < burst, such a run tells the swept limiter from the unswept one. */
  lemma EvictionVisible(c: Config, ttl: real, n: nat)
    requires c.Valid() && c.burst == n as real && 0.0 <= ttl && ttl * c.rate < c.burst
    ensures exists es :: Ordered(es) && Answers(c, ttl, None, es) != Answers(c, ttl, None, CallsOf(es))
  {
    var u := TooSoon(c, ttl);
    SweptAllows(c, ttl, n, u);
    UnsweptRefuses(c, ttl, n, u);
    VisibleShape(n, u);
  }

  /** Eviction is invisible in every run exactly when a bucket idle for the ttl is full again. */
  lemma EvictionInvisibleExactly(perMinute: int, burst: int, ttl: real)
    requires 0.0 <= ttl
    ensures var c := NewConfig(perMinute, burst);
            (forall es: seq<Event> :: Ordered(es) ==> Answers(c, ttl, None, es) == Answers(c, ttl, None, CallsOf(es)))
            <==> ttl * c.rate >= c.burst
  {
    var c := NewConfig(perMinute, burst);
    if ttl * c.rate >= c.burst {
      forall es: seq<Event> | Ordered(es) ensures Answers(c, ttl, None, es) == Answers(c, ttl, None, CallsOf(es)) {
        EvictionInvisible(c, ttl, None, None, es, if es == [] then 0.0 else es[0].at);
      }
    } else {
      EvictionVisible(c, ttl, if burst < 1 then 1 else burst);
    }
  }

  // ---- the window bound with eviction ----

  /** After any past, at most burst + rate * (t - s) of the calls in [s, t] are allowed. */
  predicate WindowHolds(c: Config, ttl: real, before: seq<Event>, inside: seq<Event>, s: real, t: real)
    requires c.Valid()
  {
    var all, first := Answers(c, ttl, None, before + inside), Answers(c, ttl, None, before);
    |first| <= |all| && Allowed(all[|first|..]) as real <= c.burst + Drip(c, s, t)
  }

  predicate Within(es: seq<Event>, s: real, t: real) { forall i :: 0 <= i < |es| ==> s <= es[i].at <= t }

  lemma {:induction false} CallsOfSub(es: seq<Event>)
    ensures OnlyCalls(CallsOf(es)) && forall e :: e in CallsOf(es) ==> e in es
    ensures Ordered(es) ==> Ordered(CallsOf(es))
    decreases |es|
  {
    if es != [] {
      CallsOfSub(es[1..]);
      if Ordered(es) {
        assert forall i :: 0 <= i < |CallsOf(es[1..])| ==> CallsOf(es[1..])[i] in es[1..];
      }
    }
  }

  /** A limiter swept at arbitrary times keeps the bound if a bucket idle for the ttl is full again. */
  lemma SweptWindowBound(c: Config, ttl: real, before: seq<Event>, inside: seq<Event>, s: real, t: real)
    requires c.Valid() && ttl * c.rate >= c.burst && Ordered(before + inside) && s <= t && Within(inside, s, t)
    ensures WindowHolds(c, ttl, before, inside, s, t)
  {
    var es := before + inside;
    var x, y := CallsOf(before), CallsOf(inside);
    CallsOfSplit(before, inside);
    CallsOfSub(es);
    CallsOfSub(inside);
    assert forall i :: 0 <= i < |y| ==> y[i] in inside;
    assert Ordered(before) by { assert forall i :: 0 <= i < |before| ==> before[i] == es[i]; }
    EvictionInvisible(c, ttl, None, None, before, if before == [] then 0.0 else before[0].at);
    EvictionInvisible(c, ttl, None, None, es, if es == [] then 0.0 else es[0].at);
    WindowBound(c, ttl, x, y, s, t);
  }

  /** The promise: in every run, whatever the sweeps, every window is bounded. */
  ghost predicate Promise(c: Config, ttl: real)
    requires c.Valid()
  {
    forall before: seq<Event>, inside: seq<Event>, s: real, t: real ::
      Ordered(before + inside) && s <= t && Within(inside, s, t) ==> WindowHolds(c, ttl, before, inside, s, t)
  }

  lemma PromiseKept(c: Config, ttl: real)
    requires c.Valid() && ttl * c.rate >= c.burst
    ensures Promise(c, ttl)
  {
    forall before: seq<Event>, inside: seq<Event>, s: real, t: real
      | Ordered(before + inside) && s <= t && Within(inside, s, t)
      ensures WindowHolds(c, ttl, before, inside, s, t)
    {
      SweptWindowBound(c, ttl, before, inside, s, t);
    }
  }

  lemma WholeRun(c: Config, ttl: real, es: seq<Event>, s: real, t: real)
    requires c.Valid() && Allowed(Answers(c, ttl, None, es)) as real > c.burst + Drip(c, s, t)
    ensures !WindowHolds(c, ttl, [], es, s, t)
  {
    assert [] + es == es;
    var all := Answers(c, ttl, None, es);
    assert all[0..] == all;
  }

  lemma TwoTimes(es: seq<Event>, n: nat, u: real)
    requires 0.0 <= u && forall i :: 0 <= i < |es| ==> es[i].at == if i < n then 0.0 else u
    ensures Ordered(es) && Within(es, 0.0, u)
  {
  }

  lemma VisibleShape(n: nat, u: real)
    requires 0.0 <= u
    ensures Ordered(Visible(n, u)) && Within(Visible(n, u), 0.0, u)
  {
    TwoTimes(Visible(n, u), n, u);
  }

  lemma PromiseBroken(c: Config, ttl: real, n: nat)
    requires c.Valid() && c.burst == n as real && 0.0 <= ttl && ttl * c.rate < c.burst
    ensures !Promise(c, ttl)
  {
    var u := TooSoon(c, ttl);
    SweptAllows(c, ttl, n, u);
    WholeRun(c, ttl, Visible(n, u), 0.0, u);
    VisibleShape(n, u);
    assert [] + Visible(n, u) == Visible(n, u);
  }

  /** The promise survives every pattern of sweeps exactly under the condition that hides them. */
  lemma WindowBoundExactly(perMinute: int, burst: int, ttl: real)
    requires 0.0 <= ttl
    ensures var c := NewConfig(perMinute, burst); Promise(c, ttl) <==> ttl * c.rate >= c.burst
  {
    var c := NewConfig(perMinute, burst);
    if ttl * c.rate >= c.burst {
      PromiseKept(c, ttl);
    } else {
      PromiseBroken(c, ttl, if burst < 1 then 1 else burst);
    }
  }

  /** The limiters wired at startup, 20/10, 300/100, 60/60 and 120/60 per minute with a ttl of 15 minutes,
      never show their eviction, so their window bound holds with it. */
  lemma WiredLimitersHideEviction(perMinute: int, burst: int)
    requires (perMinute, burst) in {(20, 10), (300, 100), (60, 60), (120, 60)}
    ensures var c := NewConfig(perMinute, burst);
            && (forall es: seq<Event> :: Ordered(es) ==>
                  Answers(c, 900.0, None, es) == Answers(c, 900.0, None, CallsOf(es)))
            && Promise(c, 900.0)
  {
    EvictionInvisibleExactly(perMinute, burst, 900.0);
    WindowBoundExactly(perMinute, burst, 900.0);
  }

  function NewConfig(perMinute: int, burst: int): Config {
    var p := if perMinute < 1 then 1 else perMinute;
    var b := if burst < 1 then 1 else burst;
    Config(p as real / 60.0, b as real)
  }

  // ---- the limiter ----

  class Limiter {
    const c: Config
    var buckets: map<string, Bucket>

    constructor (perMinute: int, burst: int)
      ensures c == NewConfig(perMinute, burst) && c.Valid() && buckets == map[]
      ensures c.rate * 60.0 == (if perMinute < 1 then 1 else perMinute) as real
      ensures c.burst == (if burst < 1 then 1 else burst) as real
    {
      c := NewConfig(perMinute, burst);
      buckets := map[];
    }

    function At(key: string): Option<Bucket>
      reads this
    {
      if key in buckets then Some(buckets[key]) else None
    }

    method Allow(key: string, now: real) returns (a: Answer)
      requires c.Valid()
      modifies this
      ensures a == AllowAt(c, old(At(key)), now).1
      ensures At(key) == Some(AllowAt(c, old(At(key)), now).0)
      ensures forall k :: k != key ==> At(k) == old(At(k))
    {
      var tokens := c.burst;
      if key in buckets {
        var b := buckets[key];
        var elapsed := now - b.lastSeen;
        tokens := Min(c.burst, b.tokens + elapsed * c.rate);
      }
      if tokens >= 1.0 {
        buckets := buckets[key := Bucket(tokens - 1.0, now)];
        return Answer(true, 0.0);
      }
      buckets := buckets[key := Bucket(tokens, now)];
      a := Answer(false, (1.0 - tokens) / c.rate);
    }

    /** Evicts the buckets idle for longer than ttl. */
    method SweepIdle(now: real, ttl: real)
      requires c.Valid()
      modifies this
      ensures forall k :: At(k) == After(c, ttl, old(At(k)), Sweep(now))
      ensures forall k :: k in buckets <==> k in old(buckets) && old(buckets)[k].lastSeen >= now - ttl
      ensures forall k :: k in buckets ==> buckets[k] == old(buckets)[k]
    {
      var cutoff := now - ttl;
      var todo := buckets.Keys;
      while todo != {}
        invariant todo <= old(buckets).Keys
        invariant forall k :: k in buckets <==>
                    k in old(buckets) && (k in todo || !(old(buckets)[k].lastSeen < cutoff))
        invariant forall k :: k in buckets ==> buckets[k] == old(buckets)[k]
        decreases todo
      {
        var k :| k in todo;
        if buckets[k].lastSeen < cutoff { buckets := buckets - {k}; }
        todo := todo - {k};
      }
    }
  }
}

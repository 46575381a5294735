/**
 Stripe subscription events as a last-writer-wins register: deduplication, plan selection and the two
 guarded writes on the accounts row of one customer.
 */
module SubscriptionSync {
  import opened Wrappers
  import opened Runs

  datatype Plan = Trial | Starter | Pro | Scale

  /** The subscription columns of an account; `updatedAt` is subscription_status_updated_at. */
  datatype Subscription = Subscription(plan: Plan, id: Option<string>, status: Option<string>, updatedAt: Option<int>)

  datatype Kind = Changed | Deleted | PaymentFailed | OtherKind

  datatype Event = Event(id: string, created: int, kind: Kind, subscription: string, status: string,
                         plans: seq<Plan>)
  {
    /** The event changes the subscription columns. */
    predicate Moves() { kind.Changed? || kind.Deleted? }
  }

  function NullIf(s: string): Option<string> { if s == "" then None else Some(s) }

  // ---- plan selection ----

  /** The first item whose price maps to a paid plan; an unknown price maps to Trial. */
  function PickPlan(plans: seq<Plan>): Plan {
    if plans == [] then Trial else if plans[0] != Trial then plans[0] else PickPlan(plans[1..])
  }

  /** The plan of the first item with a paid one, Trial if there is none. */
  predicate FirstPaid(plans: seq<Plan>, plan: Plan) {
    if forall i :: 0 <= i < |plans| ==> plans[i] == Trial then plan == Trial
    else exists i :: 0 <= i < |plans| && plans[i] != Trial && plan == plans[i] && (forall j :: 0 <= j < i ==> plans[j] == Trial)
  }

  lemma {:induction false} PickPlanFirst(plans: seq<Plan>)
    ensures FirstPaid(plans, PickPlan(plans))
    decreases |plans|
  {
    if plans != [] && plans[0] == Trial {
      var rest := plans[1..];
      PickPlanFirst(rest);
      assert forall i :: 1 <= i < |plans| ==> plans[i] == rest[i - 1];
      if !(forall i :: 0 <= i < |rest| ==> rest[i] == Trial) {
        var i :| 0 <= i < |rest| && rest[i] != Trial && PickPlan(rest) == rest[i] && (forall j :: 0 <= j < i ==> rest[j] == Trial);
        assert plans[i + 1] != Trial && forall j :: 0 <= j < i + 1 ==> plans[j] == Trial;
      }
    }
  }

  method SelectPlan(plans: seq<Plan>) returns (plan: Plan)
    ensures plan == PickPlan(plans)
    ensures FirstPaid(plans, plan)
  {
    PickPlanFirst(plans);
    plan := Trial;
    for i := 0 to |plans|
      invariant plan == Trial && PickPlan(plans[i..]) == PickPlan(plans)
    {
      if plans[i] != Trial { return plans[i]; }
    }
  }

  lemma {:induction false} PickPlanIn(plans: seq<Plan>)
    ensures PickPlan(plans) == Trial <==> forall p :: p in plans ==> p == Trial
    ensures PickPlan(plans) != Trial ==> PickPlan(plans) in plans
    decreases |plans|
  {
    if plans != [] {
      PickPlanIn(plans[1..]);
      assert plans[0] in plans && forall p :: p in plans <==> p == plans[0] || p in plans[1..];
    }
  }

  predicate OnePaidPlan(plans: seq<Plan>) {
    forall i, j :: 0 <= i < |plans| && 0 <= j < |plans| && plans[i] != Trial && plans[j] != Trial ==> plans[i] == plans[j]
  }

  /** The selected plan does not depend on the order of the items exactly when they name at most one
      paid plan. */
  lemma PlanIndependentOfOrder(plans: seq<Plan>)
    ensures OnePaidPlan(plans) <==>
              forall other: seq<Plan> :: multiset(other) == multiset(plans) ==> PickPlan(other) == PickPlan(plans)
  {
    if OnePaidPlan(plans) {
      forall other: seq<Plan> | multiset(other) == multiset(plans) ensures PickPlan(other) == PickPlan(plans) {
        SamePick(plans, other);
      }
    } else {
      var i, j :| 0 <= i < |plans| && 0 <= j < |plans| && plans[i] != Trial && plans[j] != Trial
                  && plans[i] != plans[j];
      var p, q := ToFront(plans, i), ToFront(plans, j);
      assert PickPlan(p) != PickPlan(q);
    }
  }

  lemma SamePick(plans: seq<Plan>, other: seq<Plan>)
    requires OnePaidPlan(plans) && multiset(other) == multiset(plans)
    ensures PickPlan(other) == PickPlan(plans)
  {
    assert forall p :: p in other <==> p in multiset(other);
    assert forall p :: p in plans <==> p in multiset(plans);
    PickPlanIn(plans);
    PickPlanIn(other);
  }

  function ToFront(plans: seq<Plan>, i: nat): (r: seq<Plan>)
    requires i < |plans|
    ensures multiset(r) == multiset(plans) && r != [] && r[0] == plans[i]
  {
    assert plans == plans[..i] + ([plans[i]] + plans[i + 1..]);
    [plans[i]] + plans[..i] + plans[i + 1..]
  }

  // ---- the writes ----

  /** What an event makes of the row when it is applied. */
  function Effect(e: Event): Subscription {
    if e.kind.Deleted? then Subscription(Trial, None, Some("canceled"), Some(e.created))
    else Subscription(PickPlan(e.plans), NullIf(e.subscription), NullIf(e.status), Some(e.created))
  }

  /** The columns the event leaves: its own time always; on a cancellation the trial plan, no subscription
      and status canceled; otherwise the event's subscription and status, empty as NULL, and the first paid
      plan among its items. */
  predicate Shows(s: Subscription, e: Event) {
    && s.updatedAt == Some(e.created)
    && (e.kind.Deleted? ==> s.plan == Trial && s.id == None && s.status == Some("canceled"))
    && (!e.kind.Deleted? ==>
          && (if e.subscription == "" then s.id == None else s.id == Some(e.subscription))
          && (if e.status == "" then s.status == None else s.status == Some(e.status))
          && FirstPaid(e.plans, s.plan))
  }

  lemma EffectShows(e: Event)
    ensures Shows(Effect(e), e)
  {
    PickPlanFirst(e.plans);
  }

  predicate Stale(s: Subscription, e: Event) { s.updatedAt.Some? && s.updatedAt.value > e.created }

  function Apply(s: Subscription, e: Event): Subscription { if Stale(s, e) then s else Effect(e) }

  /** The events recorded as seen, and the row. */
  datatype State = State(seen: set<string>, row: Subscription)

  /** One delivery to the webhook; an event without an id is never deduplicated, one of another kind is
      not even recorded. */
  function Deliver(s: State, e: Event): State {
    if e.kind.OtherKind? || (e.id != "" && e.id in s.seen) then s
    else State(if e.id == "" then s.seen else s.seen + {e.id}, if e.Moves() then Apply(s.row, e) else s.row)
  }

  function DeliverAll(s: State, es: seq<Event>): State { Fold(Deliver, s, es) }

  // ---- the newest event wins ----

  /** The i-th delivery gets past deduplication to the subscription write. */
  predicate Fresh(seen: set<string>, es: seq<Event>, i: nat)
    requires i < |es|
  {
    && es[i].Moves()
    && (es[i].id != "" ==>
          es[i].id !in seen && forall j :: 0 <= j < i ==> es[j].id != es[i].id || es[j].kind.OtherKind?)
  }

  /** The last fresh delivery of the newest second. */
  predicate Winner(seen: set<string>, es: seq<Event>, i: nat) {
    && i < |es| && Fresh(seen, es, i)
    && (forall j :: 0 <= j < |es| && Fresh(seen, es, j) ==> es[j].created <= es[i].created)
    && (forall j :: i < j < |es| && Fresh(seen, es, j) ==> es[j].created < es[i].created)
  }

  lemma FreshRest(s: State, es: seq<Event>, j: nat)
    requires 0 < j < |es|
    ensures Fresh(Deliver(s, es[0]).seen, es[1..], j - 1) <==> Fresh(s.seen, es, j)
  {
    var rest := es[1..];
    assert forall k :: 0 < k < |es| ==> rest[k - 1] == es[k];
  }

  lemma {:induction false} DeliverStale(s: State, es: seq<Event>)
    requires forall i :: 0 <= i < |es| && Fresh(s.seen, es, i) ==> Stale(s.row, es[i])
    ensures DeliverAll(s, es).row == s.row
    decreases |es|
  {
    if es != [] {
      var s' := Deliver(s, es[0]);
      assert Fresh(s.seen, es, 0) ==> Stale(s.row, es[0]);
      forall i | 0 <= i < |es[1..]| && Fresh(s'.seen, es[1..], i) ensures Stale(s'.row, es[1..][i]) {
        FreshRest(s, es, i + 1);
      }
      DeliverStale(s', es[1..]);
    }
  }

  lemma {:induction false} DeliverWinner(s: State, es: seq<Event>, i: nat)
    requires Winner(s.seen, es, i)
    ensures DeliverAll(s, es).row == if Stale(s.row, es[i]) then s.row else Effect(es[i])
    decreases |es|
  {
    var s', rest := Deliver(s, es[0]), es[1..];
    forall j | 0 < j < |es| ensures Fresh(s'.seen, rest, j - 1) <==> Fresh(s.seen, es, j) { FreshRest(s, es, j); }
    if i == 0 {
      forall j | 0 <= j < |rest| && Fresh(s'.seen, rest, j) ensures Stale(s'.row, rest[j]) {
        assert Fresh(s.seen, es, j + 1);
      }
      DeliverStale(s', rest);
    } else {
      forall j | 0 <= j < |rest| && Fresh(s'.seen, rest, j)
        ensures rest[j].created <= es[i].created && (j > i - 1 ==> rest[j].created < es[i].created)
      {
        assert Fresh(s.seen, es, j + 1);
      }
      DeliverWinner(s', rest, i - 1);
      if s'.row != s.row { assert Fresh(s.seen, es, 0); }
    }
  }

  /** For every order and duplication of deliveries, with no assumption on ids or times, the row ends as the
      last fresh delivery of the newest second makes it, or as it was if it is newer. */
  lemma NewestEventWins(row: Subscription, es: seq<Event>, i: nat)
    requires Winner({}, es, i)
    ensures DeliverAll(State({}, row), es).row == if Stale(row, es[i]) then row else Effect(es[i])
    ensures var end := DeliverAll(State({}, row), es).row;
            if row.updatedAt.Some? && row.updatedAt.value > es[i].created then end == row else Shows(end, es[i])
  {
    DeliverWinner(State({}, row), es, i);
    EffectShows(es[i]);
  }

  /** There is such a delivery as soon as any is fresh. */
  lemma {:induction false} WinnerAmong(seen: set<string>, es: seq<Event>, first: nat, k: nat) returns (i: nat)
    requires first < k <= |es| && Fresh(seen, es, first)
    ensures i < k && Fresh(seen, es, i)
    ensures forall j :: 0 <= j < k && Fresh(seen, es, j) ==> es[j].created <= es[i].created
    ensures forall j :: i < j < k && Fresh(seen, es, j) ==> es[j].created < es[i].created
    decreases k
  {
    if k - 1 == first {
      i := first;
      if exists j :: 0 <= j < first && Fresh(seen, es, j) {
        var j :| 0 <= j < first && Fresh(seen, es, j);
        i := WinnerAmong(seen, es, j, k - 1);
      }
    } else {
      i := WinnerAmong(seen, es, first, k - 1);
    }
    if Fresh(seen, es, k - 1) && es[k - 1].created >= es[i].created { i := k - 1; }
  }

  // ---- when order does not matter ----

  /** One id is one event. */
  predicate UniqueIds(es: seq<Event>) {
    forall i, j :: 0 <= i < |es| && 0 <= j < |es| && es[i].id == es[j].id && es[i].id != "" ==> es[i] == es[j]
  }

  /** An event of the newest second among those that change the subscription. */
  predicate Newest(es: seq<Event>, e: Event) {
    e in es && e.Moves() && forall i :: 0 <= i < |es| && es[i].Moves() ==> es[i].created <= e.created
  }

  lemma {:induction false} FirstIsFresh(es: seq<Event>, k: nat) returns (i: nat)
    requires UniqueIds(es) && k < |es| && es[k].Moves()
    ensures i <= k && es[i] == es[k] && Fresh({}, es, i)
    decreases k
  {
    i := k;
    if !Fresh({}, es, k) {
      var j :| 0 <= j < k && es[j].id == es[k].id && !es[j].kind.OtherKind?;
      i := FirstIsFresh(es, j);
    }
  }

  /** With unique ids the winner is of the newest second of all delivered events. */
  lemma WinnerIsNewest(es: seq<Event>, i: nat)
    requires UniqueIds(es) && Winner({}, es, i)
    ensures Newest(es, es[i])
  {
    forall k | 0 <= k < |es| && es[k].Moves() ensures es[k].created <= es[i].created {
      var j := FirstIsFresh(es, k);
    }
  }

  lemma Outcome(row: Subscription, es: seq<Event>, e: Event) returns (w: Event)
    requires UniqueIds(es) && e in es && e.Moves()
    ensures Newest(es, w) && DeliverAll(State({}, row), es).row == if Stale(row, w) then row else Effect(w)
  {
    var k :| 0 <= k < |es| && es[k] == e;
    var f := FirstIsFresh(es, k);
    var i := WinnerAmong({}, es, f, |es|);
    NewestEventWins(row, es, i);
    WinnerIsNewest(es, i);
    w := es[i];
  }

  predicate Rearranges(other: seq<Event>, es: seq<Event>) { multiset(other) == multiset(es) }

  lemma SameEvents(other: seq<Event>, es: seq<Event>)
    requires Rearranges(other, es)
    ensures forall e :: e in other <==> e in es
    ensures UniqueIds(es) ==> UniqueIds(other)
    ensures forall e :: Newest(other, e) <==> Newest(es, e)
  {
    assert forall e :: e in other <==> e in multiset(other);
    assert forall e :: e in es <==> e in multiset(es);
    if UniqueIds(es) {
      forall i, j | 0 <= i < |other| && 0 <= j < |other| && other[i].id == other[j].id && other[i].id != ""
        ensures other[i] == other[j]
      {
        assert other[i] in es && other[j] in es;
      }
    }
    forall e ensures Newest(other, e) <==> Newest(es, e) {
      assert forall i :: 0 <= i < |es| ==> es[i] in other;
      assert forall i :: 0 <= i < |other| ==> other[i] in es;
    }
  }

  function Keep(es: seq<Event>, e: Event, same: bool): (r: seq<Event>)
    ensures forall x :: x in r ==> (x == e) == same
  {
    if es == [] then [] else (if (es[0] == e) == same then [es[0]] else []) + Keep(es[1..], e, same)
  }

  /** All other events first, then the copies of one. */
  function ToEnd(es: seq<Event>, e: Event): seq<Event> { Keep(es, e, false) + Keep(es, e, true) }

  lemma {:induction false} ToEndRearranges(es: seq<Event>, e: Event)
    ensures Rearranges(ToEnd(es, e), es)
    decreases |es|
  {
    if es != [] {
      ToEndRearranges(es[1..], e);
      assert es == [es[0]] + es[1..];
    }
  }

  lemma ToEndAt(es: seq<Event>, e: Event, i: nat)
    requires i < |ToEnd(es, e)|
    ensures ToEnd(es, e)[i] == e <==> i >= |Keep(es, e, false)|
  {
    var x, y := Keep(es, e, false), Keep(es, e, true);
    if i < |x| { assert x[i] in x; } else { assert y[i - |x|] in y; }
  }

  lemma ToEndWins(row: Subscription, es: seq<Event>, e: Event)
    requires UniqueIds(es) && Newest(es, e) && !Stale(row, e)
    ensures DeliverAll(State({}, row), ToEnd(es, e)).row == Effect(e)
  {
    var o := ToEnd(es, e);
    ToEndRearranges(es, e);
    SameEvents(o, es);
    var k :| 0 <= k < |o| && o[k] == e;
    var f := FirstIsFresh(o, k);
    var i := WinnerAmong({}, o, f, |o|);
    WinnerIsNewest(o, i);
    ToEndAt(es, e, f);
    ToEndAt(es, e, i);
    assert o[i] == e;
    NewestEventWins(row, o, i);
  }

  ghost predicate OrderIrrelevant(row: Subscription, es: seq<Event>) {
    forall other :: Rearranges(other, es) ==>
      DeliverAll(State({}, row), other).row == DeliverAll(State({}, row), es).row
  }

  predicate OneEffect(row: Subscription, es: seq<Event>) {
    forall i, j :: 0 <= i < |es| && 0 <= j < |es| && Newest(es, es[i]) && Newest(es, es[j]) ==>
      Stale(row, es[i]) || Effect(es[i]) == Effect(es[j])
  }

  /** The outcome of a set of deliveries is independent of their order if and only if the row is newer than
      all of them or all events of their newest second have the same effect. */
  lemma OrderIrrelevantExactly(row: Subscription, es: seq<Event>)
    requires UniqueIds(es)
    ensures OrderIrrelevant(row, es) <==> OneEffect(row, es)
  {
    if OneEffect(row, es) {
      forall other | Rearranges(other, es)
        ensures DeliverAll(State({}, row), other).row == DeliverAll(State({}, row), es).row
      {
        SameOutcome(row, es, other);
      }
    }
    if OrderIrrelevant(row, es) {
      forall i, j | 0 <= i < |es| && 0 <= j < |es| && Newest(es, es[i]) && Newest(es, es[j]) && !Stale(row, es[i])
        ensures Effect(es[i]) == Effect(es[j])
      {
        ToEndRearranges(es, es[i]);
        ToEndRearranges(es, es[j]);
        ToEndWins(row, es, es[i]);
        ToEndWins(row, es, es[j]);
      }
    }
  }

  lemma SameOutcome(row: Subscription, es: seq<Event>, other: seq<Event>)
    requires UniqueIds(es) && Rearranges(other, es) && OneEffect(row, es)
    ensures DeliverAll(State({}, row), other).row == DeliverAll(State({}, row), es).row
  {
    SameEvents(other, es);
    if exists e :: e in es && e.Moves() {
      var e :| e in es && e.Moves();
      var v := Outcome(row, es, e);
      var w := Outcome(row, other, e);
      assert Newest(es, v) && Newest(es, w);
      var i :| 0 <= i < |es| && es[i] == v;
      var j :| 0 <= j < |es| && es[j] == w;
    } else {
      assert forall i :: 0 <= i < |other| ==> other[i] in es;
      DeliverStale(State({}, row), es);
      DeliverStale(State({}, row), other);
    }
  }

  // ---- the webhook ----

  class Accounts {
    var seen: set<string>
    var row: Subscription
    var trialEndsAt: Option<int>

    constructor (row: Subscription, trialEndsAt: Option<int>)
      ensures seen == {} && this.row == row && this.trialEndsAt == trialEndsAt
    {
      seen, this.row, this.trialEndsAt := {}, row, trialEndsAt;
    }

    /** Inserts the event id; reports whether it was new. */
    method RecordStripeEvent(id: string) returns (isNew: bool)
      modifies this`seen
      ensures isNew <==> id !in old(seen)
      ensures seen == old(seen) + {id}
    {
      isNew := id !in seen;
      seen := seen + {id};
    }

    method SyncSubscription(subscription: string, status: string, plan: Plan, created: int)
      modifies this`row
      ensures row == if old(row).updatedAt.Some? && old(row).updatedAt.value > created then old(row)
                     else Subscription(plan, NullIf(subscription), NullIf(status), Some(created))
    {
      if row.updatedAt.None? || row.updatedAt.value <= created {
        row := Subscription(plan, NullIf(subscription), NullIf(status), Some(created));
      }
    }

    /** A cancellation also moves the end of the trial, under the same guard. */
    method HandleSubscriptionCanceled(created: int, graceUntil: int)
      modifies this`row, this`trialEndsAt
      ensures var stale := old(row).updatedAt.Some? && old(row).updatedAt.value > created;
              && row == (if stale then old(row) else Subscription(Trial, None, Some("canceled"), Some(created)))
              && trialEndsAt == (if stale then old(trialEndsAt) else Some(graceUntil))
    {
      if row.updatedAt.None? || row.updatedAt.value <= created {
        row := Subscription(Trial, None, Some("canceled"), Some(created));
        trialEndsAt := Some(graceUntil);
      }
    }

    /** One delivery: dedup, then what the event's kind calls for.  `recordOk` and `syncOk` say whether the
        two writes succeed; a write that fails is answered 500.  An event whose subscription write fails
        stays recorded, so its redelivery does nothing. */
    method StripeWebhook(e: Event, graceUntil: int, recordOk: bool, syncOk: bool) returns (status: nat, mailed: bool)
      modifies this
      ensures recordOk && syncOk ==> State(seen, row) == Deliver(old(State(seen, row)), e) && status == 200
      ensures e.Moves() && syncOk && (e.id == "" || (recordOk && e.id !in old(seen))) ==>
                if old(row).updatedAt.Some? && old(row).updatedAt.value > e.created then row == old(row)
                else Shows(row, e)
      ensures !e.Moves() || (e.id != "" && e.id in old(seen)) ==> row == old(row)
      ensures !recordOk && e.id != "" && !e.kind.OtherKind? ==>
                status == 500 && seen == old(seen) && row == old(row) && !mailed
      ensures !syncOk ==> row == old(row) && trialEndsAt == old(trialEndsAt)
      ensures recordOk ==> seen == Deliver(old(State(seen, row)), e).seen
      ensures recordOk && !syncOk ==> (status == 500 <==> e.Moves() && (e.id == "" || e.id !in old(seen)))
      ensures mailed <==> e.kind.PaymentFailed? && (e.id == "" || (recordOk && e.id !in old(seen)))
      ensures trialEndsAt != old(trialEndsAt) ==> e.kind.Deleted? && trialEndsAt == Some(graceUntil)
    {
      EffectShows(e);
      status, mailed := 200, false;
      if e.kind.OtherKind? { return; }
      if e.id != "" {
        if !recordOk { return 500, false; }
        var isNew := RecordStripeEvent(e.id);
        if !isNew { assert seen == old(seen); return; }
      }
      match e.kind
      case PaymentFailed => mailed := true;
      case Deleted =>
        if !syncOk { return 500, false; }
        HandleSubscriptionCanceled(e.created, graceUntil);
      case Changed =>
        var plan := SelectPlan(e.plans);
        if !syncOk { return 500, false; }
        SyncSubscription(e.subscription, e.status, plan, e.created);
    }
  }
}

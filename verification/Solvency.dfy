/** What the service can owe and spend: balances, day counters, requests and real spending stay
    within their limits up to the recorded overage, over whole runs. */
module Solvency {
  import opened Sums
  import opened Redis
  import opened Protocol
  import opened Budget
  import opened Timing

  /** What a commit charged beyond its hold. */
  function Excess(st: Settlement, h: Hold): int {
    if Kept(st) > h.amount then Kept(st) - h.amount else 0
  }

  ghost function OverageOn(d: Day): Event -> int {
    (e: Event) => if e.Closed? && e.hold.stamp == On(d) then Excess(e.st, e.hold) else 0
  }

  ghost function OverageOf(u: UserId): Event -> int {
    (e: Event) => if e.Closed? && e.st.user == u then Excess(e.st, e.hold) else 0
  }

  // ---- balances ----

  ghost predicate DebtCovered(s: State, u: UserId) {
    Balance(s.store, u) + Sum(s.history, OverageOf(u)) >= 0
  }

  /** A call lowers a balance below zero only by an excess it records. */
  lemma ExecDebt(c: Config, now: nat, s: Store, op: Op, u: UserId)
    requires op.Mint? ==> op.minted >= 0
    ensures var s' := Exec(c, now, s, op).0; var es := EventsOf(c, s, now, op);
            Sum(es, OverageOf(u)) >= 0
            && (Balance(s', u) + Sum(es, OverageOf(u)) >= Balance(s, u) || Balance(s', u) >= 0)
  {
  }

  lemma DebtStep(c: Config, s: State, a: Action, u: UserId)
    requires Sane(s) && Minting(s) && DebtCovered(s, u)
    requires Sum(s.history, OverageOf(u)) >= 0
    ensures DebtCovered(Apply(c, s, a), u)
    ensures Sum(Apply(c, s, a).history, OverageOf(u)) >= 0
  {
    hide Total, Sum;
    if a.Call? {
      if Running(s, a.id) {
        CallHistory(c, s, a.id, a.fault, OverageOf(u));
        ExecDebt(c, s.now, s.store, OpOf(s.tasks[a.id]), u);
      }
    } else {
      NewEventsSum(c, s, a, OverageOf(u));
      SumZero(NewEvents(c, s, a), OverageOf(u));
    }
  }

  /** Purchases are of positive amounts. */
  ghost predicate Minting(s: State) {
    forall i | i in s.tasks ::
      && (s.tasks[i].TopUpCounting? ==> s.tasks[i].credits > 0)
      && (s.tasks[i].TopUpGranting? ==> s.tasks[i].credits > 0)
      && (s.tasks[i].TopUpMinting? ==> s.tasks[i].credits > 0)
  }

  lemma MintingCall(c: Config, s: State, id: nat, f: Fault)
    requires Minting(s) && Running(s, id)
    ensures Minting(ApplyCall(c, s, id, f))
  {
  }

  lemma MintingStep(c: Config, s: State, a: Action)
    requires Minting(s)
    ensures Minting(Apply(c, s, a))
  {
    hide Total, Sum, ApplyCall, Purge;
    if a.Call? && Running(s, a.id) {
      MintingCall(c, s, a.id, a.fault);
    }
  }

  lemma {:induction false} MintingRun(c: Config, start: nat, acts: seq<Action>)
    ensures Minting(Run(c, start, acts))
    decreases |acts|
  {
    if acts != [] {
      MintingRun(c, start, acts[..|acts| - 1]);
      MintingStep(c, Run(c, start, acts[..|acts| - 1]), acts[|acts| - 1]);
    }
  }

  /** In every run, with any faults: a balance is at least minus what its user was charged in excess of holds. */
  lemma {:induction false} BalanceBound(c: Config, start: nat, acts: seq<Action>, u: UserId)
    ensures var s := Run(c, start, acts);
            Balance(s.store, u) >= -Sum(s.history, OverageOf(u)) && Sum(s.history, OverageOf(u)) >= 0
    decreases |acts|
  {
    if acts != [] {
      var s := Run(c, start, acts[..|acts| - 1]);
      BalanceBound(c, start, acts[..|acts| - 1], u);
      MintingRun(c, start, acts[..|acts| - 1]);
      SaneRun(c, start, acts[..|acts| - 1]);
      DebtStep(c, s, acts[|acts| - 1], u);
    }
  }

  // ---- the day counter ----

  /** A call raises the counter only by an accepted charge, which stays under the limit, or by an excess it records. */
  lemma ExecCap(c: Config, now: nat, s: Store, op: Op, d: Day)
    requires op.AdjustBudget? ==> op.delta <= 0
    ensures var s' := Exec(c, now, s, op).0; var es := EventsOf(c, s, now, op);
            && Sum(es, OverageOn(d)) >= 0 && Sum(es, RetiredOn(d)) == 0
            && (Read(s'.budget, d) <= Read(s.budget, d) + Sum(es, OverageOn(d))
                || (op.ChargeBudget? && op.day == d && Read(s'.budget, d) <= c.creditLimit))
  {
    hide Total, Sum;
    var es := EventsOf(c, s, now, op);
    SumShort(es, OverageOn(d));
    SumShort(es, RetiredOn(d));
  }

  ghost predicate CounterUnderLimit(c: Config, s: State, d: Day) {
    && Read(s.store.budget, d) <= c.creditLimit + Sum(s.history, OverageOn(d))
    && Sum(s.history, OverageOn(d)) >= 0
  }

  lemma UnderLimitStep(c: Config, s: State, a: Action, d: Day)
    requires Sane(s) && CounterUnderLimit(c, s, d)
    ensures CounterUnderLimit(c, Apply(c, s, a), d)
  {
    hide Total, Sum;
    if a.Call? {
      if Running(s, a.id) {
        CallHistory(c, s, a.id, a.fault, OverageOn(d));
        ExecCap(c, s.now, s.store, OpOf(s.tasks[a.id]), d);
      }
    } else {
      NewEventsSum(c, s, a, OverageOn(d));
      SumZero(NewEvents(c, s, a), OverageOn(d));
    }
  }

  /** In every run, with any faults and however late handlers are: the day's counter never passes its limit plus
      what the day was charged in excess of holds. */
  lemma {:induction false} CounterCapped(c: Config, start: nat, acts: seq<Action>, d: Day)
    ensures Read(Run(c, start, acts).store.budget, d) <= c.creditLimit + Sum(Run(c, start, acts).history, OverageOn(d))
    ensures CounterUnderLimit(c, Run(c, start, acts), d)
    decreases |acts|
  {
    if acts != [] {
      hide Sane, CounterUnderLimit, Apply;
      var before := acts[..|acts| - 1];
      CounterCapped(c, start, before, d);
      SaneRun(c, start, before);
      UnderLimitStep(c, Run(c, start, before), acts[|acts| - 1], d);
      UnderLimit(c, Run(c, start, acts), d);
    }
  }

  lemma UnderLimit(c: Config, s: State, d: Day)
    requires CounterUnderLimit(c, s, d)
    ensures Read(s.store.budget, d) <= c.creditLimit + Sum(s.history, OverageOn(d))
  {
  }

  /** Counting what expired keys showed, the counter stays under the limit plus the day's overage. */
  ghost predicate Capped(c: Config, s: State, d: Day) {
    && Read(s.store.budget, d) + Sum(s.history, RetiredOn(d)) <= c.creditLimit + Sum(s.history, OverageOn(d))
    && Sum(s.history, OverageOn(d)) >= 0
  }

  lemma NotRetired(s: State, d: Day)
    requires RetiredForGood(s)
    requires d in s.store.budget || s.now < Horizon(d)
    ensures Sum(s.history, RetiredOn(d)) == 0
  {
    hide Total, Sum;
    SumZero(s.history, RetiredOn(d));
  }

  lemma CappedCall(patience: nat, c: Config, s: State, id: nat, f: Fault, d: Day)
    requires Sane(s) && InTime(patience, s) && Running(s, id) && Capped(c, s, d)
    ensures Capped(c, ApplyCall(c, s, id, f), d)
  {
    hide Total, Sum;
    var t := s.tasks[id];
    CallHistory(c, s, id, f, OverageOn(d));
    CallHistory(c, s, id, f, RetiredOn(d));
    ExecCap(c, s.now, s.store, OpOf(t), d);
    if t.Creating? && t.ticket.day == d {
      TicketBeforeHorizon(patience, s.now, t);
      NotRetired(s, d);
    }
  }

  lemma CappedTick(c: Config, s: State, dt: nat, d: Day)
    requires Capped(c, s, d)
    ensures Capped(c, Apply(c, s, Tick(dt)), d)
  {
  }

  lemma CappedDie(c: Config, s: State, id: nat, d: Day)
    requires Capped(c, s, d)
    ensures Capped(c, Apply(c, s, Die(id)), d)
  {
    hide Total, Sum;
    var a := Die(id);
    NewEventsSum(c, s, a, OverageOn(d));
    NewEventsSum(c, s, a, RetiredOn(d));
    SumZero(NewEvents(c, s, a), OverageOn(d));
    SumZero(NewEvents(c, s, a), RetiredOn(d));
  }

  lemma CappedStep(patience: nat, c: Config, s: State, a: Action, d: Day)
    requires Sane(s) && InTime(patience, s) && Capped(c, s, d)
    ensures Capped(c, Apply(c, s, a), d)
  {
    hide Total, Sum, Sane, InTime, ApplyCall, Purge;
    match a
    case Begin(_, _) =>
    case Call(id, f) => if Running(s, id) { CappedCall(patience, c, s, id, f, d); }
    case Tick(dt) => CappedTick(c, s, dt, d);
    case Die(id) => CappedDie(c, s, id, d);
  }

  lemma {:induction false} CappedRun(patience: nat, c: Config, start: nat, acts: seq<Action>, d: Day)
    requires Punctual(patience, c, start, acts)
    ensures Capped(c, Run(c, start, acts), d)
    decreases |acts|
  {
    if acts != [] {
      var s := Run(c, start, acts[..|acts| - 1]);
      CappedRun(patience, c, start, acts[..|acts| - 1], d);
      InTimeRun(patience, c, start, acts[..|acts| - 1]);
      SaneRun(c, start, acts[..|acts| - 1]);
      CappedStep(patience, c, s, acts[|acts| - 1], d);
    }
  }

  // ---- leaks ----

  lemma LeakStep(c: Config, s: State, a: Action, d: Day)
    requires Sane(s) && (a.Call? ==> !a.fault.LostReply?)
    ensures Sum(Apply(c, s, a).history, LeakedOn(d)) >= Sum(s.history, LeakedOn(d))
  {
    hide Total, Sum;
    if a.Call? {
      if Running(s, a.id) {
        CallHistory(c, s, a.id, a.fault, LeakedOn(d));
        SumZero(EventsOf(c, s.store, s.now, OpOf(s.tasks[a.id])), LeakedOn(d));
      }
    } else {
      NewEventsSum(c, s, a, LeakedOn(d));
      SumNonNegative(NewEvents(c, s, a), LeakedOn(d));
    }
  }

  lemma {:induction false} LeaksOnlyUp(c: Config, start: nat, acts: seq<Action>, d: Day)
    requires NoLostReply(acts)
    ensures Sum(Run(c, start, acts).history, LeakedOn(d)) >= 0
    decreases |acts|
  {
    if acts != [] {
      LeaksOnlyUp(c, start, acts[..|acts| - 1], d);
      SaneRun(c, start, acts[..|acts| - 1]);
      assert acts[|acts| - 1] in acts;
      LeakStep(c, Run(c, start, acts[..|acts| - 1]), acts[|acts| - 1], d);
    }
  }

  lemma LiveNonNegative(s: State, d: Day)
    requires Sane(s)
    ensures Total(s.store.holds, LiveOn(d)) >= 0
    ensures Total(s.tasks, PendingOn(d)) >= 0
  {
    hide Total, Sum;
    TotalNonNegative(s.store.holds, LiveOn(d));
    TotalNonNegative(s.tasks, PendingOn(d));
  }

  lemma BookingsStep(c: Config, s: State, a: Action, d: Day)
    requires Sane(s)
    ensures Sum(Apply(c, s, a).history, ForfeitedOn(d)) >= Sum(s.history, ForfeitedOn(d))
    ensures Sum(Apply(c, s, a).history, CommittedOn(d)) >= Sum(s.history, CommittedOn(d))
  {
    hide Total, Sum;
    NewEventsKinds(c, s, a);
    NewEventsSum(c, s, a, CommittedOn(d));
    SumNonNegative(NewEvents(c, s, a), CommittedOn(d));
    NewEventsSum(c, s, a, ForfeitedOn(d));
    if a.Tick? {
      TotalNonNegative(DueHolds(s.store.holds, s.now + a.ticks), LiveOn(d));
      SumShort(NewEvents(c, s, a), ForfeitedOn(d));
    } else {
      SumZero(NewEvents(c, s, a), ForfeitedOn(d));
    }
  }

  lemma {:induction false} BookingsNonNegative(c: Config, start: nat, acts: seq<Action>, d: Day)
    ensures Sum(Run(c, start, acts).history, ForfeitedOn(d)) >= 0
    ensures Sum(Run(c, start, acts).history, CommittedOn(d)) >= 0
    decreases |acts|
  {
    if acts != [] {
      BookingsNonNegative(c, start, acts[..|acts| - 1], d);
      SaneRun(c, start, acts[..|acts| - 1]);
      BookingsStep(c, Run(c, start, acts[..|acts| - 1]), acts[|acts| - 1], d);
    }
  }

  // ---- main results on a day's counter ----

  /** Exactly the holds, spending, charges in flight and leaks of the day, in a key with a deadline;
      a day without a counter has no live hold and no charge in flight. */
  lemma CounterOutlivesHolds(patience: nat, c: Config, start: nat, acts: seq<Action>, d: Day)
    requires Punctual(patience, c, start, acts)
    ensures var s := Run(c, start, acts); var k := s.store.budget;
            && (d in k ==>
                  && k[d].deadline.At? && s.now < k[d].deadline.time && Horizon(d) <= k[d].deadline.time
                  && k[d].value == Total(s.store.holds, LiveOn(d)) + Sum(s.history, CommittedOn(d))
                       + Sum(s.history, ForfeitedOn(d)) + Total(s.tasks, PendingOn(d)) + Sum(s.history, LeakedOn(d)))
            && (d !in k ==> Total(s.store.holds, LiveOn(d)) == 0 && Total(s.tasks, PendingOn(d)) == 0)
  {
    hide Total, Sum;
    var s := Run(c, start, acts);
    InTimeRun(patience, c, start, acts);
    SaneRun(c, start, acts);
    if d in s.store.budget {
      BudgetExact(c, start, acts, d);
      NotRetired(s, d);
    } else {
      forall r | r in s.store.holds ensures LiveOn(d)(r, s.store.holds[r]) == 0 {
        assert HoldInTime(s.now, s.store, s.store.holds[r]);
      }
      TotalZero(s.store.holds, LiveOn(d));
      TotalZero(s.tasks, PendingOn(d));
    }
  }

  /** When no reply is lost, what a day really holds, spent and forfeited never passes its limit plus
      the recorded overage, and its counter is never below that and never negative. */
  lemma SpendingBounded(patience: nat, c: Config, start: nat, acts: seq<Action>, d: Day)
    requires Punctual(patience, c, start, acts) && NoLostReply(acts)
    ensures var s := Run(c, start, acts);
            var spending := Total(s.store.holds, LiveOn(d)) + Sum(s.history, CommittedOn(d))
                + Sum(s.history, ForfeitedOn(d));
            && spending + Total(s.tasks, PendingOn(d)) <= c.creditLimit + Sum(s.history, OverageOn(d))
            && (d in s.store.budget ==> 0 <= spending <= s.store.budget[d].value)
  {
    hide Total, Sum;
    var s := Run(c, start, acts);
    CounterOutlivesHolds(patience, c, start, acts, d);
    BudgetExact(c, start, acts, d);
    CappedRun(patience, c, start, acts, d);
    LeaksOnlyUp(c, start, acts, d);
    SaneRun(c, start, acts);
    LiveNonNegative(s, d);
    BookingsNonNegative(c, start, acts, d);
  }

  /** What a day's budget is taken up by: live holds, what was spent and forfeited, charges in flight, and leaks. */
  ghost function TakenUp(s: State, d: Day): int {
    Total(s.store.holds, LiveOn(d)) + Sum(s.history, CommittedOn(d)) + Sum(s.history, ForfeitedOn(d))
    + Total(s.tasks, PendingOn(d)) + Sum(s.history, LeakedOn(d))
  }

  /** Until a day's counters may expire, its counter shows what is taken up, a missing one nothing. */
  lemma CounterShows(patience: nat, c: Config, start: nat, acts: seq<Action>, d: Day)
    requires Punctual(patience, c, start, acts) && Run(c, start, acts).now < Horizon(d)
    ensures Read(Run(c, start, acts).store.budget, d) == TakenUp(Run(c, start, acts), d)
  {
    hide Total, Sum, Run, LiveOn, PendingOn, CommittedOn, ForfeitedOn, LeakedOn;
    var s := Run(c, start, acts);
    InTimeRun(patience, c, start, acts);
    BudgetExact(c, start, acts, d);
    SumZero(s.history, RetiredOn(d));
  }

  /** A request is refused for the budget exactly when what is taken up and its own credits pass the limit; or when lost
      replies have made the day's counter so low that the charge leaves it negative, which the handler
      takes for a refusal. */
  lemma RefusedForBudget(patience: nat, c: Config, start: nat, acts: seq<Action>, id: nat)
    requires Punctual(patience, c, start, acts) && Running(Run(c, start, acts), id)
    requires Run(c, start, acts).tasks[id].Creating? && Run(c, start, acts).tasks[id].phase.Charging?
    ensures var s := Run(c, start, acts); var k := s.tasks[id].ticket;
            var after := TakenUp(s, k.day) + k.req.credits;
            && (Successor(c, s, s.tasks[id], Ok) == Finished(BudgetExhausted) <==> after > c.creditLimit || after < 0)
            && (NoLostReply(acts) ==> after > 0)
  {
    hide Total, Sum, Run, LiveOn, PendingOn, CommittedOn, ForfeitedOn, LeakedOn, TakenUp, InTime, Sane;
    var s := Run(c, start, acts);
    var t := s.tasks[id];
    SaneRun(c, start, acts);
    InTimeRun(patience, c, start, acts);
    TaskOfInTime(patience, s, id);
    TicketBeforeHorizon(patience, s.now, t);
    CounterShows(patience, c, start, acts, t.ticket.day);
    TicketOfSane(s, id);
    ChargeRefused(s.store.budget, t.ticket.day, t.ticket.req.credits, c.creditLimit, s.now);
    if NoLostReply(acts) {
      SpendingBounded(patience, c, start, acts, t.ticket.day);
    }
  }

  lemma TaskOfInTime(patience: nat, s: State, id: nat)
    requires InTime(patience, s) && id in s.tasks
    ensures TaskInTime(patience, s.now, s.tasks[id])
  {
  }

  lemma TicketOfSane(s: State, id: nat)
    requires Sane(s) && id in s.tasks && s.tasks[id].Creating?
    ensures s.tasks[id].ticket.req.credits > 0
  {
  }

  lemma ChargeRefused(m: map<Day, Counter>, d: Day, amount: int, limit: int, now: nat)
    ensures ChargeUnder(m, d, amount, limit, now).1 < 0 <==> Read(m, d) + amount > limit || Read(m, d) + amount < 0
  {
  }

  /** As long as no reply is lost, failed calls and crashes only ever make the counter too high, however late
      handlers are: it never shows less than what the day holds, spent and forfeited. */
  lemma CounterNeverTooLow(c: Config, start: nat, acts: seq<Action>, d: Day)
    requires NoLostReply(acts)
    ensures var s := Run(c, start, acts);
            Read(s.store.budget, d) + Sum(s.history, RetiredOn(d))
            >= Total(s.store.holds, LiveOn(d)) + Sum(s.history, CommittedOn(d)) + Sum(s.history, ForfeitedOn(d))
  {
    hide Total, Sum;
    BudgetExact(c, start, acts, d);
    LeaksOnlyUp(c, start, acts, d);
    SaneRun(c, start, acts);
    LiveNonNegative(Run(c, start, acts), d);
  }

  lemma NoLeakStep(c: Config, s: State, a: Action, d: Day)
    requires Sane(s) && !a.Die? && (a.Call? ==> a.fault.Ok?)
    requires a.Call? && Running(s, a.id) && s.tasks[a.id].Creating? ==>
             Read(s.store.budget, s.tasks[a.id].ticket.day) >= 0
    ensures Sum(Apply(c, s, a).history, LeakedOn(d)) == Sum(s.history, LeakedOn(d))
  {
    hide Total, Sum;
    if a.Call? {
      if Running(s, a.id) {
        CallHistory(c, s, a.id, a.fault, LeakedOn(d));
        SumZero(EventsOf(c, s.store, s.now, OpOf(s.tasks[a.id])), LeakedOn(d));
      }
    } else {
      NewEventsSum(c, s, a, LeakedOn(d));
      SumZero(NewEvents(c, s, a), LeakedOn(d));
    }
  }

  /** Without faults and crashes nothing leaks, so the counter is exact to the credit. */
  lemma {:induction false} NothingLeaks(patience: nat, c: Config, start: nat, acts: seq<Action>, d: Day)
    requires Punctual(patience, c, start, acts) && Faultless(acts)
    ensures Sum(Run(c, start, acts).history, LeakedOn(d)) == 0
    decreases |acts|
  {
    if acts != [] {
      var before, a := acts[..|acts| - 1], acts[|acts| - 1];
      var s := Run(c, start, before);
      NothingLeaks(patience, c, start, before, d);
      SaneRun(c, start, before);
      assert a in acts;
      if a.Call? && Running(s, a.id) && s.tasks[a.id].Creating? {
        SpendingBounded(patience, c, start, before, s.tasks[a.id].ticket.day);
      }
      NoLeakStep(c, s, a, d);
    }
  }

  // ---- the request cap ----

  ghost function CountedOn(d: Day): Event -> int {
    (e: Event) => if e.Counted? && e.day == d then 1 else 0
  }

  ghost function RetiredRequestsOn(d: Day): Event -> int {
    (e: Event) => if e.Expired? then Read(e.retiredRequests, d) else 0
  }

  ghost predicate RequestsExact(c: Config, s: State, d: Day) {
    && Read(s.store.requests, d) + Sum(s.history, RetiredRequestsOn(d)) == Sum(s.history, CountedOn(d))
    && Sum(s.history, CountedOn(d)) <= c.requestLimit
  }

  lemma ExecRequests(c: Config, now: nat, s: Store, op: Op, d: Day)
    ensures var s' := Exec(c, now, s, op).0; var es := EventsOf(c, s, now, op);
            && Sum(es, RetiredRequestsOn(d)) == 0
            && Read(s'.requests, d) == Read(s.requests, d) + Sum(es, CountedOn(d))
            && Sum(es, CountedOn(d)) == (if op == CountRequest(d) && Read(s.requests, d) < c.requestLimit then 1 else 0)
  {
  }

  lemma RequestsCall(patience: nat, c: Config, s: State, id: nat, f: Fault, d: Day)
    requires InTime(patience, s) && Running(s, id) && RequestsExact(c, s, d)
    ensures RequestsExact(c, ApplyCall(c, s, id, f), d)
  {
    hide Total, Sum;
    var t := s.tasks[id];
    CallHistory(c, s, id, f, CountedOn(d));
    CallHistory(c, s, id, f, RetiredRequestsOn(d));
    ExecRequests(c, s.now, s.store, OpOf(t), d);
    if OpOf(t) == CountRequest(d) {
      TicketBeforeHorizon(patience, s.now, t);
      SumZero(s.history, RetiredRequestsOn(d));
    }
  }

  lemma RequestsTick(c: Config, s: State, dt: nat, d: Day)
    requires RequestsExact(c, s, d)
    ensures RequestsExact(c, Apply(c, s, Tick(dt)), d)
  {
    hide Sum, DueHolds;
    var expired := [Expirations(s.store, s.now + dt)];
    SumAppend(s.history, expired, RetiredRequestsOn(d));
    SumShort(expired, RetiredRequestsOn(d));
    SumAppend(s.history, expired, CountedOn(d));
    SumZero(expired, CountedOn(d));
    DueCounterRead(s.store.requests, s.now + dt, d);
  }

  lemma RequestsStep(patience: nat, c: Config, s: State, a: Action, d: Day)
    requires InTime(patience, s) && RequestsExact(c, s, d)
    ensures RequestsExact(c, Apply(c, s, a), d)
  {
    hide Total, Sum;
    match a
    case Begin(_, _) =>
    case Call(id, f) => if Running(s, id) { RequestsCall(patience, c, s, id, f, d); }
    case Tick(dt) => RequestsTick(c, s, dt, d);
    case Die(_) =>
      NewEventsSum(c, s, a, CountedOn(d));
      NewEventsSum(c, s, a, RetiredRequestsOn(d));
      SumZero(NewEvents(c, s, a), CountedOn(d));
      SumZero(NewEvents(c, s, a), RetiredRequestsOn(d));
  }

  /** Over the whole run, whatever keys expire, a date admits at most requestLimit requests. */
  lemma {:induction false} RequestsCapped(patience: nat, c: Config, start: nat, acts: seq<Action>, d: Day)
    requires Punctual(patience, c, start, acts)
    ensures RequestsExact(c, Run(c, start, acts), d)
    decreases |acts|
  {
    if acts != [] {
      var before := acts[..|acts| - 1];
      RequestsCapped(patience, c, start, before, d);
      InTimeRun(patience, c, start, before);
      SaneRun(c, start, before);
      RequestsStep(patience, c, Run(c, start, before), acts[|acts| - 1], d);
    }
  }
}

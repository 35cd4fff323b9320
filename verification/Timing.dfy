/** The 25 hour counter outlives every hold charged to it, when handlers take at most `patience`
    ticks from reading the date and no reservation asks for more than an hour less that. */
module Timing {
  import opened Sums
  import opened Redis
  import opened Protocol
  import opened Budget

  /** The hour by which a counter's TTL exceeds a day. */
  const SLACK := COUNTER_TTL - DAY

  /** The clock never passes a create handler that is still in flight after its patience. */
  ghost predicate PunctualStep(patience: nat, s: State, a: Action) {
    && (a.Tick? ==> forall i | i in s.tasks && s.tasks[i].Creating? ::
          s.now + a.ticks <= s.tasks[i].ticket.since + patience)
    && (a.Begin? && a.job.Reserve? ==> a.job.req.Ttl() + patience <= SLACK)
  }

  ghost predicate Punctual(patience: nat, c: Config, start: nat, acts: seq<Action>)
    decreases |acts|
  {
    acts == [] ||
    (Punctual(patience, c, start, acts[..|acts| - 1])
     && PunctualStep(patience, Run(c, start, acts[..|acts| - 1]), acts[|acts| - 1]))
  }

  ghost predicate TaskInTime(patience: nat, now: nat, t: Task) {
    t.Creating? ==>
      && t.ticket.day == DayOf(t.ticket.since)
      && t.ticket.since <= now <= t.ticket.since + patience
      && t.ticket.req.Ttl() + patience <= SLACK
  }

  ghost predicate HoldInTime(now: nat, s: Store, h: Hold) {
    h.stamp.On? && h.deadline.At? && now < h.deadline.time
    && (h.status == Reserved ==> h.deadline.time <= Horizon(h.stamp.day) && h.stamp.day in s.budget)
  }

  ghost predicate CounterInTime(now: nat, d: Day, k: Counter) {
    k.deadline.At? && now < k.deadline.time && Horizon(d) <= k.deadline.time
  }

  /** Every key has a deadline; live holds end before their day's counter does. */
  ghost predicate StoreInTime(now: nat, s: Store) {
    && (forall r | r in s.holds :: HoldInTime(now, s, s.holds[r]))
    && (forall d | d in s.budget :: CounterInTime(now, d, s.budget[d]))
    && (forall d | d in s.requests :: CounterInTime(now, d, s.requests[d]) && s.requests[d].value > 0)
  }

  /** A call that a handler in time may make. */
  ghost predicate OpInTime(now: nat, s: Store, op: Op) {
    match op
    case CountRequest(d) => d * DAY <= now
    case ChargeBudget(d, _) => d * DAY <= now
    case PlaceHold(_, _, _, ttl, d) => 0 < ttl && now + ttl <= Horizon(d) && d in s.budget
    case AdjustBudget(d, _) => d in s.budget
    case _ => true
  }

  lemma SettleInTime(now: nat, s: Store, st: Settlement, stamp: Stamp)
    requires StoreInTime(now, s)
    ensures var s' := Settle(s, st, stamp, now);
            StoreInTime(now, s') && s'.budget.Keys == s.budget.Keys && s'.requests == s.requests
  {
    if Judge(s, st, stamp) == Effective {
      var s' := Settle(s, st, stamp, now);
      assert HoldInTime(now, s, s.holds[st.res]);
      assert s'.budget.Keys == s.budget.Keys;
      assert forall r | r in s.holds && r != st.res :: s'.holds[r] == s.holds[r];
    }
  }

  lemma CountInTime(now: nat, s: Store, d: Day, limit: int)
    requires StoreInTime(now, s) && d * DAY <= now
    ensures var m := CountUnder(s.requests, d, limit, now).0;
            StoreInTime(now, s.(requests := m)) && s.requests.Keys <= m.Keys <= s.requests.Keys + {d}
  {
  }

  lemma ChargeInTime(now: nat, s: Store, d: Day, amount: int, limit: int)
    requires StoreInTime(now, s) && d * DAY <= now
    ensures var m := ChargeUnder(s.budget, d, amount, limit, now).0;
            StoreInTime(now, s.(budget := m)) && s.budget.Keys <= m.Keys <= s.budget.Keys + {d}
  {
  }

  lemma PlaceInTime(now: nat, s: Store, r: ResId, u: UserId, amount: int, ttl: nat, d: Day)
    requires StoreInTime(now, s) && 0 < ttl && now + ttl <= Horizon(d) && d in s.budget
    ensures StoreInTime(now, Place(s, r, u, amount, ttl, On(d), now))
  {
  }

  lemma AdjustInTime(now: nat, s: Store, d: Day, delta: int)
    requires StoreInTime(now, s) && d in s.budget
    ensures StoreInTime(now, s.(budget := Bump(s.budget, d, delta)))
  {
  }

  lemma MoneyInTime(now: nat, s: Store, balances: map<UserId, int>, purchases: map<(UserId, Day), Counter>)
    requires StoreInTime(now, s)
    ensures StoreInTime(now, s.(balances := balances, purchases := purchases))
  {
  }

  /** Calls in time keep the store in time, drop no counter, and start counters only for their own day. */
  lemma ExecInTime(c: Config, now: nat, s: Store, op: Op)
    requires StoreInTime(now, s) && OpInTime(now, s, op)
    ensures var s' := Exec(c, now, s, op).0;
            && StoreInTime(now, s')
            && s.budget.Keys <= s'.budget.Keys <= s.budget.Keys + (if op.ChargeBudget? then {op.day} else {})
            && s.requests.Keys <= s'.requests.Keys <= s.requests.Keys + (if op.CountRequest? then {op.day} else {})
  {
    hide Settle, StoreInTime, CountUnder, ChargeUnder;
    match op
    case CountRequest(d) => CountInTime(now, s, d, c.requestLimit);
    case ChargeBudget(d, a) => ChargeInTime(now, s, d, a, c.creditLimit);
    case PlaceHold(r, u, a, ttl, d) => PlaceInTime(now, s, r, u, a, ttl, d);
    case AdjustBudget(d, delta) => AdjustInTime(now, s, d, delta);
    case SettleHold(st, stamp) => SettleInTime(now, s, st, stamp);
    case ReadStamp(_) =>
    case _ =>
      var s' := Exec(c, now, s, op).0;
      MoneyInTime(now, s, s'.balances, s'.purchases);
  }

  /** A key that expired stays away: its day's handlers and holds are over. */
  ghost predicate RetiredForGood(s: State) {
    forall e | e in s.history && e.Expired? ::
      && (forall d | d in e.retired :: Horizon(d) <= s.now && d !in s.store.budget)
      && (forall d | d in e.retiredRequests :: Horizon(d) <= s.now && d !in s.store.requests)
  }

  ghost predicate InTime(patience: nat, s: State) {
    && StoreInTime(s.now, s.store)
    && RetiredForGood(s)
    && (forall i | i in s.tasks :: TaskInTime(patience, s.now, s.tasks[i]))
    && (forall i | i in s.tasks && PendingAmount(s.tasks[i]) > 0 :: s.tasks[i].ticket.day in s.store.budget)
  }

  lemma TicketBeforeHorizon(patience: nat, now: nat, t: Task)
    requires t.Creating? && TaskInTime(patience, now, t)
    ensures t.ticket.day * DAY <= now
    ensures now + t.ticket.req.Ttl() <= Horizon(t.ticket.day)
    ensures now < Horizon(t.ticket.day)
  {
  }

  lemma TaskCallsInTime(patience: nat, s: State, id: nat)
    requires Sane(s) && InTime(patience, s) && Running(s, id)
    ensures OpInTime(s.now, s.store, OpOf(s.tasks[id]))
  {
  }

  /** A handler starts to answer for a charge only when its day's counter exists. */
  lemma SuccessorPending(c: Config, s: State, t: Task, f: Fault)
    requires !t.Finished?
    ensures PendingAmount(Successor(c, s, t, f)) > 0 ==>
              PendingAmount(t) > 0 || (f.Ok? && t.Creating?
                  && t.ticket.day in Exec(c, s.now, s.store, OpOf(t)).0.budget)
  {
  }

  lemma StaysRetired(patience: nat, c: Config, s: State, id: nat, f: Fault)
    requires InTime(patience, s) && Running(s, id)
    requires OpInTime(s.now, s.store, OpOf(s.tasks[id]))
    ensures RetiredForGood(ApplyCall(c, s, id, f))
  {
    hide Exec, OpOf, Successor, EventsOf, LeakOf, Leak, StoreInTime, TaskInTime, OpInTime;
    var t := s.tasks[id];
    var s' := ApplyCall(c, s, id, f);
    ExecInTime(c, s.now, s.store, OpOf(t));
    StartsOwnDay(t);
    if t.Creating? {
      TicketBeforeHorizon(patience, s.now, t);
    }
    forall e | e in s'.history && e.Expired?
      ensures e in s.history
    {
      ExpiresNothing(c, s, id, f, e);
    }
  }

  lemma StartsOwnDay(t: Task)
    requires !t.Finished?
    ensures OpOf(t).ChargeBudget? || OpOf(t).CountRequest? ==> t.Creating? && OpOf(t).day == t.ticket.day
  {
  }

  lemma ExpiresNothing(c: Config, s: State, id: nat, f: Fault, e: Event)
    requires Running(s, id) && e.Expired? && e in ApplyCall(c, s, id, f).history
    ensures e in s.history
  {
  }

  lemma InTimeCall(patience: nat, c: Config, s: State, id: nat, f: Fault)
    requires Sane(s) && InTime(patience, s) && Running(s, id)
    ensures InTime(patience, ApplyCall(c, s, id, f))
  {
    hide Exec, OpOf, Successor, EventsOf, LeakOf, Leak, StoreInTime, RetiredForGood, OpInTime, Sane;
    var t := s.tasks[id];
    TaskCallsInTime(patience, s, id);
    StaysRetired(patience, c, s, id, f);
    ExecInTime(c, s.now, s.store, OpOf(t));
    SuccessorPending(c, s, t, f);
    SuccessorKeepsTicket(c, s, t, f);
  }

  lemma PurgeInTime(now: nat, s: Store, later: nat)
    requires StoreInTime(now, s) && now <= later
    ensures StoreInTime(later, Purge(s, later))
  {
  }

  lemma CounterStays(now: nat, s: Store, later: nat, d: Day)
    requires StoreInTime(now, s) && d in s.budget && later < Horizon(d)
    ensures d in Purge(s, later).budget
  {
  }

  lemma RetiredTick(c: Config, s: State, dt: nat)
    requires StoreInTime(s.now, s.store) && RetiredForGood(s)
    ensures RetiredForGood(Apply(c, s, Tick(dt)))
  {
  }

  lemma InTimeTick(patience: nat, c: Config, s: State, dt: nat)
    requires InTime(patience, s) && PunctualStep(patience, s, Tick(dt))
    ensures InTime(patience, Apply(c, s, Tick(dt)))
  {
    hide StoreInTime, RetiredForGood, Purge;
    var s' := Apply(c, s, Tick(dt));
    PurgeInTime(s.now, s.store, s'.now);
    RetiredTick(c, s, dt);
    forall i | i in s'.tasks && s'.tasks[i].Creating?
      ensures TaskInTime(patience, s'.now, s'.tasks[i])
      ensures PendingAmount(s'.tasks[i]) > 0 ==> s'.tasks[i].ticket.day in s'.store.budget
    {
      assert TaskInTime(patience, s.now, s.tasks[i]);
      TicketBeforeHorizon(patience, s'.now, s'.tasks[i]);
      if PendingAmount(s'.tasks[i]) > 0 {
        CounterStays(s.now, s.store, s'.now, s'.tasks[i].ticket.day);
      }
    }
  }

  lemma InTimeStep(patience: nat, c: Config, s: State, a: Action)
    requires Sane(s) && InTime(patience, s) && PunctualStep(patience, s, a)
    ensures InTime(patience, Apply(c, s, a))
  {
    hide ApplyCall, Purge, Sane, StoreInTime;
    match a
    case Begin(_, _) =>
    case Call(id, f) => if Running(s, id) { InTimeCall(patience, c, s, id, f); }
    case Tick(dt) => InTimeTick(patience, c, s, dt);
    case Die(id) =>
  }

  lemma {:induction false} InTimeRun(patience: nat, c: Config, start: nat, acts: seq<Action>)
    requires Punctual(patience, c, start, acts)
    ensures InTime(patience, Run(c, start, acts))
    decreases |acts|
  {
    if acts != [] {
      var s := Run(c, start, acts[..|acts| - 1]);
      InTimeRun(patience, c, start, acts[..|acts| - 1]);
      SaneRun(c, start, acts[..|acts| - 1]);
      InTimeStep(patience, c, s, acts[|acts| - 1]);
    }
  }

  // ---- the clock ----

  /** The clock takes every key whose deadline it reaches, of any kind, and leaves the others as they are. */
  lemma ClockTakesTheDue(c: Config, state: State, dt: nat)
    ensures var s := state.store; var s' := Apply(c, state, Tick(dt)).store; var now := state.now + dt;
            && s'.balances == s.balances
            && (forall r :: r in s'.holds <==>
                  r in s.holds && (s.holds[r].deadline.At? ==> now < s.holds[r].deadline.time))
            && (forall d :: d in s'.budget <==>
                  d in s.budget && (s.budget[d].deadline.At? ==> now < s.budget[d].deadline.time))
            && (forall d :: d in s'.requests <==>
                  d in s.requests && (s.requests[d].deadline.At? ==> now < s.requests[d].deadline.time))
            && (forall k :: k in s'.purchases <==>
                  k in s.purchases && (s.purchases[k].deadline.At? ==> now < s.purchases[k].deadline.time))
            && (forall r | r in s'.holds :: s'.holds[r] == s.holds[r])
            && (forall d | d in s'.budget :: s'.budget[d] == s.budget[d])
            && (forall d | d in s'.requests :: s'.requests[d] == s.requests[d])
            && (forall k | k in s'.purchases :: s'.purchases[k] == s.purchases[k])
  {
  }

  ghost predicate Ahead<K(!new)>(m: map<K, Counter>, now: nat) {
    forall k | k in m :: m[k].deadline.At? ==> now < m[k].deadline.time
  }

  ghost predicate HoldsAhead(m: map<ResId, Hold>, now: nat) {
    forall r | r in m :: m[r].deadline.At? ==> now < m[r].deadline.time
  }

  ghost predicate NothingDue(now: nat, s: Store) {
    HoldsAhead(s.holds, now) && Ahead(s.budget, now) && Ahead(s.requests, now) && Ahead(s.purchases, now)
  }

  lemma CountAhead<K(!new)>(m: map<K, Counter>, k: K, limit: int, now: nat)
    requires Ahead(m, now)
    ensures Ahead(CountUnder(m, k, limit, now).0, now)
  {
  }

  lemma ChargeAhead(m: map<Day, Counter>, d: Day, amount: int, limit: int, now: nat)
    requires Ahead(m, now)
    ensures Ahead(ChargeUnder(m, d, amount, limit, now).0, now)
  {
  }

  lemma BumpAhead(m: map<Day, Counter>, d: Day, delta: int, now: nat)
    requires Ahead(m, now)
    ensures Ahead(Bump(m, d, delta), now)
  {
  }

  lemma SettleAhead(now: nat, s: Store, st: Settlement, stamp: Stamp)
    requires NothingDue(now, s)
    ensures NothingDue(now, Settle(s, st, stamp, now))
  {
    hide Ahead, Bump;
    if Judge(s, st, stamp) == Effective {
      BumpAhead(s.budget, if stamp.On? then stamp.day else 0, Kept(st) - s.holds[st.res].amount, now);
    }
  }

  lemma ExecStartsNothingDue(c: Config, now: nat, s: Store, op: Op)
    requires NothingDue(now, s) && (op.PlaceHold? ==> op.ttl > 0)
    ensures NothingDue(now, Exec(c, now, s, op).0)
  {
    hide Ahead, CountUnder, ChargeUnder, Bump, Settle;
    match op
    case CountRequest(d) => CountAhead(s.requests, d, c.requestLimit, now);
    case CountPurchase(u, d) => CountAhead(s.purchases, (u, d), c.purchaseLimit, now);
    case ChargeBudget(d, a) => ChargeAhead(s.budget, d, a, c.creditLimit, now);
    case AdjustBudget(d, delta) => BumpAhead(s.budget, d, delta, now);
    case SettleHold(st, stamp) => SettleAhead(now, s, st, stamp);
    case _ =>
  }

  lemma HoldsLast(t: Task)
    requires !t.Finished?
    ensures OpOf(t).PlaceHold? ==> OpOf(t).ttl > 0
  {
  }

  /** In every run, no key is there at its deadline or after it. */
  lemma {:induction false} NothingOverdue(c: Config, start: nat, acts: seq<Action>)
    ensures NothingDue(Run(c, start, acts).now, Run(c, start, acts).store)
    decreases |acts|
  {
    hide NothingDue, Exec, OpOf, Purge, Leak, LeakOf, EventsOf;
    if acts == [] {
      EmptyIsNotDue(start);
    } else {
      var s, a := Run(c, start, acts[..|acts| - 1]), acts[|acts| - 1];
      NothingOverdue(c, start, acts[..|acts| - 1]);
      if a.Call? && Running(s, a.id) {
        HoldsLast(s.tasks[a.id]);
        ExecStartsNothingDue(c, s.now, s.store, OpOf(s.tasks[a.id]));
      } else if a.Tick? {
        AfterTick(c, s, a.ticks);
      }
    }
  }

  lemma EmptyIsNotDue(now: nat)
    ensures NothingDue(now, EMPTY_STORE)
  {
  }

  lemma AfterTick(c: Config, s: State, dt: nat)
    ensures NothingDue(s.now + dt, Apply(c, s, Tick(dt)).store)
  {
    hide Purge;
    ClockTakesTheDue(c, s, dt);
  }
}

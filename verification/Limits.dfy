/** What the assumptions of the other results are for: runs that break without them. */
module Limits {
  import opened Sums
  import opened Redis
  import opened Protocol
  import opened Budget
  import opened Timing
  import opened UsageServer

  /** A handler that makes all its calls at once. */
  function AtOnce(id: nat, job: Job): seq<Action> { [Begin(id, job)] + Calls(id, 5) }

  lemma AtOnceRun(c: Config, start: nat, acts: seq<Action>, id: nat, job: Job)
    requires id !in Run(c, start, acts).tasks && Admissible(Run(c, start, acts), job)
    ensures var s := Run(c, start, acts); var s' := Run(c, start, acts + AtOnce(id, job));
            && s'.store == Alone(c, s.now, s.store, FirstTask(job, s.now)).0
            && s'.now == s.now && s'.tasks == s.tasks[id := Finished(Alone(c, s.now, s.store, FirstTask(job, s.now)).1)]
            && s'.jobs == s.jobs[id := job] && s'.used == s.used + (if job.Reserve? then {job.req.res} else {})
  {
    hide Run, Alone;
    RunOn(c, start, acts, Begin(id, job));
    assert acts + AtOnce(id, job) == acts + [Begin(id, job)] + Calls(id, 5);
    HandlerIsRun(c, start, acts + [Begin(id, job)], id, 5);
  }

  // ---- a hold that outlives its day's counter ----

  const FIRST_REQUEST := Request("res_a", "user", 1, 120)

  function LateRequest(ttl: int): Request { Request("res_b", "user", 1, ttl) }

  /** Reserve at midnight, reserve in the last tick of the day for ttl seconds, wait for the counter to expire,
      release. */
  function Overstay(ttl: int): seq<Action> {
    AtOnce(0, Reserve(FIRST_REQUEST)) + [Tick(DAY - 1)]
    + AtOnce(1, Reserve(LateRequest(ttl))) + [Tick(SLACK + 1)]
    + AtOnce(2, Reconcile(Release("res_b", "user")))
  }

  predicate Roomy(c: Config) { c.requestLimit >= 2 && c.creditLimit >= 2 && c.initialCredits >= 2 }

  lemma AfterFirst(c: Config)
    requires Roomy(c)
    ensures var s := Run(c, 0, AtOnce(0, Reserve(FIRST_REQUEST)));
            && s.now == 0 && s.tasks.Keys == {0} && s.used == {"res_a"}
            && s.store.budget == map[0 := Counter(1, At(COUNTER_TTL))]
            && s.store.requests == map[0 := Counter(1, At(COUNTER_TTL))]
            && s.store.balances == map["user" := c.initialCredits - 1]
  {
    hide Alone;
    var acts: seq<Action> := [];
    assert acts + AtOnce(0, Reserve(FIRST_REQUEST)) == AtOnce(0, Reserve(FIRST_REQUEST));
    AtOnceRun(c, 0, acts, 0, Reserve(FIRST_REQUEST));
    CreateAlone(c, 0, EMPTY_STORE, FIRST_REQUEST);
  }

  lemma AfterNoon(c: Config, s: State)
    requires s.store.budget == map[0 := Counter(1, At(COUNTER_TTL))] && s.now == 0
    requires s.store.requests == map[0 := Counter(1, At(COUNTER_TTL))]
    ensures var s' := Apply(c, s, Tick(DAY - 1));
            && s'.now == DAY - 1 && s'.tasks == s.tasks && s'.used == s.used
            && s'.store.budget == s.store.budget && s'.store.requests == s.store.requests
               && s'.store.balances == s.store.balances
  {
  }

  lemma AfterSecond(c: Config, acts: seq<Action>, ttl: nat)
    requires Roomy(c) && ttl > 0
    requires var s := Run(c, 0, acts);
             && s.now == DAY - 1 && s.tasks.Keys == {0} && s.used == {"res_a"}
             && s.store.budget == map[0 := Counter(1, At(COUNTER_TTL))]
             && s.store.requests == map[0 := Counter(1, At(COUNTER_TTL))]
             && s.store.balances == map["user" := c.initialCredits - 1]
    ensures var s := Run(c, 0, acts + AtOnce(1, Reserve(LateRequest(ttl))));
            && s.now == DAY - 1 && s.tasks.Keys == {0, 1}
            && s.store.budget == map[0 := Counter(2, At(COUNTER_TTL))]
            && "res_b" in s.store.holds
            && s.store.holds["res_b"] == Hold("user", 1, Reserved, On(0), At(DAY - 1 + ttl * SECOND))
  {
    hide Alone, Run, ChargeUnder, CountUnder;
    var s := Run(c, 0, acts);
    AtOnceRun(c, 0, acts, 1, Reserve(LateRequest(ttl)));
    CreateAlone(c, s.now, s.store, LateRequest(ttl));
    ChargeSecond(c.creditLimit, s.now);
  }

  lemma ChargeSecond(limit: nat, now: nat)
    requires limit >= 2
    ensures ChargeUnder(map[0 := Counter(1, At(COUNTER_TTL))], 0, 1, limit, now).0
            == map[0 := Counter(2, At(COUNTER_TTL))]
  {
  }

  lemma AfterMidnight(c: Config, s: State, h: Hold)
    requires s.store.budget == map[0 := Counter(2, At(COUNTER_TTL))] && s.now == DAY - 1
    requires "res_b" in s.store.holds && s.store.holds["res_b"] == h && h.deadline.At? && h.deadline.time > COUNTER_TTL
    ensures var s' := Apply(c, s, Tick(SLACK + 1));
            && s'.tasks == s.tasks && s'.store.budget == map[] && "res_b" in s'.store.holds
               && s'.store.holds["res_b"] == h
  {
  }

  /** A TTL of one second more than the hour is enough: with handlers that take no time at all, the release
      recreates the expired counter, below zero and for good. */
  lemma LongHoldsBreakTheCounter(c: Config, ttl: nat)
    requires Roomy(c) && ttl * SECOND > SLACK
    ensures Run(c, 0, Overstay(ttl)).store.budget == map[0 := Counter(-1, Never)]
  {
    hide Alone, Run, AtOnce, Apply;
    var a1 := AtOnce(0, Reserve(FIRST_REQUEST));
    var a2 := a1 + [Tick(DAY - 1)];
    var a3 := a2 + AtOnce(1, Reserve(LateRequest(ttl)));
    var a4 := a3 + [Tick(SLACK + 1)];
    AfterFirst(c);
    RunOn(c, 0, a1, Tick(DAY - 1));
    AfterNoon(c, Run(c, 0, a1));
    AfterSecond(c, a2, ttl);
    RunOn(c, 0, a3, Tick(SLACK + 1));
    var s := Run(c, 0, a3);
    AfterMidnight(c, s, s.store.holds["res_b"]);
    AtOnceRun(c, 0, a4, 2, Reconcile(Release("res_b", "user")));
    SettlingAlone(c, Run(c, 0, a4).now, Run(c, 0, a4).store, Release("res_b", "user"));
  }

  // ---- the exact limit on TTLs ----

  /** No time passes while a create handler is in flight, and no reservation asks for more than ttl seconds. */
  ghost predicate Instant(ttl: nat, c: Config, start: nat, acts: seq<Action>)
    decreases |acts|
  {
    acts == [] ||
    (Instant(ttl, c, start, acts[..|acts| - 1])
     && InstantStep(ttl, Run(c, start, acts[..|acts| - 1]), acts[|acts| - 1]))
  }

  ghost predicate InstantStep(ttl: nat, s: State, a: Action) {
    && (a.Tick? && a.ticks > 0 ==> forall i | i in s.tasks :: !s.tasks[i].Creating?)
    && (a.Begin? && a.job.Reserve? ==> a.job.req.Ttl() <= ttl * SECOND)
  }

  /** Every counter that a run leaves will expire. */
  ghost predicate Expiring(s: State) { forall d | d in s.store.budget :: s.store.budget[d].deadline.At? }

  ghost predicate Safe(c: Config, ttl: nat) {
    forall start, acts :: Instant(ttl, c, start, acts) ==> Expiring(Run(c, start, acts))
  }

  lemma {:induction false} InstantIsPunctual(ttl: nat, c: Config, start: nat, acts: seq<Action>)
    requires Instant(ttl, c, start, acts) && ttl * SECOND <= SLACK
    ensures Punctual(0, c, start, acts)
    decreases |acts|
  {
    if acts != [] {
      hide Run;
      var before := acts[..|acts| - 1];
      InstantIsPunctual(ttl, c, start, before);
      InTimeRun(0, c, start, before);
      TicksWait(ttl, Run(c, start, before), acts[|acts| - 1]);
    }
  }

  lemma TicksWait(ttl: nat, s: State, a: Action)
    requires InstantStep(ttl, s, a) && InTime(0, s) && ttl * SECOND <= SLACK
    ensures PunctualStep(0, s, a)
  {
  }

  lemma {:induction false} CallsAreInstant(ttl: nat, c: Config, start: nat, acts: seq<Action>, id: nat, n: nat)
    requires Instant(ttl, c, start, acts)
    ensures Instant(ttl, c, start, acts + Calls(id, n))
    decreases n
  {
    hide Run;
    if n == 0 {
      assert acts + Calls(id, 0) == acts;
    } else {
      CallsAreInstant(ttl, c, start, acts, id, n - 1);
      InstantOneMore(ttl, c, start, acts + Calls(id, n - 1), Call(id, Ok));
      assert acts + Calls(id, n) == acts + Calls(id, n - 1) + [Call(id, Ok)];
    }
  }

  lemma InstantOneMore(ttl: nat, c: Config, start: nat, acts: seq<Action>, a: Action)
    requires Instant(ttl, c, start, acts) && InstantStep(ttl, Run(c, start, acts), a)
    ensures Instant(ttl, c, start, acts + [a])
  {
    hide Run;
    assert (acts + [a])[..|acts + [a]| - 1] == acts;
  }

  lemma AtOnceIsInstant(ttl: nat, c: Config, start: nat, acts: seq<Action>, id: nat, job: Job)
    requires Instant(ttl, c, start, acts) && (job.Reserve? ==> job.req.Ttl() <= ttl * SECOND)
    requires id !in Run(c, start, acts).tasks && Admissible(Run(c, start, acts), job)
    requires forall i | i in Run(c, start, acts).tasks :: !Run(c, start, acts).tasks[i].Creating?
    ensures Instant(ttl, c, start, acts + AtOnce(id, job))
    ensures forall i | i in Run(c, start, acts + AtOnce(id, job)).tasks ::
            !Run(c, start, acts + AtOnce(id, job)).tasks[i].Creating?
  {
    hide Run, Alone;
    InstantOneMore(ttl, c, start, acts, Begin(id, job));
    CallsAreInstant(ttl, c, start, acts + [Begin(id, job)], id, 5);
    assert acts + AtOnce(id, job) == acts + [Begin(id, job)] + Calls(id, 5);
    RunOn(c, start, acts, Begin(id, job));
    HandlerIsRun(c, start, acts + [Begin(id, job)], id, 5);
  }

  lemma OverstayIsInstant(c: Config, ttl: nat)
    requires Roomy(c) && ttl * SECOND > SLACK
    ensures Instant(ttl, c, 0, Overstay(ttl))
  {
    hide Run, Alone, AtOnce, Apply, Instant;
    var a1 := AtOnce(0, Reserve(FIRST_REQUEST));
    var a2 := a1 + [Tick(DAY - 1)];
    var a3 := a2 + AtOnce(1, Reserve(LateRequest(ttl)));
    var a4 := a3 + [Tick(SLACK + 1)];
    assert [] + a1 == a1;
    StartIsInstant(ttl, c);
    AtOnceIsInstant(ttl, c, 0, [], 0, Reserve(FIRST_REQUEST));
    AfterFirst(c);
    InstantOneMore(ttl, c, 0, a1, Tick(DAY - 1));
    RunOn(c, 0, a1, Tick(DAY - 1));
    AfterNoon(c, Run(c, 0, a1));
    AtOnceIsInstant(ttl, c, 0, a2, 1, Reserve(LateRequest(ttl)));
    AfterSecond(c, a2, ttl);
    InstantOneMore(ttl, c, 0, a3, Tick(SLACK + 1));
    RunOn(c, 0, a3, Tick(SLACK + 1));
    AfterMidnight(c, Run(c, 0, a3), Run(c, 0, a3).store.holds["res_b"]);
    AtOnceIsInstant(ttl, c, 0, a4, 2, Reconcile(Release("res_b", "user")));
  }

  lemma StartIsInstant(ttl: nat, c: Config)
    ensures Instant(ttl, c, 0, []) && Run(c, 0, []) == Init(0)
  {
  }

  /** With handlers that take no time, the longest TTL that keeps every counter expiring is one hour, exactly. */
  lemma TtlLimitIsExact(c: Config, ttl: nat)
    requires Roomy(c)
    ensures Safe(c, ttl) <==> ttl <= 3600
  {
    hide Run, Instant, Overstay;
    if ttl * SECOND <= SLACK {
      forall start, acts | Instant(ttl, c, start, acts)
        ensures Expiring(Run(c, start, acts))
      {
        InstantIsPunctual(ttl, c, start, acts);
        InTimeRun(0, c, start, acts);
      }
    } else {
      OverstayIsInstant(c, ttl);
      LongHoldsBreakTheCounter(c, ttl);
      assert 0 in Run(c, 0, Overstay(ttl)).store.budget;
    }
  }

  // ---- debt ----

  /** A commit that takes place leaves a debt exactly when it charges more than the balance and the hold together. */
  lemma DebtExactly(s: Store, r: ResId, u: UserId, actual: nat, stamp: Stamp, now: nat)
    requires Judge(s, Commit(r, u, actual), stamp) == Effective
    ensures var s' := Settle(s, Commit(r, u, actual), stamp, now);
            && Balance(s', u) == Balance(s, u) + s.holds[r].amount - actual
            && (Balance(s', u) < 0 <==> Balance(s, u) + s.holds[r].amount < actual)
  {
  }

  /** And it is answered as a success: one reservation of one credit, committed for any amount. */
  lemma DebtIsReachable(c: Config, actual: nat)
    requires Roomy(c)
    ensures var st := Commit("res_a", "user", actual);
            var s := Run(c, 0, AtOnce(0, Reserve(FIRST_REQUEST)) + AtOnce(1, Reconcile(st)));
            && 1 in s.tasks && s.tasks[1] == Finished(Settled)
            && Balance(s.store, "user") == c.initialCredits - actual
            && (Balance(s.store, "user") < 0 <==> actual > c.initialCredits)
  {
    hide AloneWith, Run, AtOnce, Settle;
    var a1 := AtOnce(0, Reserve(FIRST_REQUEST));
    var st := Commit("res_a", "user", actual);
    assert [] + a1 == a1;
    StartsEmpty(c);
    AtOnceRun(c, 0, [], 0, Reserve(FIRST_REQUEST));
    CreateAlone(c, 0, EMPTY_STORE, FIRST_REQUEST);
    var s1 := Run(c, 0, a1);
    AtOnceRun(c, 0, a1, 1, Reconcile(st));
    SettlingAlone(c, s1.now, s1.store, st);
    DebtExactly(s1.store, "res_a", "user", actual, StampOf(s1.store, "res_a"), s1.now);
  }

  lemma StartsEmpty(c: Config)
    ensures Run(c, 0, []) == Init(0)
  {
  }

  // ---- a failed grant ----

  /** A handler whose grant fails after the day was charged: it is over, and one credit is counted for no hold. */
  lemma FailedGrantOvercounts(c: Config)
    requires Roomy(c)
    ensures var s := Run(c, 0, [Begin(0, Reserve(FIRST_REQUEST)), Call(0, Ok), Call(0, Ok), Call(0, NoEffect)]);
            && s.tasks == map[0 := Finished(ServerError)] && s.store.holds == map[]
            && Read(s.store.budget, 0) == 1 && s.history == [Counted(0), Leaked(0, 1)]
  {
    hide Run, Apply;
    var begin := Begin(0, Reserve(FIRST_REQUEST));
    StartsEmpty(c);
    RunOn(c, 0, [], begin);
    RunOn(c, 0, [begin], Call(0, Ok));
    RunOn(c, 0, [begin, Call(0, Ok)], Call(0, Ok));
    RunOn(c, 0, [begin, Call(0, Ok), Call(0, Ok)], Call(0, NoEffect));
    FailingGrant(c);
    assert [] + [begin] == [begin] && [begin] + [Call(0, Ok)] == [begin, Call(0, Ok)];
    assert [begin, Call(0, Ok)] + [Call(0, Ok)] == [begin, Call(0, Ok), Call(0, Ok)];
    assert [begin, Call(0, Ok), Call(0, Ok)] + [Call(0, NoEffect)]
           == [begin, Call(0, Ok), Call(0, Ok), Call(0, NoEffect)];
  }

  /** A create handler for the first request, at midnight. */
  predicate Handling(s: State, t: Task, history: seq<Event>) {
    s.now == 0 && s.tasks == map[0 := t] && s.store.holds == map[] && s.history == history
  }

  lemma FailingGrant(c: Config)
    requires Roomy(c)
    ensures var s1 := Apply(c, Init(0), Begin(0, Reserve(FIRST_REQUEST)));
            var s2 := Apply(c, s1, Call(0, Ok)); var s3 := Apply(c, s2, Call(0, Ok));
            var s := Apply(c, s3, Call(0, NoEffect));
            Handling(s, Finished(ServerError), [Counted(0), Leaked(0, 1)]) && Read(s.store.budget, 0) == 1
  {
    hide Apply;
    var s1 := Apply(c, Init(0), Begin(0, Reserve(FIRST_REQUEST)));
    FirstBegins(c);
    FirstCounts(c, s1);
    var s2 := Apply(c, s1, Call(0, Ok));
    FirstCharges(c, s2);
    FirstGrantFails(c, Apply(c, s2, Call(0, Ok)));
  }

  lemma FirstBegins(c: Config)
    ensures var s := Apply(c, Init(0), Begin(0, Reserve(FIRST_REQUEST)));
            && Handling(s, Creating(Counting, Ticket(FIRST_REQUEST, 0, 0)), [])
            && s.store.requests == map[] && s.store.budget == map[]
  {
    assert DayOf(0) == 0;
  }

  lemma FirstCounts(c: Config, s: State)
    requires Roomy(c) && Handling(s, Creating(Counting, Ticket(FIRST_REQUEST, 0, 0)), [])
    requires s.store.requests == map[] && s.store.budget == map[]
    ensures var s' := Apply(c, s, Call(0, Ok));
            && Handling(s', Creating(Charging, Ticket(FIRST_REQUEST, 0, 0)), [Counted(0)]) && s'.store.budget == map[]
  {
  }

  lemma FirstCharges(c: Config, s: State)
    requires Roomy(c) && Handling(s, Creating(Charging, Ticket(FIRST_REQUEST, 0, 0)), [Counted(0)])
    requires s.store.budget == map[]
    ensures var s' := Apply(c, s, Call(0, Ok));
            && Handling(s', Creating(Granting, Ticket(FIRST_REQUEST, 0, 0)), [Counted(0)])
            && Read(s'.store.budget, 0) == 1
  {
  }

  lemma FirstGrantFails(c: Config, s: State)
    requires Handling(s, Creating(Granting, Ticket(FIRST_REQUEST, 0, 0)), [Counted(0)])
    ensures var s' := Apply(c, s, Call(0, NoEffect));
            Handling(s', Finished(ServerError), [Counted(0), Leaked(0, 1)]) && s'.store == s.store
  {
  }

  // ---- a lost reply ----

  /** When a hold is placed but the reply is lost, the handler gives the charge back: from then on the
      day counts less than its live holds, by that hold. */
  lemma LostReplyUndercounts(c: Config, s: State, id: nat)
    requires Running(s, id) && s.tasks[id].Creating? && s.tasks[id].phase.Placing?
    requires Affordable(s.store, s.tasks[id].ticket.req.user, s.tasks[id].ticket.req.credits)
    ensures var k := s.tasks[id].ticket;
            var s' := Apply(c, Apply(c, s, Call(id, LostReply)), Call(id, Ok));
            && s'.tasks[id] == Finished(ServerError) && Live(s'.store, k.req.res)
            && s'.store.holds[k.req.res].amount == k.req.credits && s'.store.holds[k.req.res].stamp == On(k.day)
            && Read(s'.store.budget, k.day) == Read(s.store.budget, k.day) - k.req.credits
  {
    hide EventsOf, LeakOf, Leak;
    var k := s.tasks[id].ticket;
    var s1 := Apply(c, s, Call(id, LostReply));
    assert s1.tasks[id] == Creating(Refunding(ServerError), k);
    assert s1.store == Place(s.store, k.req.res, k.req.user, k.req.credits, k.req.Ttl(), On(k.day), s.now);
  }
}

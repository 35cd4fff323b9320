/** How many of N simultaneous equal reservations get in does not depend on the schedule. */
module Admission {
  import opened Sums
  import opened Redis
  import opened Protocol

  /** The handler's charge stands in the day's counter. */
  predicate Charged(t: Task) {
    (t.Creating? && (t.phase.Granting? || t.phase.Placing?)) || t == Finished(Created)
  }

  ghost function ChargedWorth(a: int): (nat, Task) -> int { (i, t) => if Charged(t) then a else 0 }

  ghost function CountedTasks(): (nat, Task) -> int {
    (i, t: Task) => if t.Creating? && t.phase.Counting? then 0 else 1
  }

  /** What a user still has to pay for. */
  ghost function DemandOf(u: UserId): (nat, Task) -> int {
    (i, t: Task) => if Unheld(t) && t.ticket.req.user == u then t.ticket.req.credits else 0
  }

  /** A user's balance, counting the grant a new user is about to get. */
  function Available(c: Config, s: Store, u: UserId): int {
    if u in s.balances then s.balances[u] else c.initialCredits
  }

  /** N handlers of the same day and amount, no charge made yet, room for N requests, and every user
      able to pay for all their own reservations. */
  ghost predicate Rush(c: Config, s: State, d: Day, a: int) {
    && Sane(s) && a > 0
    && (forall i | i in s.tasks :: s.tasks[i].Creating? && s.tasks[i].phase.Counting?
          && s.tasks[i].ticket.day == d && s.tasks[i].ticket.req.credits == a)
    && d !in s.store.budget && d !in s.store.requests
    && |s.tasks| <= c.requestLimit
    && (forall u :: Available(c, s.store, u) >= Total(s.tasks, DemandOf(u)))
  }

  /** Any interleaving of the handlers' calls, with time passing in between, within the counters' life. */
  ghost predicate Schedule(acts: seq<Action>) {
    forall x | x in acts :: x.Tick? || (x.Call? && x.fault.Ok?)
  }

  ghost function Play(c: Config, s: State, acts: seq<Action>): State {
    if acts == [] then s else Apply(c, Play(c, s, acts[..|acts| - 1]), acts[|acts| - 1])
  }

  ghost predicate TaskInRush(c: Config, s: State, d: Day, a: int, t: Task) {
    && (t.Creating? ==> !t.phase.Refunding? && t.ticket.day == d && t.ticket.req.credits == a)
    && (t.Creating? && t.phase.Placing? ==> t.ticket.req.user in s.store.balances)
    && (t.Creating? || t == Finished(Created) || t == Finished(BudgetExhausted))
    && (t == Finished(BudgetExhausted) ==> Read(s.store.budget, d) + a > c.creditLimit)
  }

  /** A counter in use that does not expire within its full TTL from start. */
  predicate Lasting(k: Counter, start: nat) {
    k.deadline.At? && start + COUNTER_TTL <= k.deadline.time && k.value > 0
  }

  ghost predicate AllInRush(c: Config, s: State, d: Day, a: int) {
    forall i | i in s.tasks :: TaskInRush(c, s, d, a, s.tasks[i])
  }

  /** Every user can still pay. */
  ghost predicate Funded(c: Config, s: State) {
    forall u :: Available(c, s.store, u) >= Total(s.tasks, DemandOf(u))
  }

  /** The day's counters show what was charged and counted, and last. */
  ghost predicate Kept(c: Config, s: State, d: Day, a: int, start: nat) {
    && a > 0 && start <= s.now < start + COUNTER_TTL && |s.tasks| <= c.requestLimit
    && Read(s.store.budget, d) == Total(s.tasks, ChargedWorth(a)) <= c.creditLimit
    && Read(s.store.requests, d) == Total(s.tasks, CountedTasks())
    && (d in s.store.budget ==> Lasting(s.store.budget[d], start))
    && (d in s.store.requests ==> Lasting(s.store.requests[d], start))
  }

  ghost predicate Fair(c: Config, s: State, d: Day, a: int, start: nat) {
    AllInRush(c, s, d, a) && Funded(c, s) && Kept(c, s, d, a, start)
  }

  lemma {:induction false} CountedAtMost(m: map<nat, Task>)
    ensures 0 <= Total(m, CountedTasks()) <= |m|
    decreases |m|
  {
    hide Total;
    if m == map[] {
      TotalZero(m, CountedTasks());
    } else {
      var i :| i in m;
      TotalRemove(m, CountedTasks(), i);
      CountedAtMost(m - {i});
      assert m.Keys == (m - {i}).Keys + {i};
    }
  }

  /** Somebody still uncounted: fewer than |m| are counted. */
  lemma CountedFewer(m: map<nat, Task>, i: nat)
    requires i in m && m[i].Creating? && m[i].phase.Counting?
    ensures Total(m, CountedTasks()) < |m|
  {
    hide Total;
    TotalRemove(m, CountedTasks(), i);
    CountedAtMost(m - {i});
    assert m.Keys == (m - {i}).Keys + {i};
  }

  lemma DemandNonNegative(s: State, u: UserId)
    requires Sane(s)
    ensures Total(s.tasks, DemandOf(u)) >= 0
    ensures forall i | i in s.tasks :: DemandOf(u)(i, s.tasks[i]) <= Total(s.tasks, DemandOf(u))
  {
    hide Total;
    TotalNonNegative(s.tasks, DemandOf(u));
    forall i | i in s.tasks ensures DemandOf(u)(i, s.tasks[i]) <= Total(s.tasks, DemandOf(u)) {
      TotalAtLeast(s.tasks, DemandOf(u), i);
    }
  }

  lemma CallIs(c: Config, s: State, id: nat)
    requires Running(s, id)
    ensures var s' := ApplyCall(c, s, id, Ok); var t := s.tasks[id];
            && s'.tasks == s.tasks[id := Successor(c, s, t, Ok)] && s'.now == s.now
            && s'.store == Exec(c, s.now, s.store, OpOf(t)).0
  {
    hide Exec, OpOf, Successor, EventsOf, LeakOf, Leak;
  }

  lemma AllStay(c: Config, s: State, s': State, d: Day, a: int, id: nat, t: Task)
    requires AllInRush(c, s, d, a) && s'.tasks == s.tasks[id := t] && TaskInRush(c, s', d, a, t)
    requires s.store.balances.Keys <= s'.store.balances.Keys && Read(s.store.budget, d) <= Read(s'.store.budget, d)
    ensures AllInRush(c, s', d, a)
  {
    hide Read;
    forall i | i in s'.tasks
      ensures TaskInRush(c, s', d, a, s'.tasks[i])
    {
      assert i != id ==> TaskInRush(c, s, d, a, s.tasks[i]);
    }
  }

  lemma FundedStays(c: Config, s: State, s': State, id: nat, t: Task)
    requires Funded(c, s) && id in s.tasks && s'.tasks == s.tasks[id := t]
    requires forall u :: Available(c, s'.store, u) - DemandOf(u)(id, t)
                         >= Available(c, s.store, u) - DemandOf(u)(id, s.tasks[id])
    ensures Funded(c, s')
  {
    hide Total, Available, DemandOf;
    forall u
      ensures Available(c, s'.store, u) >= Total(s'.tasks, DemandOf(u))
    {
      TotalPut(s.tasks, DemandOf(u), id, t);
    }
  }

  /** A handler's turn, given what its own call does. */
  lemma FairTurn(c: Config, s: State, s': State, d: Day, a: int, start: nat, id: nat, t: Task)
    requires Fair(c, s, d, a, start) && id in s.tasks && s'.tasks == s.tasks[id := t] && s'.now == s.now
    requires TaskInRush(c, s', d, a, t) && s.store.balances.Keys <= s'.store.balances.Keys
    requires forall u :: Available(c, s'.store, u) - DemandOf(u)(id, t)
                         >= Available(c, s.store, u) - DemandOf(u)(id, s.tasks[id])
    requires ChargedWorth(a)(id, t) >= ChargedWorth(a)(id, s.tasks[id])
    requires Read(s'.store.budget, d)
             == Read(s.store.budget, d) + ChargedWorth(a)(id, t) - ChargedWorth(a)(id, s.tasks[id]) <= c.creditLimit
    requires Read(s'.store.requests, d)
             == Read(s.store.requests, d) + CountedTasks()(id, t) - CountedTasks()(id, s.tasks[id])
    requires d in s'.store.budget ==> Lasting(s'.store.budget[d], start)
    requires d in s'.store.requests ==> Lasting(s'.store.requests[d], start)
    ensures Fair(c, s', d, a, start)
  {
    hide Total, Read, Available, DemandOf, ChargedWorth, CountedTasks, TaskInRush, AllInRush, Funded, Lasting;
    AllStay(c, s, s', d, a, id, t);
    FundedStays(c, s, s', id, t);
    assert s'.tasks.Keys == s.tasks.Keys;
    TotalPut(s.tasks, ChargedWorth(a), id, t);
    TotalPut(s.tasks, CountedTasks(), id, t);
  }

  lemma FairCounting(c: Config, s: State, d: Day, a: int, start: nat, id: nat)
    requires Sane(s) && Fair(c, s, d, a, start) && Running(s, id) && s.tasks[id].phase.Counting?
    ensures Fair(c, ApplyCall(c, s, id, Ok), d, a, start)
  {
    hide Total, ApplyCall, AllInRush, Funded, Sane, CountUnder;
    CallIs(c, s, id);
    RushOf(c, s, d, a, id);
    CountedFewer(s.tasks, id);
    CountedAtMost(s.tasks);
    CountsOne(s.store.requests, d, c.requestLimit, s.now, start);
    FairTurn(c, s, ApplyCall(c, s, id, Ok), d, a, start, id, Successor(c, s, s.tasks[id], Ok));
  }

  lemma RushOf(c: Config, s: State, d: Day, a: int, id: nat)
    requires AllInRush(c, s, d, a) && id in s.tasks
    ensures TaskInRush(c, s, d, a, s.tasks[id])
  {
  }

  lemma CountsOne(m: map<Day, Counter>, d: Day, limit: int, now: nat, start: nat)
    requires 0 <= Read(m, d) < limit && start <= now && (d in m ==> Lasting(m[d], start))
    ensures var (m', n) := CountUnder(m, d, limit, now);
            Read(m', d) == Read(m, d) + 1 == n && d in m' && Lasting(m'[d], start)
  {
  }

  lemma FairCharging(c: Config, s: State, d: Day, a: int, start: nat, id: nat)
    requires Sane(s) && Fair(c, s, d, a, start) && Running(s, id) && s.tasks[id].phase.Charging?
    ensures Fair(c, ApplyCall(c, s, id, Ok), d, a, start)
  {
    hide Total, ApplyCall, AllInRush, Funded, Sane, ChargeUnder;
    CallIs(c, s, id);
    TotalNonNegative(s.tasks, ChargedWorth(a));
    RushOf(c, s, d, a, id);
    ChargesOne(s.store.budget, d, a, c.creditLimit, s.now, start);
    FairTurn(c, s, ApplyCall(c, s, id, Ok), d, a, start, id, Successor(c, s, s.tasks[id], Ok));
  }

  lemma ChargesOne(m: map<Day, Counter>, d: Day, a: int, limit: int, now: nat, start: nat)
    requires a > 0 && 0 <= Read(m, d) && start <= now && (d in m ==> Lasting(m[d], start))
    ensures var (m', n) := ChargeUnder(m, d, a, limit, now);
            && (Read(m, d) + a > limit ==> m' == m && n == -1)
            && (Read(m, d) + a <= limit ==> Read(m', d) == Read(m, d) + a == n && d in m' && Lasting(m'[d], start))
  {
  }

  lemma FairGranting(c: Config, s: State, d: Day, a: int, start: nat, id: nat)
    requires Sane(s) && Fair(c, s, d, a, start) && Running(s, id) && s.tasks[id].phase.Granting?
    ensures Fair(c, ApplyCall(c, s, id, Ok), d, a, start)
  {
    hide Total, ApplyCall, AllInRush, Funded, Sane, Read, Lasting;
    CallIs(c, s, id);
    RushOf(c, s, d, a, id);
    FairTurn(c, s, ApplyCall(c, s, id, Ok), d, a, start, id, Successor(c, s, s.tasks[id], Ok));
  }

  /** With enough money nobody who was charged is refused. */
  lemma FairPlacing(c: Config, s: State, d: Day, a: int, start: nat, id: nat)
    requires Sane(s) && Fair(c, s, d, a, start) && Running(s, id) && s.tasks[id].phase.Placing?
    ensures Fair(c, ApplyCall(c, s, id, Ok), d, a, start)
  {
    hide Total, ApplyCall, AllInRush, Sane, Read, Lasting;
    CallIs(c, s, id);
    RushOf(c, s, d, a, id);
    var u := s.tasks[id].ticket.req.user;
    DemandNonNegative(s, u);
    assert Available(c, s.store, u) >= Total(s.tasks, DemandOf(u)) >= a;
    hide Funded;
    FairTurn(c, s, ApplyCall(c, s, id, Ok), d, a, start, id, Successor(c, s, s.tasks[id], Ok));
  }

  lemma CountersSurvive(s: Store, now: nat, d: Day)
    requires d in s.budget ==> !s.budget[d].deadline.Due(now)
    requires d in s.requests ==> !s.requests[d].deadline.Due(now)
    ensures var s' := Purge(s, now);
            && s'.balances == s.balances
            && Read(s'.budget, d) == Read(s.budget, d) && Read(s'.requests, d) == Read(s.requests, d)
            && (d in s'.budget ==> d in s.budget && s'.budget[d] == s.budget[d])
            && (d in s'.requests ==> d in s.requests && s'.requests[d] == s.requests[d])
  {
  }

  lemma FairTick(c: Config, s: State, d: Day, a: int, start: nat, dt: nat)
    requires Fair(c, s, d, a, start) && s.now + dt < start + COUNTER_TTL
    ensures Fair(c, Apply(c, s, Tick(dt)), d, a, start)
  {
    hide Total, Purge, Read, ChargedWorth, CountedTasks, DemandOf, DueHolds, DueCounters;
    CountersSurvive(s.store, s.now + dt, d);
    var s' := Apply(c, s, Tick(dt));
    forall i | i in s'.tasks ensures TaskInRush(c, s', d, a, s'.tasks[i]) {
      assert TaskInRush(c, s, d, a, s.tasks[i]);
    }
  }

  lemma FairStep(c: Config, s: State, d: Day, a: int, start: nat, x: Action)
    requires Sane(s) && Fair(c, s, d, a, start)
    requires x.Tick? || (x.Call? && x.fault.Ok?)
    requires Apply(c, s, x).now < start + COUNTER_TTL
    ensures Fair(c, Apply(c, s, x), d, a, start)
  {
    hide Total, ApplyCall, Purge, Sane;
    if x.Tick? {
      FairTick(c, s, d, a, start, x.ticks);
    } else if Running(s, x.id) {
      assert TaskInRush(c, s, d, a, s.tasks[x.id]);
      match s.tasks[x.id].phase
      case Counting => FairCounting(c, s, d, a, start, x.id);
      case Charging => FairCharging(c, s, d, a, start, x.id);
      case Granting => FairGranting(c, s, d, a, start, x.id);
      case Placing => FairPlacing(c, s, d, a, start, x.id);
    }
  }

  lemma FairStart(c: Config, s: State, d: Day, a: int)
    requires Rush(c, s, d, a)
    ensures Fair(c, s, d, a, s.now)
  {
    hide Total;
    TotalZero(s.tasks, ChargedWorth(a));
    TotalZero(s.tasks, CountedTasks());
  }

  lemma {:induction false} FairPlay(c: Config, s: State, d: Day, a: int, acts: seq<Action>)
    requires Rush(c, s, d, a) && Schedule(acts) && Play(c, s, acts).now < s.now + COUNTER_TTL
    ensures Sane(Play(c, s, acts)) && Fair(c, Play(c, s, acts), d, a, s.now)
    ensures Play(c, s, acts).tasks.Keys == s.tasks.Keys
    decreases |acts|
  {
    hide Total, ApplyCall, Purge, Sane, Fair;
    if acts == [] {
      RushIsSane(c, s, d, a);
      FairStart(c, s, d, a);
    } else {
      var mid, x := Play(c, s, acts[..|acts| - 1]), acts[|acts| - 1];
      assert x in acts;
      TimePasses(c, mid, x);
      FairPlay(c, s, d, a, acts[..|acts| - 1]);
      SaneStep(c, mid, x);
      FairStep(c, mid, d, a, s.now, x);
      SameTasks(c, mid, x);
    }
  }

  lemma RushIsSane(c: Config, s: State, d: Day, a: int)
    requires Rush(c, s, d, a)
    ensures Sane(s)
  {
  }

  lemma TimePasses(c: Config, s: State, x: Action)
    ensures s.now <= Apply(c, s, x).now
  {
  }

  lemma SameTasks(c: Config, s: State, x: Action)
    requires x.Tick? || x.Call?
    ensures Apply(c, s, x).tasks.Keys == s.tasks.Keys
  {
  }

  ghost function Successes(): (nat, Task) -> int { (i, t) => if t == Finished(Created) then 1 else 0 }

  lemma {:induction false} WorthIsMultiple(m: map<nat, Task>, a: int)
    requires forall i | i in m :: m[i].Finished?
    ensures Total(m, ChargedWorth(a)) == a * Total(m, Successes())
    decreases |m|
  {
    hide Total;
    if m == map[] {
      TotalZero(m, ChargedWorth(a));
      TotalZero(m, Successes());
    } else {
      var i :| i in m;
      TotalRemove(m, ChargedWorth(a), i);
      TotalRemove(m, Successes(), i);
      WorthIsMultiple(m - {i}, a);
      OneMoreTimes(a, Total(m - {i}, Successes()));
    }
  }

  lemma OneMoreTimes(a: int, n: int)
    ensures a * (n + 1) == a * n + a
  {
  }

  lemma {:induction false} CreatedCount(m: map<nat, Task>)
    ensures 0 <= Total(m, Successes()) <= |m|
    ensures (forall i | i in m :: m[i] == Finished(Created)) ==> Total(m, Successes()) == |m|
    decreases |m|
  {
    hide Total;
    if m == map[] {
      TotalZero(m, Successes());
    } else {
      var i :| i in m;
      TotalRemove(m, Successes(), i);
      CreatedCount(m - {i});
      assert m.Keys == (m - {i}).Keys + {i};
    }
  }

  function Min(x: int, y: int): int { if x <= y then x else y }

  /** In every schedule that lets all N handlers finish, exactly min(N, limit / a) of them succeed and
      the day's counter shows that number times a. */
  lemma AdmissionIsScheduleFree(c: Config, s: State, d: Day, a: int, acts: seq<Action>)
    requires Rush(c, s, d, a) && Schedule(acts) && Play(c, s, acts).now < s.now + COUNTER_TTL
    requires forall i | i in Play(c, s, acts).tasks :: Play(c, s, acts).tasks[i].Finished?
    ensures var end := Play(c, s, acts); var n := Total(end.tasks, Successes());
            n == Min(|s.tasks|, c.creditLimit / a) && Read(end.store.budget, d) == n * a
  {
    hide Total, Play, Rush, Sane, Schedule, ChargedWorth, CountedTasks, Successes, AllInRush, Funded, Read;
    var end := Play(c, s, acts);
    FairPlay(c, s, d, a, acts);
    WorthIsMultiple(end.tasks, a);
    CreatedCount(end.tasks);
    var n := Total(end.tasks, Successes());
    assert |end.tasks| == |end.tasks.Keys| == |s.tasks|;
    forall i | i in end.tasks
      ensures TaskInRush(c, end, d, a, end.tasks[i])
    {
      RushOf(c, end, d, a, i);
    }
    if i :| i in end.tasks && end.tasks[i] != Finished(Created) {
      assert end.tasks[i] == Finished(BudgetExhausted);
      QuotientIs(c.creditLimit, a, n);
    } else {
      QuotientAtLeast(c.creditLimit, a, n);
    }
  }

  lemma Scaled(a: int, x: int, y: int)
    requires a > 0
    ensures x <= y ==> a * x <= a * y
  {
  }

  lemma QuotientIs(limit: int, a: int, n: int)
    requires a > 0 && a * n <= limit < a * n + a
    ensures limit / a == n
  {
    assert limit == a * (limit / a) + limit % a;
    Scaled(a, limit / a + 1, n);
    Scaled(a, n + 1, limit / a);
  }

  lemma QuotientAtLeast(limit: int, a: int, n: int)
    requires a > 0 && a * n <= limit
    ensures n <= limit / a
  {
    assert limit == a * (limit / a) + limit % a;
    Scaled(a, limit / a + 1, n);
  }
}

/** The cap on purchases: over a whole run, whatever keys expire, no user is credited more often on a date than the
    configured number of times. */
module Purchases {
  import opened Sums
  import opened Redis
  import opened Protocol
  import Admission

  /** No purchase handler waits from reading the date until that date's counters may expire. */
  ghost predicate PromptStep(s: State, a: Action) {
    a.Tick? ==> forall i | i in s.tasks && s.tasks[i].TopUpCounting? :: s.now + a.ticks < Horizon(s.tasks[i].day)
  }

  ghost predicate Prompt(c: Config, start: nat, acts: seq<Action>)
    decreases |acts|
  {
    acts == [] ||
    (Prompt(c, start, acts[..|acts| - 1]) && PromptStep(Run(c, start, acts[..|acts| - 1]), acts[|acts| - 1]))
  }

  /** A purchase that is counted and not yet credited. */
  ghost function OpenFor(u: UserId, d: Day): (nat, Task) -> int {
    (i, t: Task) => if (t.TopUpGranting? || t.TopUpMinting?) && t.user == u && t.day == d then 1 else 0
  }

  ghost function CountedFor(u: UserId, d: Day): Event -> int {
    (e: Event) => if e == PurchaseCounted(u, d) then 1 else 0
  }

  ghost function CreditedFor(u: UserId, d: Day): Event -> int {
    (e: Event) => if e.Minted? && e.user == u && e.day == d then 1 else 0
  }

  /** The key counts the date's purchases and outlives the date, and once it has expired nobody counts on it again. */
  ghost predicate CounterKept(s: State, u: UserId, d: Day) {
    var n := Sum(s.history, CountedFor(u, d));
    && ((u, d) in s.store.purchases ==>
          var counter := s.store.purchases[(u, d)];
          counter.value == n > 0 && counter.deadline.At? && Horizon(d) <= counter.deadline.time)
    && ((u, d) !in s.store.purchases && s.now < Horizon(d) ==> n == 0)
  }

  ghost predicate Waiting(s: State) {
    forall i | i in s.tasks && s.tasks[i].TopUpCounting? ::
      s.tasks[i].day * DAY <= s.now < Horizon(s.tasks[i].day)
  }

  /** What one call does to the counter of a user and date, and what it records. */
  lemma ExecCounts(c: Config, now: nat, s: Store, op: Op, u: UserId, d: Day)
    ensures var s' := Exec(c, now, s, op).0; var es := EventsOf(c, s, now, op);
            && |es| <= 1
            && (op == CountPurchase(u, d) ==> s'.purchases == CountUnder(s.purchases, (u, d), c.purchaseLimit, now).0)
            && (op != CountPurchase(u, d) ==> ((u, d) in s'.purchases <==> (u, d) in s.purchases))
            && (op != CountPurchase(u, d) && (u, d) in s.purchases ==> s'.purchases[(u, d)] == s.purchases[(u, d)])
  {
  }

  lemma ExecSums(c: Config, now: nat, s: Store, op: Op, u: UserId, d: Day)
    ensures var es := EventsOf(c, s, now, op);
            && Sum(es, CountedFor(u, d))
               == (if op == CountPurchase(u, d) && Read(s.purchases, (u, d)) < c.purchaseLimit then 1 else 0)
            && Sum(es, CreditedFor(u, d)) == (if op.Mint? && op.user == u && op.counted == d then 1 else 0)
  {
    hide Sum;
    ExecCounts(c, now, s, op, u, d);
    SumShort(EventsOf(c, s, now, op), CountedFor(u, d));
    SumShort(EventsOf(c, s, now, op), CreditedFor(u, d));
  }

  lemma CountsAreCounts(h: seq<Event>, u: UserId, d: Day)
    ensures 0 <= Sum(h, CountedFor(u, d))
  {
    SumNonNegative(h, CountedFor(u, d));
  }

  /** As long as the date's counters may not expire, the key shows what was counted. */
  lemma CounterShows(s: State, u: UserId, d: Day)
    requires CounterKept(s, u, d) && s.now < Horizon(d)
    ensures Read(s.store.purchases, (u, d)) == Sum(s.history, CountedFor(u, d))
  {
    hide Sum;
  }

  /** Counting under the limit, at a time when the date has begun. */
  lemma CountKeeps(m: map<(UserId, Day), Counter>, u: UserId, d: Day, limit: nat, now: nat)
    requires 0 <= Read(m, (u, d)) && d * DAY <= now
    requires (u, d) in m ==> m[(u, d)].value > 0 && m[(u, d)].deadline.At? && Horizon(d) <= m[(u, d)].deadline.time
    ensures var m' := CountUnder(m, (u, d), limit, now).0;
            && Read(m', (u, d)) == Read(m, (u, d)) + (if Read(m, (u, d)) < limit then 1 else 0)
            && ((u, d) in m' ==>
                  m'[(u, d)].value > 0 && m'[(u, d)].deadline.At? && Horizon(d) <= m'[(u, d)].deadline.time)
  {
  }

  /** A handler's own share: its purchase is open from its count until it has credited. */
  lemma TaskCounts(c: Config, s: State, t: Task, f: Fault, u: UserId, d: Day)
    requires !t.Finished? && (OpOf(t) == CountPurchase(u, d) ==> 0 <= Read(s.store.purchases, (u, d)))
    ensures var op := OpOf(t);
            OpenFor(u, d)(0, Successor(c, s, t, f)) - OpenFor(u, d)(0, t) <=
              (if !f.NoEffect? && op == CountPurchase(u, d) && Read(s.store.purchases, (u, d)) < c.purchaseLimit
                  then 1 else 0)
              - (if !f.NoEffect? && op.Mint? && op.user == u && op.counted == d then 1 else 0)
  {
  }

  lemma TaskWaits(c: Config, s: State, t: Task, f: Fault)
    requires !t.Finished?
    ensures !Successor(c, s, t, f).TopUpCounting?
    ensures forall u, d :: OpOf(t) == CountPurchase(u, d) ==> t.TopUpCounting? && t.day == d
  {
  }

  lemma KeptCall(c: Config, s: State, id: nat, f: Fault, u: UserId, d: Day)
    requires Running(s, id) && Waiting(s) && CounterKept(s, u, d)
    ensures CounterKept(ApplyCall(c, s, id, f), u, d)
  {
    hide Sum, Exec, OpOf, EventsOf, LeakOf, Leak, Successor, CountUnder, CountedFor;
    var t := s.tasks[id];
    CallSum(c, s, id, f, u, d);
    CountsAreCounts(s.history, u, d);
    TaskWaits(c, s, t, f);
    ExecCounts(c, s.now, s.store, OpOf(t), u, d);
    if OpOf(t) == CountPurchase(u, d) {
      CounterShows(s, u, d);
      CountKeeps(s.store.purchases, u, d, c.purchaseLimit, s.now);
    }
  }

  /** What a call adds to the purchases counted and credited. */
  lemma CallSum(c: Config, s: State, id: nat, f: Fault, u: UserId, d: Day)
    requires Running(s, id)
    ensures var s' := ApplyCall(c, s, id, f); var op := OpOf(s.tasks[id]);
            && Sum(s'.history, CountedFor(u, d)) == Sum(s.history, CountedFor(u, d))
                 + (if !f.NoEffect? && op == CountPurchase(u, d) && Read(s.store.purchases, (u, d)) < c.purchaseLimit
                    then 1 else 0)
            && Sum(s'.history, CreditedFor(u, d)) == Sum(s.history, CreditedFor(u, d))
                 + (if !f.NoEffect? && op.Mint? && op.user == u && op.counted == d then 1 else 0)
  {
    hide Sum, Exec, OpOf, EventsOf, LeakOf, Leak, Successor;
    CallHistory(c, s, id, f, CountedFor(u, d));
    CallHistory(c, s, id, f, CreditedFor(u, d));
    ExecSums(c, s.now, s.store, OpOf(s.tasks[id]), u, d);
  }

  /** Nothing is credited that was not counted, and no more is counted than the cap. */
  ghost predicate Capped(c: Config, s: State, u: UserId, d: Day) {
    && Sum(s.history, CountedFor(u, d)) <= c.purchaseLimit
    && Sum(s.history, CreditedFor(u, d)) + Total(s.tasks, OpenFor(u, d)) <= Sum(s.history, CountedFor(u, d))
  }

  lemma CappedCall(c: Config, s: State, id: nat, f: Fault, u: UserId, d: Day)
    requires Running(s, id) && Waiting(s) && CounterKept(s, u, d) && Capped(c, s, u, d)
    ensures Capped(c, ApplyCall(c, s, id, f), u, d)
  {
    hide Total, Sum, Exec, OpOf, EventsOf, LeakOf, Leak, Successor, CounterKept, OpenFor;
    var t := s.tasks[id];
    CallSum(c, s, id, f, u, d);
    TaskWaits(c, s, t, f);
    if OpOf(t) == CountPurchase(u, d) {
      CounterShows(s, u, d);
      CountsAreCounts(s.history, u, d);
    }
    TaskCounts(c, s, t, f, u, d);
    TotalPut(s.tasks, OpenFor(u, d), id, Successor(c, s, t, f));
    OpenIgnoresId(t, id, u, d);
    OpenIgnoresId(Successor(c, s, t, f), id, u, d);
  }

  lemma OpenIgnoresId(t: Task, id: nat, u: UserId, d: Day)
    ensures OpenFor(u, d)(id, t) == OpenFor(u, d)(0, t)
  {
  }

  /** The steps that are no calls count and credit nothing, and open no purchase. */
  lemma QuietSums(c: Config, s: State, a: Action, u: UserId, d: Day)
    requires !a.Call?
    ensures var s' := Apply(c, s, a);
            && Sum(s'.history, CountedFor(u, d)) == Sum(s.history, CountedFor(u, d))
            && Sum(s'.history, CreditedFor(u, d)) == Sum(s.history, CreditedFor(u, d))
            && Total(s'.tasks, OpenFor(u, d)) <= Total(s.tasks, OpenFor(u, d))
  {
    hide Total, Sum, Purge;
    NewEventsSum(c, s, a, CountedFor(u, d));
    NewEventsSum(c, s, a, CreditedFor(u, d));
    SumZero(NewEvents(c, s, a), CountedFor(u, d));
    SumZero(NewEvents(c, s, a), CreditedFor(u, d));
    if a.Begin? {
      TotalPut(s.tasks, OpenFor(u, d), a.id, FirstTask(a.job, s.now));
    } else if a.Die? && Running(s, a.id) {
      TotalPut(s.tasks, OpenFor(u, d), a.id, Finished(Died));
    }
  }

  lemma KeptQuiet(c: Config, s: State, a: Action, u: UserId, d: Day)
    requires !a.Call? && CounterKept(s, u, d)
    ensures CounterKept(Apply(c, s, a), u, d)
  {
    hide Sum;
    QuietSums(c, s, a, u, d);
  }

  lemma WaitingStep(c: Config, s: State, a: Action)
    requires Waiting(s) && PromptStep(s, a)
    ensures Waiting(Apply(c, s, a))
  {
    hide Exec, OpOf, EventsOf, LeakOf, Leak, Successor, Purge;
    if a.Call? && Running(s, a.id) {
      TaskWaits(c, s, s.tasks[a.id], a.fault);
    }
  }

  /** Main result: over the whole run a user is credited on a date at most as often as purchases are allowed. */
  lemma {:induction false} PurchasesCapped(c: Config, start: nat, acts: seq<Action>, u: UserId, d: Day)
    requires Prompt(c, start, acts)
    ensures Sum(Run(c, start, acts).history, CreditedFor(u, d)) <= c.purchaseLimit
    ensures var s := Run(c, start, acts); Waiting(s) && CounterKept(s, u, d) && Capped(c, s, u, d)
    decreases |acts|
  {
    if acts == [] {
      assert Total(Init(start).tasks, OpenFor(u, d)) == 0;
    } else {
      hide Apply, ApplyCall, Total, Sum;
      var before, a := acts[..|acts| - 1], acts[|acts| - 1];
      var s := Run(c, start, before);
      PurchasesCapped(c, start, before, u, d);
      WaitingStep(c, s, a);
      CappedStep(c, s, a, u, d);
      TotalNonNegative(Apply(c, s, a).tasks, OpenFor(u, d));
    }
  }

  lemma CappedStep(c: Config, s: State, a: Action, u: UserId, d: Day)
    requires Waiting(s) && CounterKept(s, u, d) && Capped(c, s, u, d)
    ensures CounterKept(Apply(c, s, a), u, d) && Capped(c, Apply(c, s, a), u, d)
  {
    hide ApplyCall, Total, Sum, CounterKept, Waiting;
    if !a.Call? {
      KeptQuiet(c, s, a, u, d);
      QuietSums(c, s, a, u, d);
    } else if Running(s, a.id) {
      KeptCall(c, s, a.id, a.fault, u, d);
      CappedCall(c, s, a.id, a.fault, u, d);
    }
  }

  // ---- no less than the cap ----

  /** A handler is refused exactly if the date has had all its purchases, in every prompt run with any faults. */
  lemma RefusedAtCap(c: Config, start: nat, acts: seq<Action>, id: nat)
    requires Prompt(c, start, acts) && Running(Run(c, start, acts), id) && Run(c, start, acts).tasks[id].TopUpCounting?
    ensures var s := Run(c, start, acts); var t := s.tasks[id];
            Successor(c, s, t, Ok) == Finished(PurchaseCapReached) <==>
            Sum(s.history, CountedFor(t.user, t.day)) >= c.purchaseLimit
  {
    hide Run, Sum;
    var s := Run(c, start, acts);
    var t := s.tasks[id];
    PurchasesCapped(c, start, acts, t.user, t.day);
    CounterShows(s, t.user, t.day);
    CountsAreCounts(s.history, t.user, t.day);
  }

  /** Any number of purchases of one user on one date, about to be counted, and none counted yet. */
  ghost predicate Shoppers(s: State, u: UserId, d: Day) {
    && (u, d) !in s.store.purchases
    && forall i | i in s.tasks :: s.tasks[i].TopUpCounting? && s.tasks[i].user == u && s.tasks[i].day == d
  }

  /** The handler has got one of the date's purchases. */
  predicate Got(t: Task) { t.TopUpGranting? || t.TopUpMinting? || t == Finished(Purchased) }

  ghost function GotOne(): (nat, Task) -> int { (i, t) => if Got(t) then 1 else 0 }

  ghost predicate InShop(c: Config, s: State, u: UserId, d: Day, t: Task) {
    || (t.TopUpCounting? && t.user == u && t.day == d)
    || Got(t)
    || (t == Finished(PurchaseCapReached) && Read(s.store.purchases, (u, d)) >= c.purchaseLimit)
  }

  ghost predicate Shopping(c: Config, s: State, u: UserId, d: Day, start: nat) {
    && start <= s.now < start + COUNTER_TTL
    && (forall i | i in s.tasks :: InShop(c, s, u, d, s.tasks[i]))
    && Read(s.store.purchases, (u, d)) == Total(s.tasks, GotOne()) <= c.purchaseLimit
    && ((u, d) in s.store.purchases ==>
          var counter := s.store.purchases[(u, d)];
          counter.deadline.At? && start + COUNTER_TTL <= counter.deadline.time)
  }

  lemma ShopCall(c: Config, s: State, u: UserId, d: Day, start: nat, id: nat)
    requires Shopping(c, s, u, d, start) && Running(s, id)
    ensures Shopping(c, ApplyCall(c, s, id, Ok), u, d, start)
  {
    hide Total, ApplyCall, CountUnder;
    var s', t := ApplyCall(c, s, id, Ok), s.tasks[id];
    Admission.CallIs(c, s, id);
    TotalNonNegative(s.tasks, GotOne());
    assert InShop(c, s, u, d, t);
    CountsOneMore(s.store.purchases, u, d, c.purchaseLimit, s.now, start);
    var t' := Successor(c, s, t, Ok);
    TotalPut(s.tasks, GotOne(), id, t');
    assert InShop(c, s', u, d, t');
    forall i | i in s'.tasks
      ensures InShop(c, s', u, d, s'.tasks[i])
    {
      assert i != id ==> InShop(c, s, u, d, s.tasks[i]);
    }
  }

  lemma CountsOneMore(m: map<(UserId, Day), Counter>, u: UserId, d: Day, limit: nat, now: nat, start: nat)
    requires 0 <= Read(m, (u, d)) && start <= now
    requires (u, d) in m ==> m[(u, d)].deadline.At? && start + COUNTER_TTL <= m[(u, d)].deadline.time
    ensures var (m', n) := CountUnder(m, (u, d), limit, now);
            && (Read(m, (u, d)) >= limit ==> m' == m && n == 0)
            && (Read(m, (u, d)) < limit ==> Read(m', (u, d)) == Read(m, (u, d)) + 1 == n)
            && ((u, d) in m' ==> m'[(u, d)].deadline.At? && start + COUNTER_TTL <= m'[(u, d)].deadline.time)
  {
  }

  lemma ShopTick(c: Config, s: State, u: UserId, d: Day, start: nat, dt: nat)
    requires Shopping(c, s, u, d, start) && s.now + dt < start + COUNTER_TTL
    ensures Shopping(c, Apply(c, s, Tick(dt)), u, d, start)
  {
    hide Total;
    var s' := Apply(c, s, Tick(dt));
    forall i | i in s'.tasks
      ensures InShop(c, s', u, d, s'.tasks[i])
    {
      assert InShop(c, s, u, d, s.tasks[i]);
    }
  }

  lemma {:induction false} ShopPlay(c: Config, s: State, u: UserId, d: Day, acts: seq<Action>)
    requires Shoppers(s, u, d) && Admission.Schedule(acts) && Admission.Play(c, s, acts).now < s.now + COUNTER_TTL
    ensures Shopping(c, Admission.Play(c, s, acts), u, d, s.now)
    ensures Admission.Play(c, s, acts).tasks.Keys == s.tasks.Keys
    decreases |acts|
  {
    hide Total, ApplyCall, Purge, Shopping;
    if acts == [] {
      ShopOpens(c, s, u, d);
    } else {
      var mid, x := Admission.Play(c, s, acts[..|acts| - 1]), acts[|acts| - 1];
      assert x in acts;
      Admission.TimePasses(c, mid, x);
      ShopPlay(c, s, u, d, acts[..|acts| - 1]);
      Admission.SameTasks(c, mid, x);
      if x.Tick? {
        ShopTick(c, mid, u, d, s.now, x.ticks);
      } else if Running(mid, x.id) {
        ShopCall(c, mid, u, d, s.now, x.id);
      }
    }
  }

  lemma ShopOpens(c: Config, s: State, u: UserId, d: Day)
    requires Shoppers(s, u, d)
    ensures Shopping(c, s, u, d, s.now)
  {
    hide Total;
    TotalZero(s.tasks, GotOne());
  }

  lemma {:induction false} GotCount(m: map<nat, Task>)
    ensures 0 <= Total(m, GotOne()) <= |m|
    ensures (forall i | i in m :: Got(m[i])) ==> Total(m, GotOne()) == |m|
    ensures (exists i | i in m :: !Got(m[i])) ==> Total(m, GotOne()) < |m|
    decreases |m|
  {
    hide Total, Got;
    if m == map[] {
      TotalZero(m, GotOne());
    } else {
      var i :| i in m;
      TotalRemove(m, GotOne(), i);
      GotCount(m - {i});
      assert m.Keys == (m - {i}).Keys + {i};
    }
  }

  /** In every schedule without faults that lets all N handlers finish within the counter's life, exactly
      min(N, limit) of them are answered Purchased. */
  lemma PurchasesGranted(c: Config, s: State, u: UserId, d: Day, acts: seq<Action>)
    requires Shoppers(s, u, d) && Admission.Schedule(acts) && Admission.Play(c, s, acts).now < s.now + COUNTER_TTL
    requires forall i | i in Admission.Play(c, s, acts).tasks :: Admission.Play(c, s, acts).tasks[i].Finished?
    ensures var end := Admission.Play(c, s, acts);
            && (forall i | i in end.tasks ::
                  end.tasks[i] == Finished(Purchased) || end.tasks[i] == Finished(PurchaseCapReached))
            && Total(end.tasks, GotOne()) == Admission.Min(|s.tasks|, c.purchaseLimit)
            && Read(end.store.purchases, (u, d)) == Admission.Min(|s.tasks|, c.purchaseLimit)
  {
    hide Total, Admission.Play, Admission.Schedule, Shoppers;
    var end := Admission.Play(c, s, acts);
    ShopPlay(c, s, u, d, acts);
    GotCount(end.tasks);
    assert |end.tasks| == |end.tasks.Keys| == |s.tasks|;
    forall i | i in end.tasks
      ensures end.tasks[i] == Finished(Purchased) || end.tasks[i] == Finished(PurchaseCapReached)
      ensures end.tasks[i] == Finished(PurchaseCapReached) ==> Read(end.store.purchases, (u, d)) >= c.purchaseLimit
    {
      assert InShop(c, end, u, d, end.tasks[i]);
    }
  }
}

/** The day's credit counter is exact: whatever faults occur, it equals the live holds charged to
    the day, its committed and forfeited credits, the charges in flight, and the leaked ones. */
module Budget {
  import opened Sums
  import opened Redis
  import opened Protocol

  ghost function LiveOn(d: Day): (ResId, Hold) -> int {
    (r, h: Hold) => if h.status == Reserved && h.stamp == On(d) then h.amount else 0
  }

  ghost function PendingOn(d: Day): (nat, Task) -> int {
    (i, t: Task) => if t.Creating? && t.ticket.day == d then PendingAmount(t) else 0
  }

  ghost function CommittedOn(d: Day): Event -> int {
    (e: Event) => if e.Closed? && e.hold.stamp == On(d) then Kept(e.st) else 0
  }

  ghost function ForfeitedOn(d: Day): Event -> int {
    (e: Event) => if e.Expired? then Total(e.lost, LiveOn(d)) else 0
  }

  ghost function LeakedOn(d: Day): Event -> int {
    (e: Event) => if e.Leaked? && e.day == d then e.amount else 0
  }

  /** What the counter showed when its key expired. */
  ghost function RetiredOn(d: Day): Event -> int {
    (e: Event) => if e.Expired? then Read(e.retired, d) else 0
  }

  ghost function Booked(d: Day): Event -> int {
    (e: Event) =>
      match e
      case Closed(st, h) => if h.stamp == On(d) then Kept(st) else 0
      case Expired(lost, retired, _) => Total(lost, LiveOn(d)) - Read(retired, d)
      case Leaked(d', n) => if d' == d then n else 0
      case _ => 0
  }

  /** How a call moves the counter beyond what it moves holds and bookings. */
  function Drift(c: Config, s: Store, op: Op, d: Day): int {
    match op
    case ChargeBudget(d', a) => if d' == d && Read(s.budget, d) + a <= c.creditLimit then a else 0
    case AdjustBudget(d', n) => if d' == d then n else 0
    case PlaceHold(r, u, a, ttl, d') => if d' == d && Affordable(s, u, a) then -a else 0
    case _ => 0
  }

  lemma PlaceBudget(s: Store, r: ResId, u: UserId, amount: int, ttl: nat, stamp: Stamp, now: nat, d: Day)
    requires r !in s.holds && Affordable(s, u, amount)
    ensures Total(Place(s, r, u, amount, ttl, stamp, now).holds, LiveOn(d))
            == Total(s.holds, LiveOn(d)) + (if stamp == On(d) then amount else 0)
  {
    hide Total, Sum;
    TotalPut(s.holds, LiveOn(d), r, Hold(u, amount, Reserved, stamp, At(now + ttl)));
  }

  /** Settling replaces the hold in its day's counter by what is kept of it. */
  lemma SettleBudget(s: Store, st: Settlement, stamp: Stamp, now: nat, d: Day)
    requires Judge(s, st, stamp) == Effective
    ensures var s' := Settle(s, st, stamp, now);
            Read(s'.budget, d) - Total(s'.holds, LiveOn(d))
            == Read(s.budget, d) - Total(s.holds, LiveOn(d)) + (if stamp == On(d) then Kept(st) else 0)
  {
    hide Total, Sum;
    TotalPut(s.holds, LiveOn(d), st.res, Settle(s, st, stamp, now).holds[st.res]);
  }

  lemma ExecBudget(c: Config, now: nat, s: Store, op: Op, d: Day)
    requires op.PlaceHold? ==> op.res !in s.holds
    ensures var s' := Exec(c, now, s, op).0;
            Read(s'.budget, d) - Total(s'.holds, LiveOn(d)) == Read(s.budget, d) - Total(s.holds, LiveOn(d))
              + Sum(EventsOf(c, s, now, op), Booked(d)) + Drift(c, s, op, d)
  {
    hide Total, Sum, LiveOn, Settle;
    var es := EventsOf(c, s, now, op);
    SumShort(es, Booked(d));
    match op
    case PlaceHold(r, u, a, ttl, d') =>
      if Affordable(s, u, a) { PlaceBudget(s, r, u, a, ttl, On(d'), now, d); }
    case SettleHold(st, stamp) =>
      if Judge(s, st, stamp) == Effective {
        SettleBudget(s, st, stamp, now, d);
      } else {
        SettleRefused(s, st, stamp, now);
      }
    case _ =>
  }

  /** The counter's equation, as one sum over the history. */
  ghost predicate Exact(s: State, d: Day) {
    Read(s.store.budget, d)
    == Total(s.store.holds, LiveOn(d)) + Total(s.tasks, PendingOn(d)) + Sum(s.history, Booked(d))
  }

  /** The handler's own charge before and after the call, with what it leaks, accounts for the drift. */
  lemma LeakAccounts(c: Config, s: State, t: Task, f: Fault, d: Day)
    requires !t.Finished?
    ensures PendingOn(d)(0, t) + (if f.NoEffect? then 0 else Drift(c, s.store, OpOf(t), d))
            == PendingOn(d)(0, Successor(c, s, t, f))
               + (if t.Creating? && t.ticket.day == d then LeakOf(c, s.store, t, f) else 0)
  {
  }

  lemma ExactCall(c: Config, s: State, id: nat, f: Fault, d: Day)
    requires Sane(s) && Running(s, id) && Exact(s, d)
    ensures Exact(ApplyCall(c, s, id, f), d)
  {
    hide Total, Sum, Exec, OpOf, Successor, EventsOf, LeakOf, Drift, Sane;
    var t := s.tasks[id];
    PlacesNewHold(s, id);
    CallHistory(c, s, id, f, Booked(d));
    LeakAccounts(c, s, t, f, d);
    TotalPut(s.tasks, PendingOn(d), id, Successor(c, s, t, f));
    if !f.NoEffect? {
      ExecBudget(c, s.now, s.store, OpOf(t), d);
    }
  }

  lemma DueCounterRead(m: map<Day, Counter>, now: nat, d: Day)
    ensures Read(m, d) == Read(DueCounters(m, now), d) + Read(m - DueCounters(m, now).Keys, d)
  {
  }

  lemma ExactTick(c: Config, s: State, dt: nat, d: Day)
    requires Exact(s, d)
    ensures Exact(Apply(c, s, Tick(dt)), d)
  {
    hide Total, Sum, DueHolds, DueCounters, Read, LiveOn, PendingOn;
    var now := s.now + dt;
    DueHoldsTotal(s.store.holds, now, LiveOn(d));
    DueCounterRead(s.store.budget, now, d);
    SumAppend(s.history, [Expirations(s.store, now)], Booked(d));
    SumShort([Expirations(s.store, now)], Booked(d));
  }

  lemma ExactBegin(c: Config, s: State, id: nat, job: Job, d: Day)
    requires Exact(s, d)
    ensures Exact(Apply(c, s, Begin(id, job)), d)
  {
    hide Total, Sum;
    TotalPut(s.tasks, PendingOn(d), id, FirstTask(job, s.now));
  }

  lemma ExactDie(c: Config, s: State, id: nat, d: Day)
    requires Exact(s, d)
    ensures Exact(Apply(c, s, Die(id)), d)
  {
    hide Total, Sum;
    if Running(s, id) {
      var leak := Leak(s.tasks[id], PendingAmount(s.tasks[id]));
      TotalPut(s.tasks, PendingOn(d), id, Finished(Died));
      SumAppend(s.history, leak, Booked(d));
      SumShort(leak, Booked(d));
    }
  }

  lemma ExactStep(c: Config, s: State, a: Action, d: Day)
    requires Sane(s) && Exact(s, d)
    ensures Exact(Apply(c, s, a), d)
  {
    hide Total, Sum, Exact, ApplyCall, Purge;
    match a
    case Begin(id, job) => ExactBegin(c, s, id, job, d);
    case Call(id, f) => if Running(s, id) { ExactCall(c, s, id, f, d); }
    case Tick(dt) => ExactTick(c, s, dt, d);
    case Die(id) => ExactDie(c, s, id, d);
  }

  lemma {:induction false} ExactRun(c: Config, start: nat, acts: seq<Action>, d: Day)
    ensures Exact(Run(c, start, acts), d)
    decreases |acts|
  {
    if acts != [] {
      ExactRun(c, start, acts[..|acts| - 1], d);
      SaneRun(c, start, acts[..|acts| - 1]);
      ExactStep(c, Run(c, start, acts[..|acts| - 1]), acts[|acts| - 1], d);
    }
  }

  lemma {:induction false} BookedSplits(h: seq<Event>, d: Day)
    ensures Sum(h, Booked(d))
            == Sum(h, CommittedOn(d)) + Sum(h, ForfeitedOn(d)) + Sum(h, LeakedOn(d)) - Sum(h, RetiredOn(d))
    decreases |h|
  {
    if h != [] {
      BookedSplits(h[..|h| - 1], d);
    }
  }

  /** In every reachable state of every run, with any faults and crashes. */
  lemma BudgetExact(c: Config, start: nat, acts: seq<Action>, d: Day)
    ensures var s := Run(c, start, acts);
            Read(s.store.budget, d) + Sum(s.history, RetiredOn(d))
            == Total(s.store.holds, LiveOn(d)) + Sum(s.history, CommittedOn(d)) + Sum(s.history, ForfeitedOn(d))
               + Total(s.tasks, PendingOn(d)) + Sum(s.history, LeakedOn(d))
  {
    hide Total, Sum;
    ExactRun(c, start, acts, d);
    BookedSplits(Run(c, start, acts).history, d);
  }

  /** No call of the run takes effect and loses its reply. */
  ghost predicate NoLostReply(acts: seq<Action>) {
    forall a | a in acts && a.Call? :: !a.fault.LostReply?
  }

  /** No call fails and no handler dies. */
  ghost predicate Faultless(acts: seq<Action>) {
    forall a | a in acts :: !a.Die? && (a.Call? ==> a.fault.Ok?)
  }
}

/** The usage service as a transition system: any number of handlers in flight, each at the
    Redis call it is about to make, over the shared store and a clock. Every Redis call may
    succeed, fail without effect, or take effect and lose its reply; a handler may die anywhere. */
module Protocol {
  import opened Redis
  import opened Sums

  datatype Request = Request(res: ResId, user: UserId, credits: int, ttl: int) {
    /** ttl is in seconds. */
    function Ttl(): nat { (if ttl <= 0 then 120 else ttl) * SECOND }
  }

  /** A create request, the date its handler read, and when it read it. */
  datatype Ticket = Ticket(req: Request, day: Day, since: nat)

  datatype Answer =
    | Created | RequestCapReached | BudgetExhausted | InsufficientCredits
    | Settled | NotValid | Purchased | PurchaseCapReached | Viewed | ServerError | Died | BadRequest | NotFound

  datatype Phase = Counting | Charging | Granting | Placing | Refunding(answer: Answer)

  datatype Task =
    | Creating(phase: Phase, ticket: Ticket)
    | Looking(st: Settlement)
    | Settling(st: Settlement, stamp: Stamp)
    | TopUpCounting(user: UserId, credits: int, day: Day)
    | TopUpGranting(user: UserId, credits: int, day: Day)
    | TopUpMinting(user: UserId, credits: int, day: Day)
    | Viewing(user: UserId)
    | Finished(answer: Answer)

  /** What a run did, in order. Minted carries the date the purchase was counted on, Expired the keys the clock took. */
  datatype Event =
    | Granted(user: UserId, n: int)
    | PurchaseCounted(user: UserId, day: Day)
    | Minted(user: UserId, n: int, day: Day)
    | Counted(day: Day)
    | Held(res: ResId, hold: Hold)
    | Closed(st: Settlement, hold: Hold)
    | Expired(lost: map<ResId, Hold>, retired: map<Day, Counter>, retiredRequests: map<Day, Counter>)
    | Leaked(day: Day, amount: int)

  datatype State = State(
    store: Store, now: nat, tasks: map<nat, Task>, jobs: map<nat, Job>, used: set<ResId>, history: seq<Event>)

  datatype Job =
    | Reserve(req: Request)
    | Reconcile(st: Settlement)
    | TopUp(user: UserId, credits: int)
    | View(user: UserId)

  datatype Fault = Ok | NoEffect | LostReply

  datatype Action =
    | Begin(id: nat, job: Job)
    | Call(id: nat, fault: Fault)
    | Tick(ticks: nat)
    | Die(id: nat)

  function Init(start: nat): State { State(EMPTY_STORE, start, map[], map[], {}, []) }

  /** The Redis call a handler is about to make. */
  function OpOf(t: Task): Op
    requires !t.Finished?
  {
    match t
    case Creating(phase, k) =>
      (match phase
       case Counting => CountRequest(k.day)
       case Charging => ChargeBudget(k.day, k.req.credits)
       case Granting => GrantInitial(k.req.user)
       case Placing => PlaceHold(k.req.res, k.req.user, k.req.credits, k.req.Ttl(), k.day)
       case Refunding(_) => AdjustBudget(k.day, -k.req.credits))
    case Looking(st) => ReadStamp(st.res)
    case Settling(st, stamp) => SettleHold(st, stamp)
    case TopUpCounting(u, _, d) => CountPurchase(u, d)
    case TopUpGranting(u, _, _) => GrantInitial(u)
    case TopUpMinting(u, n, d) => Mint(u, n, d)
    case Viewing(u) => GrantInitial(u)
  }

  function AnswerTo(st: Settlement, v: Verdict): Answer {
    if v.Effective? || (st.Commit? && v.AlreadyCommitted?) || (st.Release? && v.AlreadyReleased?)
    then Settled else NotValid
  }

  /** How a handler goes on after the reply to its call. */
  function Resume(t: Task, r: Reply): Task
    requires !t.Finished?
  {
    match t
    case Creating(phase, k) =>
      (match phase
       case Counting => if r == Number(0) then Finished(RequestCapReached) else Creating(Charging, k)
       case Charging => if r.Number? && r.n < 0 then Finished(BudgetExhausted) else Creating(Granting, k)
       case Granting => Creating(Placing, k)
       case Placing => if r == Placed(true) then Finished(Created) else Creating(Refunding(InsufficientCredits), k)
       case Refunding(a) => Finished(a))
    case Looking(st) => Settling(st, if r.Stamped? then r.stamp else NoDay)
    case Settling(st, _) => Finished(if r.Judged? then AnswerTo(st, r.verdict) else ServerError)
    case TopUpCounting(u, n, d) => if r == Number(0) then Finished(PurchaseCapReached) else TopUpGranting(u, n, d)
    case TopUpGranting(u, n, d) => TopUpMinting(u, n, d)
    case TopUpMinting(_, _, _) => Finished(Purchased)
    case Viewing(_) => Finished(Viewed)
  }

  /** How a handler goes on after an error. A failed grant returns without giving the charge back. */
  function Abort(t: Task): Task
    requires !t.Finished?
  {
    match t
    case Creating(Placing, k) => Creating(Refunding(ServerError), k)
    case Creating(Refunding(a), k) => Finished(a)
    case _ => Finished(ServerError)
  }

  /** What an executed call adds to the history. */
  function EventsOf(c: Config, s: Store, now: nat, op: Op): seq<Event> {
    match op
    case GrantInitial(u) => if u in s.balances then [] else [Granted(u, c.initialCredits)]
    case Mint(u, n, d) => [Minted(u, n, d)]
    case CountPurchase(u, d) => if Read(s.purchases, (u, d)) < c.purchaseLimit then [PurchaseCounted(u, d)] else []
    case CountRequest(d) => if Read(s.requests, d) < c.requestLimit then [Counted(d)] else []
    case PlaceHold(r, u, a, ttl, d) =>
      if Affordable(s, u, a) then [Held(r, Hold(u, a, Reserved, On(d), At(now + ttl)))] else []
    case SettleHold(st, stamp) =>
      if Judge(s, st, stamp) == Effective then [Closed(st, s.holds[st.res])] else []
    case _ => []
  }

  /** The part of a day's counter a handler in flight answers for: charged, not yet held or given back. */
  function PendingAmount(t: Task): int {
    if t.Creating? && (t.phase.Granting? || t.phase.Placing? || t.phase.Refunding?) then t.ticket.req.credits else 0
  }

  /** Charges that nobody answers for any more: an error after the charge, a refund that failed,
      or (negative) a hold that was placed although its handler saw an error and refunds. */
  function LeakOf(c: Config, s: Store, t: Task, f: Fault): int {
    if !t.Creating? then 0 else
    var k := t.ticket;
    match t.phase
    case Counting => 0
    case Charging =>
      if Read(s.budget, k.day) + k.req.credits > c.creditLimit || f.NoEffect? then 0
      else if f.LostReply? || Read(s.budget, k.day) + k.req.credits < 0 then k.req.credits
      else 0
    case Granting => if f.Ok? then 0 else k.req.credits
    case Placing => if f.LostReply? && Affordable(s, k.req.user, k.req.credits) then -k.req.credits else 0
    case Refunding(_) => if f.NoEffect? then k.req.credits else 0
  }

  function Leak(t: Task, n: int): seq<Event> {
    if n == 0 || !t.Creating? then [] else [Leaked(t.ticket.day, n)]
  }

  /** The handler after its call. */
  function Successor(c: Config, s: State, t: Task, f: Fault): Task
    requires !t.Finished?
  {
    if f.Ok? then Resume(t, Exec(c, s.now, s.store, OpOf(t)).1) else Abort(t)
  }

  predicate Running(s: State, id: nat) { id in s.tasks && !s.tasks[id].Finished? }

  function ApplyCall(c: Config, s: State, id: nat, f: Fault): State
    requires Running(s, id)
  {
    var t := s.tasks[id];
    var done := s.(tasks := s.tasks[id := Successor(c, s, t, f)],
                   history := s.history + (if f.NoEffect? then [] else EventsOf(c, s.store, s.now, OpOf(t)))
                                        + Leak(t, LeakOf(c, s.store, t, f)));
    if f.NoEffect? then done else done.(store := Exec(c, s.now, s.store, OpOf(t)).0)
  }

  /** Reservation ids are fresh, as ids.New mints them; requests the handlers answer with 400 start nothing. */
  predicate Admissible(s: State, job: Job) {
    match job
    case Reserve(q) => q.user != "" && q.credits > 0 && q.res !in s.used
    case Reconcile(st) => st.user != ""
    case TopUp(u, n) => u != "" && n > 0
    case View(u) => u != ""
  }

  function FirstTask(job: Job, now: nat): Task {
    match job
    case Reserve(q) => Creating(Counting, Ticket(q, DayOf(now), now))
    case Reconcile(st) => Looking(st)
    case TopUp(u, n) => TopUpCounting(u, n, DayOf(now))
    case View(u) => Viewing(u)
  }

  function Expirations(s: Store, now: nat): Event {
    Expired(DueHolds(s.holds, now), DueCounters(s.budget, now), DueCounters(s.requests, now))
  }

  /** One step; an action that cannot happen changes nothing. */
  function Apply(c: Config, s: State, a: Action): State {
    match a
    case Begin(id, job) =>
      if id in s.tasks || !Admissible(s, job) then s else
      s.(tasks := s.tasks[id := FirstTask(job, s.now)],
         jobs := s.jobs[id := job],
         used := s.used + if job.Reserve? then {job.req.res} else {})
    case Call(id, f) => if Running(s, id) then ApplyCall(c, s, id, f) else s
    case Die(id) =>
      if !Running(s, id) then s else
      s.(tasks := s.tasks[id := Finished(Died)],
         history := s.history + Leak(s.tasks[id], PendingAmount(s.tasks[id])))
    case Tick(dt) =>
      var now := s.now + dt;
      s.(now := now, store := Purge(s.store, now),
         history := s.history + [Expirations(s.store, now)])
  }

  function Run(c: Config, start: nat, acts: seq<Action>): State {
    if acts == [] then Init(start) else Apply(c, Run(c, start, acts[..|acts| - 1]), acts[|acts| - 1])
  }

  /** Nothing is kept from happening: a request that is well formed, for a new reservation, may begin at any time, a
      handler may make its next call with any fault or die, and the clock may go on, whatever the others do. */
  lemma AnythingMayHappen(c: Config, s: State, id: nat, job: Job, f: Fault, dt: nat)
    ensures var proper := match job
                          case Reserve(q) => q.user != "" && q.credits > 0 && q.res !in s.used
                          case TopUp(u, credits) => u != "" && credits > 0
                          case Reconcile(st) => st.user != ""
                          case View(u) => u != "";
            id !in s.tasks && proper ==>
              var s' := Apply(c, s, Begin(id, job));
              s'.tasks == s.tasks[id := FirstTask(job, s.now)] && s'.jobs == s.jobs[id := job] && s'.store == s.store
    ensures id in s.tasks && !s.tasks[id].Finished? ==>
              var s' := Apply(c, s, Call(id, f)); var (store, reply) := Exec(c, s.now, s.store, OpOf(s.tasks[id]));
              && s'.tasks == s.tasks[id := if f.Ok? then Resume(s.tasks[id], reply) else Abort(s.tasks[id])]
              && s'.store == if f.NoEffect? then s.store else store
    ensures id in s.tasks && !s.tasks[id].Finished? ==>
              var s' := Apply(c, s, Die(id)); s'.tasks == s.tasks[id := Finished(Died)] && s'.store == s.store
    ensures Apply(c, s, Tick(dt)).now == s.now + dt && Apply(c, s, Tick(dt)).tasks == s.tasks
  {
    hide Exec, OpOf, Resume, Abort, EventsOf, LeakOf, Leak, Purge, FirstTask;
  }

  /** Every reservation id is taken by at most one handler, and before its hold exists. */
  predicate Unheld(t: Task) {
    t.Creating? && (t.phase.Counting? || t.phase.Charging? || t.phase.Granting? || t.phase.Placing?)
  }

  ghost predicate SaneTickets(s: State) {
    && (forall i | i in s.tasks && s.tasks[i].Creating? ::
          s.tasks[i].ticket.req.credits > 0 && s.tasks[i].ticket.req.res in s.used)
    && (forall i, j | i in s.tasks && j in s.tasks && i != j && s.tasks[i].Creating? && s.tasks[j].Creating? ::
          s.tasks[i].ticket.req.res != s.tasks[j].ticket.req.res)
  }

  ghost predicate SaneHolds(s: State) {
    && (forall r | r in s.store.holds :: r in s.used && s.store.holds[r].amount >= 0)
    && (forall i | i in s.tasks && Unheld(s.tasks[i]) :: s.tasks[i].ticket.req.res !in s.store.holds)
  }

  ghost predicate Sane(s: State) { SaneTickets(s) && SaneHolds(s) }

  /** A handler keeps its ticket, and never goes back to a phase before its hold. */
  lemma SuccessorKeepsTicket(c: Config, s: State, t: Task, f: Fault)
    requires !t.Finished?
    ensures var t' := Successor(c, s, t, f);
            && (t'.Creating? ==> t.Creating? && t'.ticket == t.ticket)
            && (Unheld(t') ==> Unheld(t) && !t.phase.Placing?)
  {
  }

  lemma ExecHolds(c: Config, now: nat, s: Store, op: Op)
    requires forall r | r in s.holds :: s.holds[r].amount >= 0
    requires op.PlaceHold? ==> op.credits > 0
    ensures var s' := Exec(c, now, s, op).0;
            && s'.holds.Keys == s.holds.Keys
               + (if op.PlaceHold? && Affordable(s, op.holder, op.credits) then {op.res} else {})
            && (forall r | r in s'.holds :: s'.holds[r].amount >= 0)
  {
  }

  lemma SaneTicketsCall(c: Config, s: State, id: nat, f: Fault)
    requires SaneTickets(s) && Running(s, id)
    ensures SaneTickets(ApplyCall(c, s, id, f))
  {
    hide Exec, OpOf, Successor, EventsOf, LeakOf, Leak;
    SuccessorKeepsTicket(c, s, s.tasks[id], f);
  }

  lemma SaneHoldsCall(c: Config, s: State, id: nat, f: Fault)
    requires Sane(s) && Running(s, id)
    ensures SaneHolds(ApplyCall(c, s, id, f))
  {
    hide Exec, OpOf, Successor, EventsOf, LeakOf, Leak;
    var t := s.tasks[id];
    PlacesUnheld(t);
    ExecHolds(c, s.now, s.store, OpOf(t));
    SuccessorKeepsTicket(c, s, t, f);
    hide SaneTickets, Affordable, Unheld;
    var s' := ApplyCall(c, s, id, f);
    forall r | r in s'.store.holds
      ensures r in s'.used && s'.store.holds[r].amount >= 0
    {
      assert r in s.store.holds || (t.Creating? && r == t.ticket.req.res);
    }
    forall i | i in s'.tasks && Unheld(s'.tasks[i])
      ensures s'.tasks[i].ticket.req.res !in s'.store.holds
    {
      UnheldStays(s, id, i, s'.tasks[i], s'.store.holds.Keys);
    }
  }

  lemma UnheldStays(s: State, id: nat, i: nat, t: Task, holds: set<ResId>)
    requires Sane(s) && Running(s, id) && i in s.tasks && Unheld(t)
    requires i != id ==> t == s.tasks[i]
    requires i == id ==> s.tasks[id].Creating? && t.ticket == s.tasks[id].ticket && Unheld(s.tasks[id])
                         && !s.tasks[id].phase.Placing?
    requires holds <= s.store.holds.Keys
                      + (if s.tasks[id].Creating? && s.tasks[id].phase.Placing? then {s.tasks[id].ticket.req.res}
                          else {})
    ensures t.ticket.req.res !in holds
  {
  }

  /** Only a handler that has no hold yet places one, for its own reservation. */
  lemma PlacesUnheld(t: Task)
    requires !t.Finished?
    ensures OpOf(t).PlaceHold? ==>
            t.Creating? && t.phase.Placing? && OpOf(t).res == t.ticket.req.res
                && OpOf(t).credits == t.ticket.req.credits
  {
  }

  /** The hold a handler places is new. */
  lemma PlacesNewHold(s: State, id: nat)
    requires Sane(s) && Running(s, id)
    ensures OpOf(s.tasks[id]).PlaceHold? ==> OpOf(s.tasks[id]).res !in s.store.holds
  {
  }

  lemma SaneStep(c: Config, s: State, a: Action)
    requires Sane(s)
    ensures Sane(Apply(c, s, a))
  {
    hide ApplyCall, Purge, SaneTickets, SaneHolds, Leak, PendingAmount, Admissible, FirstTask;
    match a
    case Begin(id, job) => SaneBegin(c, s, id, job);
    case Call(id, f) =>
      if Running(s, id) {
        SaneTicketsCall(c, s, id, f);
        SaneHoldsCall(c, s, id, f);
      }
    case Tick(dt) => SaneTick(c, s, dt);
    case Die(id) => SaneDie(c, s, id);
  }

  lemma SaneBegin(c: Config, s: State, id: nat, job: Job)
    requires Sane(s)
    ensures Sane(Apply(c, s, Begin(id, job)))
  {
  }

  lemma SaneTick(c: Config, s: State, dt: nat)
    requires Sane(s)
    ensures Sane(Apply(c, s, Tick(dt)))
  {
    hide SaneTickets, DueCounters;
    SameTickets(s, Apply(c, s, Tick(dt)));
  }

  lemma SameTickets(s: State, s': State)
    requires SaneTickets(s) && s'.tasks == s.tasks && s'.used == s.used
    ensures SaneTickets(s')
  {
  }

  lemma SaneDie(c: Config, s: State, id: nat)
    requires Sane(s)
    ensures Sane(Apply(c, s, Die(id)))
  {
    hide Leak, PendingAmount;
  }

  lemma {:induction false} SaneRun(c: Config, start: nat, acts: seq<Action>)
    ensures Sane(Run(c, start, acts))
    decreases |acts|
  {
    if acts != [] {
      SaneRun(c, start, acts[..|acts| - 1]);
      SaneStep(c, Run(c, start, acts[..|acts| - 1]), acts[|acts| - 1]);
    }
  }

  /** What a call adds to a sum over the history. */
  lemma CallHistory(c: Config, s: State, id: nat, f: Fault, w: Event -> int)
    requires Running(s, id)
    ensures var t := s.tasks[id]; var n := LeakOf(c, s.store, t, f);
            Sum(ApplyCall(c, s, id, f).history, w) == Sum(s.history, w)
              + (if f.NoEffect? then 0 else Sum(EventsOf(c, s.store, s.now, OpOf(t)), w))
              + (if n == 0 || !t.Creating? then 0 else w(Leaked(t.ticket.day, n)))
  {
    hide Total, Sum;
    var t := s.tasks[id];
    var es := if f.NoEffect? then [] else EventsOf(c, s.store, s.now, OpOf(t));
    var leak := Leak(t, LeakOf(c, s.store, t, f));
    SumShort(es, w);
    SumShort(leak, w);
    SumAppend(s.history, es, w);
    SumAppend(s.history + es, leak, w);
  }

  lemma HistoryGrows(c: Config, s: State, a: Action)
    ensures s.history <= Apply(c, s, a).history
  {
  }

  function NewEvents(c: Config, s: State, a: Action): seq<Event> {
    HistoryGrows(c, s, a);
    Apply(c, s, a).history[|s.history|..]
  }

  /** Only the clock expires keys, and it records them in one event. */
  lemma NewEventsKinds(c: Config, s: State, a: Action)
    ensures a.Tick? ==> NewEvents(c, s, a) == [Expirations(s.store, s.now + a.ticks)]
    ensures !a.Tick? ==> forall e | e in NewEvents(c, s, a) :: !e.Expired?
  {
  }

  lemma NewEventsSum(c: Config, s: State, a: Action, w: Event -> int)
    ensures Sum(Apply(c, s, a).history, w) == Sum(s.history, w) + Sum(NewEvents(c, s, a), w)
  {
    hide Total, Sum;
    assert Apply(c, s, a).history == s.history + NewEvents(c, s, a);
    SumAppend(s.history, NewEvents(c, s, a), w);
  }

  /** Expired holds leave a sum over the holds by exactly their own weight. */
  lemma DueHoldsTotal(m: map<ResId, Hold>, now: nat, w: (ResId, Hold) -> int)
    ensures Total(m, w) == Total(DueHolds(m, now), w) + Total(m - DueHolds(m, now).Keys, w)
  {
    hide Total, Sum;
    var ks := DueHolds(m, now).Keys;
    TotalSplit(m, w, ks);
    assert (map k | k in m && k in ks :: m[k]) == DueHolds(m, now);
  }
}

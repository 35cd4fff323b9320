/** The gateway's traffic on the usage service: runs that settle their own holds, for no more than
    they hold, leave no user in debt and no day over its limit. */
module Traffic {
  import opened Sums
  import opened Redis
  import opened Protocol
  import opened Budget
  import opened Timing
  import opened Conservation
  import opened Solvency
  import Adapter
  import Answers
  import Gateway
  import AtomicBank
  import Options
  import Tokens

  /** What a reservation id stands for: its user and the credits held. */
  datatype Booking = Booking(user: UserId, credits: int)

  type Plan = map<ResId, Booking>

  /** The settlement names the hold's user and keeps no more than the hold. */
  predicate Covered(plan: Plan, st: Settlement) {
    st.res in plan && st.user == plan[st.res].user && Kept(st) <= plan[st.res].credits
  }

  predicate Matches(plan: Plan, r: ResId, u: UserId, credits: int) {
    r in plan && plan[r] == Booking(u, credits)
  }

  /** The handlers that the gateway starts follow the plan. */
  predicate Follows(plan: Plan, a: Action) {
    match a
    case Begin(_, Reserve(q)) => Matches(plan, q.res, q.user, q.credits)
    case Begin(_, Reconcile(st)) => Covered(plan, st)
    case _ => true
  }

  predicate TaskFollows(plan: Plan, t: Task) {
    match t
    case Creating(_, k) => Matches(plan, k.req.res, k.req.user, k.req.credits)
    case Looking(st) => Covered(plan, st)
    case Settling(st, _) => Covered(plan, st)
    case _ => true
  }

  predicate OpFollows(plan: Plan, op: Op) {
    match op
    case PlaceHold(r, u, a, _, _) => Matches(plan, r, u, a)
    case SettleHold(st, _) => Covered(plan, st)
    case _ => true
  }

  ghost predicate HoldsFollow(plan: Plan, s: Store) {
    forall r | Live(s, r) :: Matches(plan, r, s.holds[r].user, s.holds[r].amount)
  }

  predicate WithinHold(e: Event) {
    e.Closed? ==> e.st.user == e.hold.user && Kept(e.st) <= e.hold.amount
  }

  ghost predicate Orderly(plan: Plan, s: State) {
    && (forall i | i in s.tasks :: TaskFollows(plan, s.tasks[i]))
    && HoldsFollow(plan, s.store)
    && (forall e | e in s.history :: WithinHold(e))
  }

  lemma ExecFollows(plan: Plan, c: Config, now: nat, s: Store, op: Op)
    requires HoldsFollow(plan, s) && OpFollows(plan, op)
    ensures HoldsFollow(plan, Exec(c, now, s, op).0)
    ensures forall e | e in EventsOf(c, s, now, op) :: WithinHold(e)
  {
  }

  lemma TaskOpFollows(plan: Plan, c: Config, s: State, t: Task, f: Fault)
    requires !t.Finished? && TaskFollows(plan, t)
    ensures OpFollows(plan, OpOf(t)) && TaskFollows(plan, Successor(c, s, t, f))
  {
  }

  lemma OrderlyCall(plan: Plan, c: Config, s: State, id: nat, f: Fault)
    requires Running(s, id) && Orderly(plan, s)
    ensures Orderly(plan, ApplyCall(c, s, id, f))
  {
    hide Exec, OpOf, Successor, EventsOf, LeakOf, OpFollows, HoldsFollow, TaskFollows, WithinHold;
    TaskOpFollows(plan, c, s, s.tasks[id], f);
    ExecFollows(plan, c, s.now, s.store, OpOf(s.tasks[id]));
    LeaksSettle(s.tasks[id], LeakOf(c, s.store, s.tasks[id], f));
  }

  lemma LeaksSettle(t: Task, n: int)
    ensures forall e | e in Leak(t, n) :: WithinHold(e)
  {
  }

  lemma OrderlyStep(plan: Plan, c: Config, s: State, a: Action)
    requires Orderly(plan, s) && Follows(plan, a)
    ensures Orderly(plan, Apply(c, s, a))
  {
    hide ApplyCall, Matches;
    if a.Call? && Running(s, a.id) {
      OrderlyCall(plan, c, s, a.id, a.fault);
    } else if a.Tick? {
      var s' := Apply(c, s, a);
      assert forall r | Live(s'.store, r) :: Live(s.store, r) && s'.store.holds[r] == s.store.holds[r];
    }
  }

  lemma {:induction false} OrderlyRun(plan: Plan, c: Config, start: nat, acts: seq<Action>)
    requires forall a | a in acts :: Follows(plan, a)
    ensures Orderly(plan, Run(c, start, acts))
    decreases |acts|
  {
    if acts != [] {
      OrderlyRun(plan, c, start, acts[..|acts| - 1]);
      OrderlyStep(plan, c, Run(c, start, acts[..|acts| - 1]), acts[|acts| - 1]);
    }
  }

  /** Whatever faults, crashes and interleavings: no balance is ever negative, and every user's credits
      are conserved on their own. With punctual handlers and no lost replies, what a day holds, has
      spent and forfeited never passes its limit. */
  lemma PlannedTrafficIsSolvent(plan: Plan, patience: nat, c: Config, start: nat, acts: seq<Action>, u: UserId, d: Day)
    requires forall a | a in acts :: Follows(plan, a)
    ensures Balance(Run(c, start, acts).store, u) >= 0
    ensures OwnSettlements(Run(c, start, acts).history)
    ensures forall e | e in Run(c, start, acts).history && e.Closed? :: Kept(e.st) <= e.hold.amount
    ensures Punctual(patience, c, start, acts) && NoLostReply(acts) ==>
              var s := Run(c, start, acts);
              Total(s.store.holds, LiveOn(d)) + Sum(s.history, CommittedOn(d)) + Sum(s.history, ForfeitedOn(d))
              + Total(s.tasks, PendingOn(d)) <= c.creditLimit
  {
    hide Total, Sum, Run, Punctual, NoLostReply;
    var s := Run(c, start, acts);
    OrderlyRun(plan, c, start, acts);
    BalanceBound(c, start, acts, u);
    SumZero(s.history, OverageOf(u));
    SumZero(s.history, OverageOn(d));
    if Punctual(patience, c, start, acts) && NoLostReply(acts) {
      SpendingBounded(patience, c, start, acts, d);
    }
  }

  // ---- the gateway's own runs follow such a plan ----

  const CHAT_TTL := 600
  const GENERATE_TTL := 180

  /** How a run of the gateway reaches its settlement. */
  datatype Route =
    | Streaming(up: Gateway.Upstream, stuck: Options.Option<nat>, trace: seq<Adapter.Event>)
    | Buffering(reply: Adapter.Buffered)
    | Generating(reply: Adapter.Buffered)

  /** One run of the gateway: whose it is, its idempotency key, and what it meets. reserved tells whether the
      gateway was told that its reservation succeeded, if it needs one, and accepted whether it was told so of its
      settlement; noted and ended whether the ledger event of the reservation and the one that closes the run
      arrive, if they are sent. */
  datatype Session = Session(
    user: UserId, idem: string, p: Gateway.Settings, inputBytes: nat, maxTokens: int, route: Route,
    client: Gateway.Client, reserved: bool, accepted: bool, noted: bool, ended: bool)
  {
    function Ttl(): int { if route.Generating? then GENERATE_TTL else CHAT_TTL }

    /** Generate knows no local and no mock billing. */
    predicate Possible() { route.Generating? ==> p.billing.Platform? || p.billing.Byok? }

    /** The upstream follows the event grammar, and the provider counts no more tokens than the ceiling. */
    ghost predicate Fair() {
      && inputBytes > 0 && maxTokens > 0 && Gateway.Holds(p, inputBytes, maxTokens)
      && match route
         case Streaming(up, _, trace) =>
           && Adapter.Trace(trace) && (up.Refused? || Gateway.Delivers(up, trace))
           && (forall e | e in trace && e.Usage? :: e.total.value <= inputBytes + 32 + maxTokens)
         case Buffering(reply) => reply.Total? ==> reply.n <= inputBytes + 32 + maxTokens
         case Generating(reply) => reply.Total? ==> reply.n <= inputBytes + 32 + maxTokens
    }

    /** What the run does, once it may start. */
    function Outcome(): Gateway.Outcome
      requires Possible()
    {
      match route
      case Streaming(up, stuck, _) => Gateway.ChatOutcome(p, up, stuck, client, accepted)
      case Buffering(reply) => Gateway.BufferedOutcome(p, reply, client, accepted)
      case Generating(reply) => Gateway.GenerateOutcome(p, reply, client, accepted)
    }

    /** The client stays as long as the closing ledger event needs it, which a chat's does not. */
    predicate Closes() { route.Generating? ==> client.There(Gateway.RECORDING) }

    /** Both ledger events are sent, as far as the client goes, and arrive. */
    predicate Documented() { client.There(Gateway.RESERVING) && Closes() && noted && ended }

    /** A metered run whose reservation is refused, or not heard of, ends there. */
    predicate Runs() { Gateway.Starts(p, client, reserved) }

    /** The settlement calls of the run. */
    function Calls(): seq<Gateway.SettleCall>
      requires Possible()
    {
      if Runs() then Outcome().calls else []
    }

    /** The ledger events of the run. */
    function Rows(): seq<Gateway.Row>
      requires Possible()
    {
      if Runs() then Outcome().rows else []
    }
  }

  /** A run that needs a reservation does nothing without one, or for a client that left before it was told; any other
      does all it has to. */
  lemma SessionStarts(x: Session)
    requires x.Possible()
    ensures var without := x.p.billing.Platform? && (!x.reserved || x.client == Gateway.Leaves(0));
            && x.Calls() == (if without then [] else x.Outcome().calls)
            && x.Rows() == (if without then [] else x.Outcome().rows)
  {
    hide Gateway.ChatOutcome, Gateway.BufferedOutcome, Gateway.GenerateOutcome;
  }

  /** The hold of a chat lasts ten minutes, that of a generate three. */
  lemma SessionHolds(sessions: Sessions, q: Request)
    requires Routed(sessions, Reserve(q))
    ensures q.Ttl() == if sessions[q.res].route.Generating? then 3 * 60 * 1000 else 10 * 60 * 1000
  {
  }

  /** What the gateway's runs have in common, whatever their route. */
  lemma SessionSettles(x: Session)
    requires x.Possible()
    ensures Gateway.OneClosing(x.p, x.client, x.Outcome().rows)
    ensures x.p.Metered() && x.Closes() ==> Gateway.SettledOnce(x.p, x.Outcome(), x.accepted)
    ensures x.p.Metered() && !x.Closes() ==> x.Outcome().rows == Gateway.Reservation(x.p, x.client)
    ensures x.p.Metered() ==> |x.Outcome().calls| <= 1
    ensures !x.p.Metered() ==> x.Outcome().calls == []
    ensures x.p.estimated >= 0 ==> Gateway.NonNegative(x.Outcome().calls)
  {
    hide Gateway.NonNegative;
    hide Gateway.ChatOutcome, Gateway.BufferedOutcome, Gateway.GenerateOutcome, Gateway.OneClosing;
    match x.route
    case Streaming(up, stuck, _) =>
      Gateway.OneSettlement(x.p, up, stuck, x.client, Adapter.Total(0), x.accepted);
    case Buffering(reply) =>
      Gateway.OneSettlement(x.p, Gateway.Refused, Options.None, x.client, reply, x.accepted);
    case Generating(reply) => Gateway.GenerateSettles(x.p, reply, x.client, x.accepted);
  }

  /** The gateway's runs; a metered one stands under the id of its reservation. */
  type Sessions = map<ResId, Session>

  function SettlementOf(r: ResId, x: Session, call: Gateway.SettleCall): Settlement {
    match call
    case CommitCall(n) => Commit(r, x.user, if n < 0 then 0 else n)
    case ReleaseCall => Release(r, x.user)
  }

  /** A job of the usage service started by one of the gateway's runs, or not by a run at all; settlements may be
      sent any number of times. */
  ghost predicate Routed(sessions: Sessions, job: Job) {
    match job
    case Reserve(q) =>
      && q.res in sessions
      && var x := sessions[q.res];
         x.Possible() && x.p.Metered() && q == Request(q.res, x.user, x.p.estimated, x.Ttl())
    case Reconcile(st) =>
      && st.res in sessions
      && var x := sessions[st.res];
         x.Possible() && x.p.Metered() && exists call | call in x.Calls() :: st == SettlementOf(st.res, x, call)
    case _ => true
  }

  /** And the run is a fair one. */
  ghost predicate Serves(sessions: Sessions, a: Action) {
    a.Begin? ==>
      && Routed(sessions, a.job)
      && (a.job.Reserve? ==> sessions[a.job.req.res].Fair())
      && (a.job.Reconcile? ==> sessions[a.job.st.res].Fair())
  }

  function PlanOf(sessions: Sessions): Plan {
    map r | r in sessions :: Booking(sessions[r].user, sessions[r].p.estimated)
  }

  lemma SessionStaysWithinHold(x: Session)
    requires x.Fair() && x.Possible() && x.p.Metered()
    ensures 1 <= x.p.estimated
    ensures forall call | call in x.Calls() && call.CommitCall? :: call.credits <= x.p.estimated
  {
    hide Gateway.ChatOutcome, Gateway.BufferedOutcome;
    Tokens.CreditsCover(Tokens.Ceiling(x.inputBytes, x.maxTokens), x.p.tokensPerCredit);
    match x.route
    case Streaming(up, stuck, trace) =>
      Gateway.StreamChargeInRange(x.p, x.inputBytes, x.maxTokens, up, stuck, x.client, x.accepted, trace);
    case Buffering(reply) => Gateway.BufferedWithinHold(x.p, x.inputBytes, x.maxTokens, reply, x.client, x.accepted);
    case Generating(reply) => Gateway.BufferedWithinHold(x.p, x.inputBytes, x.maxTokens, reply, x.client, x.accepted);
  }

  lemma ServesFollows(sessions: Sessions, a: Action)
    requires Serves(sessions, a)
    ensures Follows(PlanOf(sessions), a)
  {
    if a.Begin? && a.job.Reconcile? {
      var x := sessions[a.job.st.res];
      SessionStaysWithinHold(x);
      var call :| call in x.Calls() && a.job.st == SettlementOf(a.job.st.res, x, call);
    }
  }

  /** No create handler takes longer from reading the date than the slack leaves beside the longest TTL, 3000 s. */
  ghost predicate Brisk(c: Config, start: nat, acts: seq<Action>)
    decreases |acts|
  {
    acts == [] ||
    (Brisk(c, start, acts[..|acts| - 1])
     && (acts[|acts| - 1].Tick? ==>
        PunctualStep(SLACK - CHAT_TTL * SECOND, Run(c, start, acts[..|acts| - 1]), acts[|acts| - 1])))
  }

  lemma {:induction false} BriskIsPunctual(sessions: Sessions, c: Config, start: nat, acts: seq<Action>)
    requires forall a | a in acts :: Serves(sessions, a)
    requires Brisk(c, start, acts)
    ensures Punctual(SLACK - CHAT_TTL * SECOND, c, start, acts)
    decreases |acts|
  {
    if acts != [] {
      BriskIsPunctual(sessions, c, start, acts[..|acts| - 1]);
      assert Serves(sessions, acts[|acts| - 1]);
    }
  }

  /** The whole system: any number of gateway runs, with any upstream behaviour, client hangups, retried
      settlements, Redis faults and crashes, leaves no user in debt; every user's balance is their one grant plus
      purchases minus live, committed and forfeited credits; and when create handlers are brisk and no reply is lost,
      no day passes its budget. */
  lemma GatewayIsSolvent(sessions: Sessions, c: Config, start: nat, acts: seq<Action>, u: UserId, d: Day)
    requires forall a | a in acts :: Serves(sessions, a)
    ensures Balance(Run(c, start, acts).store, u) >= 0
    ensures OwnSettlements(Run(c, start, acts).history)
    ensures forall e | e in Run(c, start, acts).history && e.Closed? :: Kept(e.st) <= e.hold.amount
    ensures var s := Run(c, start, acts);
            Balance(s.store, u) == (if u in s.store.balances then c.initialCredits else 0)
              + Sum(s.history, MintedFor(Only(u))) - Total(s.store.holds, LiveIn(Only(u)))
              - Sum(s.history, CommittedBy(Only(u))) - Sum(s.history, ForfeitedBy(Only(u)))
    ensures Brisk(c, start, acts) && NoLostReply(acts) ==>
              var s := Run(c, start, acts);
              Total(s.store.holds, LiveOn(d)) + Sum(s.history, CommittedOn(d)) + Sum(s.history, ForfeitedOn(d))
              + Total(s.tasks, PendingOn(d)) <= c.creditLimit
  {
    hide Total, Sum, Run, Punctual, Brisk, NoLostReply, Follows, Serves;
    forall a | a in acts
      ensures Follows(PlanOf(sessions), a)
    {
      ServesFollows(sessions, a);
    }
    if Brisk(c, start, acts) {
      BriskIsPunctual(sessions, c, start, acts);
    }
    PlannedTrafficIsSolvent(PlanOf(sessions), SLACK - CHAT_TTL * SECOND, c, start, acts, u, d);
    UserCreditsConserved(u, c, start, acts);
  }

  /** With the same runs, brisk handlers and no lost reply, the service is an atomic bank without slack: what
      happened is a sequential history of atomic operations, with the balances and open holds that Redis has, and what
      the gateway was answered is that history. */
  lemma GatewaySeesAtomicBank(sessions: Sessions, c: Config, start: nat, acts: seq<Action>, u: UserId)
    requires forall a | a in acts :: Serves(sessions, a)
    requires Brisk(c, start, acts) && NoLostReply(acts)
    ensures var s := Run(c, start, acts); var b := AtomicBank.ReplayStrictly(c, s.history);
            b.Some? && b.value.balances == s.store.balances && b.value.open == AtomicBank.LiveView(s.store.holds)
    ensures Answers.Answered(Run(c, start, acts), u, true)
  {
    hide Run, Punctual, Brisk, NoLostReply, Serves, OwnSettlements, Answers.Answered, AtomicBank.ReplayStrictly,
         AtomicBank.LiveView;
    GatewayIsSolvent(sessions, c, start, acts, "", 0);
    BriskIsPunctual(sessions, c, start, acts);
    AtomicBank.RefinesStrictBank(SLACK - CHAT_TTL * SECOND, c, start, acts);
    Answers.AnswersAreTrue(c, start, acts, u);
  }
}

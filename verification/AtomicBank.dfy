/** The specification the interleaved handlers refine: a sequential bank whose operations are atomic. */
module AtomicBank {
  import opened Options
  import opened Sums
  import opened Redis
  import opened Protocol
  import opened Budget
  import opened Timing
  import opened Solvency
  import opened Settlements
  import Answers
  import Conservation

  datatype OpenHold = OpenHold(user: UserId, amount: int, stamp: Stamp)

  /** A reservation that is over: what it cost its day, and what it was charged beyond its hold. */
  datatype Charge = Charge(stamp: Stamp, cost: int, excess: int)

  datatype Bank = Bank(balances: map<UserId, int>, open: map<ResId, OpenHold>, closed: map<ResId, Charge>)

  datatype BankOp =
    | Grant(user: UserId)
    | Purchase(user: UserId, n: int)
    | Reserve(res: ResId, user: UserId, amount: int, stamp: Stamp)
    | CommitHold(res: ResId, actual: nat)
    | ReleaseHold(res: ResId)
    | Forfeit(gone: set<ResId>)
    | Skip

  ghost function OpenOn(d: Day): (ResId, OpenHold) -> int {
    (r, h: OpenHold) => if h.stamp == On(d) then h.amount else 0
  }

  ghost function CostOn(d: Day): (ResId, Charge) -> int {
    (r, k: Charge) => if k.stamp == On(d) then k.cost else 0
  }

  ghost function ExcessOn(d: Day): (ResId, Charge) -> int {
    (r, k: Charge) => if k.stamp == On(d) then k.excess else 0
  }

  /** What the day's budget is taken up by: open holds and what closed ones cost. */
  ghost function Used(b: Bank, d: Day): int { Total(b.open, OpenOn(d)) + Total(b.closed, CostOn(d)) }

  ghost predicate Allowed(c: Config, b: Bank, op: BankOp) {
    match op
    case Grant(u) => u !in b.balances
    case Purchase(u, n) => u in b.balances && n > 0
    case Reserve(r, u, a, stamp) =>
      && r !in b.open && r !in b.closed && u in b.balances && 0 < a <= b.balances[u]
      && stamp.On? && Used(b, stamp.day) + a <= c.creditLimit + Total(b.closed, ExcessOn(stamp.day))
    case CommitHold(r, _) => r in b.open && b.open[r].user in b.balances
    case ReleaseHold(r) => r in b.open && b.open[r].user in b.balances
    case Forfeit(gone) => gone <= b.open.Keys
    case Skip => true
  }

  function Perform(c: Config, b: Bank, op: BankOp): Bank {
    match op
    case Grant(u) => b.(balances := b.balances[u := c.initialCredits])
    case Purchase(u, n) => b.(balances := Credit(b.balances, u, n))
    case Reserve(r, u, a, stamp) =>
      b.(balances := Credit(b.balances, u, -a), open := b.open[r := OpenHold(u, a, stamp)])
    case CommitHold(r, actual) =>
      if r !in b.open then b else
      var h := b.open[r];
      b.(balances := Credit(b.balances, h.user, h.amount - actual), open := b.open - {r},
         closed := b.closed[r := Charge(h.stamp, actual, if actual > h.amount then actual - h.amount else 0)])
    case ReleaseHold(r) =>
      if r !in b.open then b else
      b.(balances := Credit(b.balances, b.open[r].user, b.open[r].amount), open := b.open - {r},
         closed := b.closed[r := Charge(b.open[r].stamp, 0, 0)])
    case Forfeit(gone) =>
      b.(open := b.open - gone,
         closed := b.closed + (map r | r in gone && r in b.open :: Charge(b.open[r].stamp, b.open[r].amount, 0)))
    case Skip => b
  }

  /** The bank operation an event of the service stands for. */
  function Meaning(e: Event): BankOp {
    match e
    case Granted(u, _) => Grant(u)
    case Minted(u, n, _) => Purchase(u, n)
    case Held(r, h) => BankOp.Reserve(r, h.user, h.amount, h.stamp)
    case Closed(Commit(r, _, actual), _) => CommitHold(r, actual)
    case Closed(Release(r, _), _) => ReleaseHold(r)
    case Expired(lost, _, _) => Forfeit(set r | r in lost && lost[r].status == Reserved)
    case _ => Skip
  }

  const EMPTY_BANK := Bank(map[], map[], map[])

  /** Run the bank along a history; None as soon as an operation is not allowed. */
  ghost function Replay(c: Config, h: seq<Event>): Option<Bank> {
    if h == [] then Some(EMPTY_BANK) else
    match Replay(c, h[..|h| - 1])
    case None => None
    case Some(b) =>
      var op := Meaning(h[|h| - 1]);
      if Allowed(c, b, op) then Some(Perform(c, b, op)) else None
  }

  /** The service's live reservations, without their Redis bookkeeping. */
  function LiveView(holds: map<ResId, Hold>): map<ResId, OpenHold> {
    map r | r in holds && holds[r].status == Reserved :: OpenHold(holds[r].user, holds[r].amount, holds[r].stamp)
  }

  lemma {:induction false} LiveViewTotal(holds: map<ResId, Hold>, d: Day)
    ensures Total(LiveView(holds), OpenOn(d)) == Total(holds, LiveOn(d))
    decreases |holds|
  {
    hide Total;
    if holds == map[] {
      TotalZero(holds, LiveOn(d));
      TotalZero(LiveView(holds), OpenOn(d));
    } else {
      var r :| r in holds;
      TotalRemove(holds, LiveOn(d), r);
      LiveViewTotal(holds - {r}, d);
      assert LiveView(holds - {r}) == LiveView(holds) - {r};
      if holds[r].status == Reserved {
        TotalRemove(LiveView(holds), OpenOn(d), r);
      } else {
        assert LiveView(holds) - {r} == LiveView(holds);
      }
    }
  }

  /** The bank that replays the service's history is in the same position. */
  ghost predicate Mirrors(h: seq<Event>, s: Store, b: Bank) {
    && b.balances == s.balances
    && b.open == LiveView(s.holds)
    && (forall d :: Total(b.closed, CostOn(d)) == Sum(h, CommittedOn(d)) + Sum(h, ForfeitedOn(d)))
    && (forall d :: Total(b.closed, ExcessOn(d)) == Sum(h, OverageOn(d)))
    && (forall r | r in b.closed :: r !in b.open && Sum(h, HeldAs(r)) > 0)
  }

  // ---- one event ----

  lemma OneMore(h: seq<Event>, e: Event, w: Event -> int)
    ensures Sum(h + [e], w) == Sum(h, w) + w(e)
  {
  }

  /** What one event adds to each sum the bank is compared with. */
  lemma Tally(h: seq<Event>, e: Event)
    ensures forall d :: Sum(h + [e], CommittedOn(d)) == Sum(h, CommittedOn(d)) + CommittedOn(d)(e)
    ensures forall d :: Sum(h + [e], ForfeitedOn(d)) == Sum(h, ForfeitedOn(d)) + ForfeitedOn(d)(e)
    ensures forall d :: Sum(h + [e], OverageOn(d)) == Sum(h, OverageOn(d)) + OverageOn(d)(e)
    ensures forall r :: Sum(h + [e], HeldAs(r)) == Sum(h, HeldAs(r)) + HeldAs(r)(e)
  {
  }

  lemma MirrorsQuiet(h: seq<Event>, s: Store, b: Bank, e: Event, s': Store)
    requires Mirrors(h, s, b) && !e.Held? && !e.Closed? && !e.Expired? && s'.holds == s.holds
    ensures Mirrors(h + [e], s', b.(balances := s'.balances))
  {
  }

  lemma MirrorsHeld(h: seq<Event>, s: Store, b: Bank, e: Event, now: nat, r: ResId, u: UserId, a: int, ttl: nat,
      stamp: Stamp)
    requires Mirrors(h, s, b) && r !in s.holds && r !in b.closed && Affordable(s, u, a)
    requires e == Held(r, Hold(u, a, Reserved, stamp, At(now + ttl)))
    ensures Mirrors(h + [e], Place(s, r, u, a, ttl, stamp, now),
                    b.(balances := Credit(b.balances, u, -a), open := b.open[r := OpenHold(u, a, stamp)]))
  {
    hide Total, Sum;
    Tally(h, e);
    assert LiveView(Place(s, r, u, a, ttl, stamp, now).holds) == LiveView(s.holds)[r := OpenHold(u, a, stamp)];
  }

  lemma ClosedTotals(m: map<ResId, Charge>, r: ResId, k: Charge)
    requires r !in m
    ensures forall d :: Total(m[r := k], CostOn(d)) == Total(m, CostOn(d)) + CostOn(d)(r, k)
    ensures forall d :: Total(m[r := k], ExcessOn(d)) == Total(m, ExcessOn(d)) + ExcessOn(d)(r, k)
  {
    hide Total;
    forall d
      ensures Total(m[r := k], CostOn(d)) == Total(m, CostOn(d)) + CostOn(d)(r, k)
      ensures Total(m[r := k], ExcessOn(d)) == Total(m, ExcessOn(d)) + ExcessOn(d)(r, k)
    {
      TotalPut(m, CostOn(d), r, k);
      TotalPut(m, ExcessOn(d), r, k);
    }
  }

  lemma PayBackIsCredit(balances: map<UserId, int>, h: Hold, st: Settlement)
    requires st.user in balances
    ensures PayBack(balances, h, st) == Credit(balances, st.user, h.amount - Kept(st))
  {
  }

  lemma SettledView(s: Store, st: Settlement, stamp: Stamp, now: nat)
    requires Judge(s, st, stamp) == Effective
    ensures LiveView(Settle(s, st, stamp, now).holds) == LiveView(s.holds) - {st.res}
    ensures st.res in LiveView(s.holds)
    ensures LiveView(s.holds)[st.res] == OpenHold(s.holds[st.res].user, s.holds[st.res].amount, s.holds[st.res].stamp)
  {
  }

  /** A settlement of its own user's live hold is the bank's commit or release. */
  lemma MirrorsClosed(c: Config, h: seq<Event>, s: Store, b: Bank, st: Settlement, stamp: Stamp, now: nat)
    requires Mirrors(h, s, b) && Judge(s, st, stamp) == Effective
    requires st.user == s.holds[st.res].user && st.user in s.balances && s.holds[st.res].amount >= 0
    requires Sum(h, HeldAs(st.res)) > 0
    ensures var e := Closed(st, s.holds[st.res]);
            Allowed(c, b, Meaning(e)) && Mirrors(h + [e], Settle(s, st, stamp, now), Perform(c, b, Meaning(e)))
  {
    hide Total, Sum, LiveView, PayBack, ReconcileBudget, Used, CommittedOn, OverageOn;
    var hold := s.holds[st.res];
    var k := Charge(hold.stamp, Kept(st), Excess(st, hold));
    OpenMirrors(h, s, b);
    SettledView(s, st, stamp, now);
    PayBackIsCredit(s.balances, hold, st);
    ChargeIsBooked(st, hold);
    hide Mirrors;
    MirrorsSettled(h, s, b, Closed(st, hold), st.res, k, Settle(s, st, stamp, now));
  }

  lemma OpenMirrors(h: seq<Event>, s: Store, b: Bank)
    requires Mirrors(h, s, b)
    ensures b.balances == s.balances && b.open == LiveView(s.holds)
    ensures forall r | r in b.closed :: r !in b.open
  {
    hide Total, Sum, LiveView;
  }

  lemma ChargeIsBooked(st: Settlement, hold: Hold)
    ensures var k := Charge(hold.stamp, Kept(st), Excess(st, hold));
            forall d :: CostOn(d)(st.res, k) == CommittedOn(d)(Closed(st, hold))
                        && ExcessOn(d)(st.res, k) == OverageOn(d)(Closed(st, hold))
  {
  }

  lemma MirrorsSettled(h: seq<Event>, s: Store, b: Bank, e: Event, r: ResId, k: Charge, s': Store)
    requires Mirrors(h, s, b) && e.Closed? && r in b.open && Sum(h, HeldAs(r)) > 0
    requires LiveView(s'.holds) == b.open - {r}
    requires forall d :: CostOn(d)(r, k) == CommittedOn(d)(e) && ExcessOn(d)(r, k) == OverageOn(d)(e)
    ensures Mirrors(h + [e], s', Bank(s'.balances, b.open - {r}, b.closed[r := k]))
  {
    hide Total, Sum, LiveView, CostOn, ExcessOn, CommittedOn, OverageOn;
    Tally(h, e);
    ClosedTotals(b.closed, r, k);
  }

  lemma {:induction false} ForfeitTotals(lost: map<ResId, OpenHold>, d: Day)
    ensures var m := map r | r in lost :: Charge(lost[r].stamp, lost[r].amount, 0);
            Total(m, CostOn(d)) == Total(lost, OpenOn(d)) && Total(m, ExcessOn(d)) == 0
    decreases |lost|
  {
    var m := map r | r in lost :: Charge(lost[r].stamp, lost[r].amount, 0);
    if lost == map[] {
      assert m == map[];
    } else {
      var r :| r in lost;
      ForfeitTotals(lost - {r}, d);
      assert m - {r} == map r' | r' in lost - {r} :: Charge((lost - {r})[r'].stamp, (lost - {r})[r'].amount, 0);
      TotalRemove(lost, OpenOn(d), r);
      TotalRemove(m, CostOn(d), r);
      TotalRemove(m, ExcessOn(d), r);
    }
  }

  /** Disjoint maps add up. */
  lemma TotalUnion<K, V>(m: map<K, V>, n: map<K, V>, w: (K, V) -> int)
    requires m.Keys !! n.Keys
    ensures Total(m + n, w) == Total(m, w) + Total(n, w)
  {
    TotalSplit(m + n, w, n.Keys);
    assert (map k | k in m + n && k in n.Keys :: (m + n)[k]) == n;
    assert m + n - n.Keys == m;
  }

  lemma PurgedView(holds: map<ResId, Hold>, now: nat)
    ensures var lost := LiveView(DueHolds(holds, now));
            && LiveView(holds - DueHolds(holds, now).Keys) == LiveView(holds) - lost.Keys
            && lost.Keys <= LiveView(holds).Keys
            && (forall r | r in lost :: lost[r] == LiveView(holds)[r])
  {
  }

  /** What forfeited holds cost. */
  function Forfeited(lost: map<ResId, OpenHold>): map<ResId, Charge> {
    map r | r in lost :: Charge(lost[r].stamp, lost[r].amount, 0)
  }

  lemma MeaningOfExpired(e: Event)
    requires e.Expired?
    ensures Meaning(e) == Forfeit(LiveView(e.lost).Keys)
  {
  }

  lemma PerformForfeit(c: Config, b: Bank, lost: map<ResId, OpenHold>)
    requires lost.Keys <= b.open.Keys && forall r | r in lost :: lost[r] == b.open[r]
    ensures Perform(c, b, Forfeit(lost.Keys)) == b.(open := b.open - lost.Keys, closed := b.closed + Forfeited(lost))
  {
    assert (map r | r in lost.Keys && r in b.open :: Charge(b.open[r].stamp, b.open[r].amount, 0)) == Forfeited(lost);
  }

  /** What the clock takes, the bank forfeits. */
  lemma MirrorsExpired(c: Config, h: seq<Event>, s: Store, b: Bank, now: nat)
    requires Mirrors(h, s, b)
    requires forall r | r in LiveView(s.holds) :: Sum(h, HeldAs(r)) > 0
    ensures var e := Expirations(s, now);
            Allowed(c, b, Meaning(e)) && Mirrors(h + [e], Purge(s, now), Perform(c, b, Meaning(e)))
  {
    hide Total, Sum, DueHolds, DueCounters, Used, CostOn, ExcessOn, ForfeitedOn, HeldAs, Meaning, Perform;
    var e := Expirations(s, now);
    var lost := LiveView(e.lost);
    MeaningOfExpired(e);
    PurgedView(s.holds, now);
    OpenMirrors(h, s, b);
    hide Mirrors, LiveView;
    PerformForfeit(c, b, lost);
    ForfeitedTally(b.closed, e, Forfeited(lost));
    MirrorsForfeit(h, s, b, e, Forfeited(lost), Purge(s, now));
  }

  lemma MirrorsForfeit(h: seq<Event>, s: Store, b: Bank, e: Event, charged: map<ResId, Charge>, s': Store)
    requires Mirrors(h, s, b) && e.Expired?
    requires s'.balances == s.balances && LiveView(s'.holds) == b.open - charged.Keys && charged.Keys <= b.open.Keys
    requires forall r | r in b.open :: Sum(h, HeldAs(r)) > 0
    requires forall d :: Total(b.closed + charged, CostOn(d)) == Total(b.closed, CostOn(d)) + ForfeitedOn(d)(e)
    requires forall d :: Total(b.closed + charged, ExcessOn(d)) == Total(b.closed, ExcessOn(d))
    ensures Mirrors(h + [e], s', b.(open := b.open - charged.Keys, closed := b.closed + charged))
  {
    hide Total, Sum, LiveView;
    Tally(h, e);
  }

  lemma ForfeitedTally(closed: map<ResId, Charge>, e: Event, charged: map<ResId, Charge>)
    requires e.Expired? && closed.Keys !! LiveView(e.lost).Keys
    requires charged == map r | r in LiveView(e.lost) ::
             Charge(LiveView(e.lost)[r].stamp, LiveView(e.lost)[r].amount, 0)
    ensures forall d :: Total(closed + charged, CostOn(d)) == Total(closed, CostOn(d)) + ForfeitedOn(d)(e)
    ensures forall d :: Total(closed + charged, ExcessOn(d)) == Total(closed, ExcessOn(d))
  {
    hide Total, LiveView;
    forall d
      ensures Total(closed + charged, CostOn(d)) == Total(closed, CostOn(d)) + ForfeitedOn(d)(e)
      ensures Total(closed + charged, ExcessOn(d)) == Total(closed, ExcessOn(d))
    {
      TotalUnion(closed, charged, CostOn(d));
      TotalUnion(closed, charged, ExcessOn(d));
      ForfeitTotals(LiveView(e.lost), d);
      LiveViewTotal(e.lost, d);
    }
  }

  // ---- one step of the service ----

  /** The history so far is a legal history of the bank, which ends where the service stands. */
  ghost predicate Refined(c: Config, h: seq<Event>, s: Store) {
    Replay(c, h).Some? && Mirrors(h, s, Replay(c, h).value)
  }

  lemma ReplayOne(c: Config, h: seq<Event>, e: Event)
    requires Replay(c, h).Some? && Allowed(c, Replay(c, h).value, Meaning(e))
    ensures Replay(c, h + [e]) == Some(Perform(c, Replay(c, h).value, Meaning(e)))
  {
  }

  lemma RefinedQuiet(c: Config, h: seq<Event>, s: Store, e: Event, s': Store)
    requires Refined(c, h, s) && s'.holds == s.holds
    requires e.Counted? || e.PurchaseCounted? || e.Leaked? || e.Granted? || e.Minted?
    requires e.Counted? || e.PurchaseCounted? || e.Leaked? ==> s'.balances == s.balances
    requires e.Granted? ==> e.n == c.initialCredits && e.user !in s.balances && s'.balances == s.balances[e.user := e.n]
    requires e.Minted? ==> e.n > 0 && e.user in s.balances && s'.balances == Credit(s.balances, e.user, e.n)
    ensures Refined(c, h + [e], s')
  {
    hide Total, Sum, LiveView, Replay;
    ReplayOne(c, h, e);
    MirrorsQuiet(h, s, Replay(c, h).value, e, s');
  }

  /** The day's budget has room for every charge in flight. */
  ghost predicate Budgeted(c: Config, s: State, d: Day) {
    Total(s.store.holds, LiveOn(d)) + Sum(s.history, CommittedOn(d)) + Sum(s.history, ForfeitedOn(d))
    + Total(s.tasks, PendingOn(d)) <= c.creditLimit + Sum(s.history, OverageOn(d))
  }

  /** A placed hold is one the bank allows: its charge has been in flight all along. */
  lemma RefinedHeld(c: Config, s: State, id: nat)
    requires Running(s, id) && Sane(s) && Refined(c, s.history, s.store)
    requires s.tasks[id].Creating? && s.tasks[id].phase.Placing?
    requires var k := s.tasks[id].ticket;
             Affordable(s.store, k.req.user, k.req.credits) && k.req.user in s.store.balances
             && OneLife(s, k.req.res) && Budgeted(c, s, k.day)
    ensures var k := s.tasks[id].ticket;
            Refined(c, s.history + EventsOf(c, s.store, s.now, OpOf(s.tasks[id])),
                    Place(s.store, k.req.res, k.req.user, k.req.credits, k.req.Ttl(), On(k.day), s.now))
  {
    hide Total, Sum, LiveView, Replay, Place;
    var k := s.tasks[id].ticket;
    var b := Replay(c, s.history).value;
    var e := Held(k.req.res, Hold(k.req.user, k.req.credits, Reserved, On(k.day), At(s.now + k.req.Ttl())));
    TotalAtLeast(s.tasks, PendingOn(k.day), id);
    LiveViewTotal(s.store.holds, k.day);
    OpenAreHeld(s.store.holds, k.req.res);
    ReplayOne(c, s.history, e);
    MirrorsHeld(s.history, s.store, b, e, s.now, k.req.res, k.req.user, k.req.credits, k.req.Ttl(), On(k.day));
  }

  lemma OpenAreHeld(holds: map<ResId, Hold>, r: ResId)
    ensures r in LiveView(holds) ==> r in holds
  {
  }

  lemma RefinedClosed(c: Config, s: State, st: Settlement, stamp: Stamp)
    requires Sane(s) && Refined(c, s.history, s.store) && Judge(s.store, st, stamp) == Effective
    requires st.user == s.store.holds[st.res].user && st.user in s.store.balances && OneLife(s, st.res)
    ensures Refined(c, s.history + [Closed(st, s.store.holds[st.res])], Settle(s.store, st, stamp, s.now))
  {
    hide Total, Sum, LiveView, Replay, Mirrors, Settle;
    MirrorsClosed(c, s.history, s.store, Replay(c, s.history).value, st, stamp, s.now);
    ReplayOne(c, s.history, Closed(st, s.store.holds[st.res]));
  }

  /** An executed call, whatever handler makes it, is at most one operation the bank allows. */
  lemma RefinedExec(c: Config, s: State, id: nat)
    requires Running(s, id) && Sane(s) && Minting(s) && Refined(c, s.history, s.store)
    requires forall u :: Conservation.GrantedOnce(c, s, u)
    requires forall r :: OneLife(s, r)
    requires forall d :: Budgeted(c, s, d)
    requires Conservation.OwnSettlements(EventsOf(c, s.store, s.now, OpOf(s.tasks[id])))
    ensures var op := OpOf(s.tasks[id]);
            Refined(c, s.history + EventsOf(c, s.store, s.now, op), Exec(c, s.now, s.store, op).0)
  {
    hide Total, Sum, LiveView, Replay, Mirrors, Settle, OneLife, Budgeted, CountUnder, ChargeUnder;
    var t := s.tasks[id];
    var op := OpOf(t);
    var es := EventsOf(c, s.store, s.now, op);
    var s' := Exec(c, s.now, s.store, op).0;
    if es == [] {
      assert s.history + es == s.history;
      ExecSilent(c, s.now, s.store, op);
      RefinedSame(c, s.history, s.store, s');
    } else if op.PlaceHold? {
      assert Conservation.GrantedOnce(c, s, t.ticket.req.user);
      assert Conservation.SpendsFor(t, t.ticket.req.user);
      RefinedHeld(c, s, id);
    } else if op.SettleHold? {
      assert Conservation.GrantedOnce(c, s, op.st.user);
      assert es[0].Closed?;
      RefinedClosed(c, s, op.st, op.stamp);
    } else {
      if op.Mint? {
        assert Conservation.GrantedOnce(c, s, t.user);
        assert Conservation.SpendsFor(t, t.user);
      }
      RefinedQuiet(c, s.history, s.store, es[0], s');
    }
  }

  lemma ExecSilent(c: Config, now: nat, s: Store, op: Op)
    requires EventsOf(c, s, now, op) == []
    ensures Exec(c, now, s, op).0.balances == s.balances && Exec(c, now, s, op).0.holds == s.holds
  {
  }

  lemma RefinedSame(c: Config, h: seq<Event>, s: Store, s': Store)
    requires Refined(c, h, s) && s'.balances == s.balances && s'.holds == s.holds
    ensures Refined(c, h, s')
  {
  }

  lemma RefinedLeak(c: Config, h: seq<Event>, s: Store, t: Task, n: int)
    requires Refined(c, h, s)
    ensures Refined(c, h + Leak(t, n), s)
  {
    hide Total, Sum, LiveView, Replay, Mirrors;
    if Leak(t, n) == [] {
      assert h + [] == h;
    } else {
      RefinedQuiet(c, h, s, Leak(t, n)[0], s);
    }
  }

  lemma RefinedCall(c: Config, s: State, id: nat, f: Fault)
    requires Running(s, id) && Sane(s) && Minting(s) && Refined(c, s.history, s.store)
    requires forall u :: Conservation.GrantedOnce(c, s, u)
    requires forall r :: OneLife(s, r)
    requires forall d :: Budgeted(c, s, d)
    requires Conservation.OwnSettlements(ApplyCall(c, s, id, f).history)
    ensures Refined(c, ApplyCall(c, s, id, f).history, ApplyCall(c, s, id, f).store)
  {
    hide Refined, Exec, OpOf, Successor, EventsOf, LeakOf, Leak, Sane, Minting, OneLife, Budgeted,
         Conservation.GrantedOnce;
    var t := s.tasks[id];
    var n := LeakOf(c, s.store, t, f);
    if f.NoEffect? {
      assert s.history + [] == s.history;
      RefinedLeak(c, s.history, s.store, t, n);
    } else {
      var es := EventsOf(c, s.store, s.now, OpOf(t));
      assert forall e | e in es :: e in ApplyCall(c, s, id, f).history;
      RefinedExec(c, s, id);
      RefinedLeak(c, s.history + es, Exec(c, s.now, s.store, OpOf(t)).0, t, n);
    }
  }

  lemma RefinedTick(c: Config, s: State, dt: nat)
    requires Refined(c, s.history, s.store)
    requires forall r :: OneLife(s, r)
    ensures Refined(c, Apply(c, s, Tick(dt)).history, Apply(c, s, Tick(dt)).store)
  {
    hide Total, Sum, Replay, Mirrors, Purge, DueHolds, DueCounters;
    forall r | r in LiveView(s.store.holds) ensures Sum(s.history, HeldAs(r)) > 0 {
      assert OneLife(s, r);
    }
    MirrorsExpired(c, s.history, s.store, Replay(c, s.history).value, s.now + dt);
    ReplayOne(c, s.history, Expirations(s.store, s.now + dt));
  }

  lemma RefinedStep(c: Config, s: State, a: Action)
    requires Sane(s) && Minting(s) && Refined(c, s.history, s.store)
    requires forall u :: Conservation.GrantedOnce(c, s, u)
    requires forall r :: OneLife(s, r)
    requires forall d :: Budgeted(c, s, d)
    requires Conservation.OwnSettlements(Apply(c, s, a).history)
    ensures Refined(c, Apply(c, s, a).history, Apply(c, s, a).store)
  {
    hide Refined, ApplyCall, Purge, Sane, Minting, OneLife, Budgeted, Conservation.GrantedOnce;
    match a
    case Begin(_, _) =>
    case Call(id, f) => if Running(s, id) { RefinedCall(c, s, id, f); }
    case Tick(dt) => RefinedTick(c, s, dt);
    case Die(id) => if Running(s, id) { RefinedLeak(c, s.history, s.store, s.tasks[id], PendingAmount(s.tasks[id])); }
  }

  lemma {:induction false} RefinedRun(patience: nat, c: Config, start: nat, acts: seq<Action>)
    requires Punctual(patience, c, start, acts) && NoLostReply(acts)
    requires Conservation.OwnSettlements(Run(c, start, acts).history)
    ensures Refined(c, Run(c, start, acts).history, Run(c, start, acts).store)
    decreases |acts|
  {
    if acts == [] {
      RefinedInit(c, start);
    } else {
      hide Apply, Sane, Minting, OneLife, Budgeted, Conservation.GrantedOnce, Total, Sum, LiveView, Replay;
      var before, a := acts[..|acts| - 1], acts[|acts| - 1];
      var s := Run(c, start, before);
      HistoryGrows(c, s, a);
      assert forall e | e in s.history :: e in Run(c, start, acts).history;
      RefinedRun(patience, c, start, before);
      SaneRun(c, start, before);
      MintingRun(c, start, before);
      forall u ensures Conservation.GrantedOnce(c, s, u) { Conservation.GrantedOnceRun(c, start, before, u); }
      forall r ensures OneLife(s, r) { SettledAtMostOnce(c, start, before, r); }
      forall d ensures Budgeted(c, s, d) { BudgetedRun(patience, c, start, before, d); }
      RefinedStep(c, s, a);
    }
  }

  lemma RefinedInit(c: Config, start: nat)
    ensures Refined(c, Init(start).history, Init(start).store)
  {
  }

  lemma BudgetedRun(patience: nat, c: Config, start: nat, acts: seq<Action>, d: Day)
    requires Punctual(patience, c, start, acts) && NoLostReply(acts)
    ensures Budgeted(c, Run(c, start, acts), d)
  {
    hide Total, Sum;
    SpendingBounded(patience, c, start, acts, d);
  }

  /** Main result: every punctual interleaving in which no reply is lost and settlements name their
      hold's owner is a legal sequential history of the atomic bank, and ends with the bank's balances
      and open holds; and the handlers' answers are those of that history: Created, Settled and Purchased go with the
      bank's own operations. So a reservation that succeeds is always one the bank allows, although another
      handler's charge in flight may have refused it. */
  lemma RefinesAtomicBank(patience: nat, c: Config, start: nat, acts: seq<Action>, u: UserId)
    requires Punctual(patience, c, start, acts) && NoLostReply(acts)
    requires Conservation.OwnSettlements(Run(c, start, acts).history)
    ensures var s := Run(c, start, acts); var b := Replay(c, s.history);
            b.Some? && b.value.balances == s.store.balances && b.value.open == LiveView(s.store.holds)
    ensures Answers.Answered(Run(c, start, acts), u, true)
  {
    hide Run, Replay, LiveView, Answers.Answered, Punctual, NoLostReply, Conservation.OwnSettlements;
    RefinedRun(patience, c, start, acts);
    Answers.AnswersAreTrue(c, start, acts, u);
  }

  // ---- without overage ----

  /** A bank without slack: a reservation stays within the day's limit, and a commit within its hold. */
  ghost predicate AllowedStrictly(c: Config, b: Bank, op: BankOp) {
    && Allowed(c, b, op)
    && (op.Reserve? ==> Used(b, op.stamp.day) + op.amount <= c.creditLimit)
    && (op.CommitHold? ==> op.actual <= b.open[op.res].amount)
  }

  ghost function ReplayStrictly(c: Config, h: seq<Event>): Option<Bank> {
    if h == [] then Some(EMPTY_BANK) else
    match ReplayStrictly(c, h[..|h| - 1])
    case None => None
    case Some(b) =>
      var op := Meaning(h[|h| - 1]);
      if AllowedStrictly(c, b, op) then Some(Perform(c, b, op)) else None
  }

  ghost predicate WithoutExcess(b: Bank) { forall r | r in b.closed :: b.closed[r].excess == 0 }

  /** What is over is not open, stays over, and belongs to a date; what it cost beyond its hold is not negative. */
  ghost predicate WellFormed(b: Bank) {
    && b.open.Keys !! b.closed.Keys
    && (forall r | r in b.open :: b.open[r].stamp.On?)
    && (forall r | r in b.closed :: b.closed[r].stamp.On? && b.closed[r].excess >= 0)
  }

  lemma WellFormedStep(c: Config, b: Bank, op: BankOp)
    requires WellFormed(b) && Allowed(c, b, op)
    ensures WellFormed(Perform(c, b, op))
    ensures WithoutExcess(Perform(c, b, op)) ==>
              WithoutExcess(b) && (op.CommitHold? ==> op.actual <= b.open[op.res].amount)
  {
    hide Used, Total;
    var b' := Perform(c, b, op);
    assert forall r | r in b.closed :: r in b'.closed && b'.closed[r] == b.closed[r];
    if op.CommitHold? {
      assert op.res in b'.closed;
    }
  }

  lemma {:induction false} WellFormedReplay(c: Config, h: seq<Event>)
    requires Replay(c, h).Some?
    ensures WellFormed(Replay(c, h).value)
    decreases |h|
  {
    if h != [] {
      hide Perform, Allowed, Meaning, WellFormed;
      WellFormedReplay(c, h[..|h| - 1]);
      WellFormedStep(c, Replay(c, h[..|h| - 1]).value, Meaning(h[|h| - 1]));
    } else {
      assert WellFormed(EMPTY_BANK);
    }
  }

  lemma NoSlack(c: Config, b: Bank, op: BankOp)
    requires WithoutExcess(b) && Allowed(c, b, op) && (op.CommitHold? ==> op.actual <= b.open[op.res].amount)
    ensures AllowedStrictly(c, b, op)
  {
    hide Total;
    if op.Reserve? {
      TotalZero(b.closed, ExcessOn(op.stamp.day));
    }
  }

  /** A history that ends without overage is one of the strict bank. */
  lemma {:induction false} ReplaysStrictly(c: Config, h: seq<Event>)
    requires Replay(c, h).Some? && WithoutExcess(Replay(c, h).value)
    ensures ReplayStrictly(c, h) == Replay(c, h)
    decreases |h|
  {
    if h != [] {
      hide Perform, Allowed, AllowedStrictly, Meaning, WellFormed, WithoutExcess;
      var front, op := h[..|h| - 1], Meaning(h[|h| - 1]);
      var b := Replay(c, front).value;
      WellFormedReplay(c, front);
      WellFormedStep(c, b, op);
      ReplaysStrictly(c, front);
      NoSlack(c, b, op);
    }
  }

  /** Where no settlement keeps more than its hold, the interleaved service is a bank without slack. */
  lemma RefinesStrictBank(patience: nat, c: Config, start: nat, acts: seq<Action>)
    requires Punctual(patience, c, start, acts) && NoLostReply(acts)
    requires Conservation.OwnSettlements(Run(c, start, acts).history)
    requires forall e | e in Run(c, start, acts).history && e.Closed? :: Kept(e.st) <= e.hold.amount
    ensures var s := Run(c, start, acts); var b := ReplayStrictly(c, s.history);
            b.Some? && b.value.balances == s.store.balances && b.value.open == LiveView(s.store.holds)
  {
    hide Run, Replay, ReplayStrictly, LiveView, Punctual, NoLostReply, Conservation.OwnSettlements, Total, Sum,
         OverageOn;
    var s := Run(c, start, acts);
    RefinedRun(patience, c, start, acts);
    var b := Replay(c, s.history).value;
    WellFormedReplay(c, s.history);
    forall d
      ensures Total(b.closed, ExcessOn(d)) == 0
    {
      NoOverage(s.history, d);
    }
    forall r | r in b.closed
      ensures b.closed[r].excess == 0
    {
      TotalAtLeast(b.closed, ExcessOn(b.closed[r].stamp.day), r);
    }
    ReplaysStrictly(c, s.history);
  }

  lemma NoOverage(h: seq<Event>, d: Day)
    requires forall e | e in h && e.Closed? :: Kept(e.st) <= e.hold.amount
    ensures Sum(h, OverageOn(d)) == 0
  {
    hide Sum;
    SumZero(h, OverageOn(d));
  }
}

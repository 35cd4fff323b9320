/** Credits are conserved: balances plus live holds plus what was spent or forfeited are what was
    granted and bought, in every run, for every group of users that settlements do not mix. */
module Conservation {
  import opened Sums
  import opened Redis
  import opened Protocol

  /** A group of users: everybody, or one user, or anything between. */
  type Group = UserId -> bool

  ghost function BalanceIn(p: Group): (UserId, int) -> int {
    (u, n) => if p(u) then n else 0
  }

  ghost function LiveIn(p: Group): (ResId, Hold) -> int {
    (r, h: Hold) => if h.status == Reserved && p(h.user) then h.amount else 0
  }

  /** Credits the group owns: its balances and its live holds. */
  ghost function Worth(p: Group, s: Store): int {
    Total(s.balances, BalanceIn(p)) + Total(s.holds, LiveIn(p))
  }

  ghost function GrantedTo(p: Group): Event -> int {
    (e: Event) => if e.Granted? && p(e.user) then e.n else 0
  }

  ghost function MintedFor(p: Group): Event -> int {
    (e: Event) => if e.Minted? && p(e.user) then e.n else 0
  }

  ghost function CommittedBy(p: Group): Event -> int {
    (e: Event) => if e.Closed? && p(e.hold.user) then Kept(e.st) else 0
  }

  ghost function ForfeitedBy(p: Group): Event -> int {
    (e: Event) => if e.Expired? then Total(e.lost, LiveIn(p)) else 0
  }

  /** The net effect of an event on the group's worth. */
  ghost function Flow(p: Group): Event -> int {
    (e: Event) =>
      match e
      case Granted(u, n) => if p(u) then n else 0
      case Minted(u, n, _) => if p(u) then n else 0
      case Closed(st, h) => if p(h.user) then -Kept(st) else 0
      case Expired(lost, _, _) => -Total(lost, LiveIn(p))
      case _ => 0
  }

  /** No settlement charges a user on the other side of the group than its hold's owner. */
  ghost predicate Unmixed(p: Group, h: seq<Event>) {
    forall e | e in h && e.Closed? :: p(e.st.user) == p(e.hold.user)
  }

  lemma WorthOfCredit(p: Group, s: Store, u: UserId, n: int)
    ensures Total(Credit(s.balances, u, n), BalanceIn(p)) == Total(s.balances, BalanceIn(p)) + (if p(u) then n else 0)
  {
    hide Total, Sum;
    TotalPut(s.balances, BalanceIn(p), u, (if u in s.balances then s.balances[u] else 0) + n);
  }

  lemma PlaceConserves(p: Group, s: Store, r: ResId, u: UserId, amount: int, ttl: nat, stamp: Stamp, now: nat)
    requires r !in s.holds && Affordable(s, u, amount)
    ensures Worth(p, Place(s, r, u, amount, ttl, stamp, now)) == Worth(p, s)
  {
    hide Total, Sum;
    TotalPut(s.balances, BalanceIn(p), u, Balance(s, u) - amount);
    TotalPut(s.holds, LiveIn(p), r, Hold(u, amount, Reserved, stamp, At(now + ttl)));
  }

  /** Settling moves the hold minus what it keeps to the named user. */
  lemma SettleConserves(p: Group, s: Store, st: Settlement, stamp: Stamp, now: nat)
    requires Judge(s, st, stamp) == Effective
    requires p(st.user) == p(s.holds[st.res].user)
    ensures Worth(p, Settle(s, st, stamp, now)) == Worth(p, s) - (if p(st.user) then Kept(st) else 0)
  {
    hide Total, Sum;
    WorthOfCredit(p, s, st.user, s.holds[st.res].amount - Kept(st));
    TotalPut(s.holds, LiveIn(p), st.res, Settle(s, st, stamp, now).holds[st.res]);
  }

  lemma ExecConserves(p: Group, c: Config, now: nat, s: Store, op: Op)
    requires op.PlaceHold? ==> op.res !in s.holds
    requires Unmixed(p, EventsOf(c, s, now, op))
    ensures Worth(p, Exec(c, now, s, op).0) == Worth(p, s) + Sum(EventsOf(c, s, now, op), Flow(p))
  {
    hide Total, Sum;
    var es := EventsOf(c, s, now, op);
    SumShort(es, Flow(p));
    if op.GrantInitial? {
      TotalPut(s.balances, BalanceIn(p), op.user, c.initialCredits);
    } else if op.Mint? {
      WorthOfCredit(p, s, op.user, op.minted);
    } else if op.PlaceHold? {
      if Affordable(s, op.holder, op.credits) {
        PlaceConserves(p, s, op.res, op.holder, op.credits, op.ttl, On(op.on), now);
      }
    } else if op.SettleHold? && Judge(s, op.st, op.stamp) == Effective {
      assert es[0] == Closed(op.st, s.holds[op.st.res]);
      SettleConserves(p, s, op.st, op.stamp, now);
    }
  }

  lemma PurgeConserves(p: Group, s: Store, now: nat, e: Event)
    requires e.Expired? && e.lost == DueHolds(s.holds, now)
    ensures Worth(p, Purge(s, now)) == Worth(p, s) + Flow(p)(e)
  {
    hide Total, Sum;
    DueHoldsTotal(s.holds, now, LiveIn(p));
  }

  lemma CallConserves(p: Group, c: Config, s: State, id: nat, f: Fault)
    requires Sane(s) && Running(s, id)
    requires Unmixed(p, ApplyCall(c, s, id, f).history)
    ensures var s' := ApplyCall(c, s, id, f);
            Worth(p, s'.store) - Sum(s'.history, Flow(p)) == Worth(p, s.store) - Sum(s.history, Flow(p))
  {
    hide Total, Sum;
    CallHistory(c, s, id, f, Flow(p));
    if !f.NoEffect? {
      var es := EventsOf(c, s.store, s.now, OpOf(s.tasks[id]));
      assert forall e | e in es :: e in ApplyCall(c, s, id, f).history;
      ExecConserves(p, c, s.now, s.store, OpOf(s.tasks[id]));
    }
  }

  lemma StepConserves(p: Group, c: Config, s: State, a: Action)
    requires Sane(s)
    requires Unmixed(p, Apply(c, s, a).history)
    ensures var s' := Apply(c, s, a);
            Worth(p, s'.store) - Sum(s'.history, Flow(p)) == Worth(p, s.store) - Sum(s.history, Flow(p))
  {
    hide Total, Sum;
    var s' := Apply(c, s, a);
    match a
    case Begin(_, _) =>
    case Call(id, f) => if Running(s, id) { CallConserves(p, c, s, id, f); }
    case Die(id) =>
      if Running(s, id) {
        var leak := Leak(s.tasks[id], PendingAmount(s.tasks[id]));
        SumZero(leak, Flow(p));
        SumAppend(s.history, leak, Flow(p));
      }
    case Tick(dt) =>
      var e := s'.history[|s.history|];
      PurgeConserves(p, s.store, s.now + dt, e);
      SumAppend(s.history, [e], Flow(p));
      SumShort([e], Flow(p));
  }

  lemma {:induction false} WorthIsFlow(p: Group, c: Config, start: nat, acts: seq<Action>)
    requires Unmixed(p, Run(c, start, acts).history)
    ensures Worth(p, Run(c, start, acts).store) == Sum(Run(c, start, acts).history, Flow(p))
    decreases |acts|
  {
    if acts != [] {
      var before, a := acts[..|acts| - 1], acts[|acts| - 1];
      var s := Run(c, start, before);
      HistoryGrows(c, s, a);
      assert forall e | e in s.history :: e in Apply(c, s, a).history;
      WorthIsFlow(p, c, start, before);
      SaneRun(c, start, before);
      StepConserves(p, c, s, a);
    }
  }

  lemma {:induction false} FlowSplits(p: Group, h: seq<Event>)
    ensures Sum(h, Flow(p)) == Sum(h, GrantedTo(p)) + Sum(h, MintedFor(p)) - Sum(h, CommittedBy(p))
            - Sum(h, ForfeitedBy(p))
    decreases |h|
  {
    if h != [] {
      FlowSplits(p, h[..|h| - 1]);
    }
  }

  /** In every run, with any faults, crashes and interleaving: balances + live holds + committed
      + forfeited == granted + bought, for every group that no settlement mixes with others. */
  lemma CreditsConserved(p: Group, c: Config, start: nat, acts: seq<Action>)
    requires Unmixed(p, Run(c, start, acts).history)
    ensures var s := Run(c, start, acts);
            Total(s.store.balances, BalanceIn(p)) + Total(s.store.holds, LiveIn(p))
            + Sum(s.history, CommittedBy(p)) + Sum(s.history, ForfeitedBy(p))
            == Sum(s.history, GrantedTo(p)) + Sum(s.history, MintedFor(p))
  {
    hide Total, Sum;
    WorthIsFlow(p, c, start, acts);
    FlowSplits(p, Run(c, start, acts).history);
  }

  ghost function Everybody(): Group { u => true }

  ghost function Only(u: UserId): Group { v => v == u }

  /** The whole system needs no condition on settlements. */
  lemma AllCreditsConserved(c: Config, start: nat, acts: seq<Action>)
    ensures var s := Run(c, start, acts);
            Total(s.store.balances, BalanceIn(Everybody())) + Total(s.store.holds, LiveIn(Everybody()))
            + Sum(s.history, CommittedBy(Everybody())) + Sum(s.history, ForfeitedBy(Everybody()))
            == Sum(s.history, GrantedTo(Everybody())) + Sum(s.history, MintedFor(Everybody()))
  {
    hide Total, Sum;
    CreditsConserved(Everybody(), c, start, acts);
  }

  lemma BalanceOfOne(s: Store, u: UserId)
    ensures Total(s.balances, BalanceIn(Only(u))) == Balance(s, u)
  {
    hide Total, Sum;
    TotalZero(s.balances - {u}, BalanceIn(Only(u)));
    if u in s.balances {
      TotalRemove(s.balances, BalanceIn(Only(u)), u);
    } else {
      assert s.balances - {u} == s.balances;
    }
  }

  /** Settlements name the owner of the hold they settle, as the gateway does. */
  ghost predicate OwnSettlements(h: seq<Event>) {
    forall e | e in h && e.Closed? :: e.st.user == e.hold.user
  }

  ghost function GrantsTo(u: UserId): Event -> int {
    (e: Event) => if e.Granted? && e.user == u then 1 else 0
  }

  /** u's balance key exists exactly from the one grant on; u's purchases and holds come after it. */
  ghost predicate GrantedOnce(c: Config, s: State, u: UserId) {
    && Sum(s.history, GrantsTo(u)) == (if u in s.store.balances then 1 else 0)
    && Sum(s.history, GrantedTo(Only(u))) == (if u in s.store.balances then c.initialCredits else 0)
    && (u !in s.store.balances ==>
          && (forall i | i in s.tasks :: !SpendsFor(s.tasks[i], u))
          && (forall r | r in s.store.holds :: s.store.holds[r].user != u))
  }

  /** A handler past its user's grant. */
  predicate SpendsFor(t: Task, u: UserId) {
    || (t.TopUpMinting? && t.user == u)
    || (t.Creating? && t.phase.Placing? && t.ticket.req.user == u)
  }

  /** One executed call creates u's key only by granting. */
  lemma ExecGrants(c: Config, now: nat, s: Store, op: Op, u: UserId)
    requires op.PlaceHold? ==> op.credits > 0
    requires u !in s.balances ==> op.Mint? ==> op.user != u
    requires u !in s.balances ==> forall r | r in s.holds :: s.holds[r].user != u
    requires OwnSettlements(EventsOf(c, s, now, op))
    ensures var s' := Exec(c, now, s, op).0; var es := EventsOf(c, s, now, op);
            && (u in s'.balances <==> u in s.balances || op == GrantInitial(u))
            && (u !in s'.balances ==> forall r | r in s'.holds :: s'.holds[r].user != u)
            && Sum(es, GrantsTo(u)) == (if u in s'.balances then 1 else 0) - (if u in s.balances then 1 else 0)
            && Sum(es, GrantedTo(Only(u))) == c.initialCredits * Sum(es, GrantsTo(u))
  {
    hide Total, Sum, CountUnder, ChargeUnder, ReconcileBudget;
    var es := EventsOf(c, s, now, op);
    SumShort(es, GrantsTo(u));
    SumShort(es, GrantedTo(Only(u)));
    if es != [] && op.SettleHold? {
      assert es[0].Closed? && op.st.user == s.holds[op.st.res].user;
    }
  }

  lemma SuccessorSpends(c: Config, s: State, t: Task, f: Fault, u: UserId)
    requires !t.Finished?
    ensures SpendsFor(Successor(c, s, t, f), u) ==> SpendsFor(t, u) || (f.Ok? && OpOf(t) == GrantInitial(u))
  {
  }

  lemma GrantedOnceCall(c: Config, s: State, id: nat, f: Fault, u: UserId)
    requires Sane(s) && Running(s, id) && GrantedOnce(c, s, u)
    requires OwnSettlements(ApplyCall(c, s, id, f).history)
    ensures GrantedOnce(c, ApplyCall(c, s, id, f), u)
  {
    hide Total, Sum, Exec, OpOf, EventsOf, LeakOf, Leak, Successor, SpendsFor;
    var t := s.tasks[id];
    CallHistory(c, s, id, f, GrantsTo(u));
    CallHistory(c, s, id, f, GrantedTo(Only(u)));
    SuccessorSpends(c, s, t, f, u);
    PlacesUnheld(t);
    MintersSpend(t);
    if !f.NoEffect? {
      assert forall e | e in EventsOf(c, s.store, s.now, OpOf(t)) :: e in ApplyCall(c, s, id, f).history;
      ExecGrants(c, s.now, s.store, OpOf(t), u);
    }
  }

  lemma MintersSpend(t: Task)
    requires !t.Finished?
    ensures OpOf(t).Mint? ==> SpendsFor(t, OpOf(t).user)
  {
  }

  lemma GrantedOnceTick(c: Config, s: State, dt: nat, u: UserId)
    requires GrantedOnce(c, s, u)
    ensures GrantedOnce(c, Apply(c, s, Tick(dt)), u)
  {
    hide Total, Sum, DueHolds, DueCounters;
    var expired := [Expirations(s.store, s.now + dt)];
    SumAppend(s.history, expired, GrantsTo(u));
    SumZero(expired, GrantsTo(u));
    SumAppend(s.history, expired, GrantedTo(Only(u)));
    SumZero(expired, GrantedTo(Only(u)));
  }

  lemma GrantedOnceDie(c: Config, s: State, id: nat, u: UserId)
    requires GrantedOnce(c, s, u)
    ensures GrantedOnce(c, Apply(c, s, Die(id)), u)
  {
    hide Total, Sum;
    if Running(s, id) {
      var leak := Leak(s.tasks[id], PendingAmount(s.tasks[id]));
      SumAppend(s.history, leak, GrantsTo(u));
      SumZero(leak, GrantsTo(u));
      SumAppend(s.history, leak, GrantedTo(Only(u)));
      SumZero(leak, GrantedTo(Only(u)));
    }
  }

  lemma GrantedOnceStep(c: Config, s: State, a: Action, u: UserId)
    requires Sane(s) && GrantedOnce(c, s, u)
    requires OwnSettlements(Apply(c, s, a).history)
    ensures GrantedOnce(c, Apply(c, s, a), u)
  {
    hide Total, Sum;
    match a
    case Begin(_, _) =>
    case Call(id, f) => if Running(s, id) { GrantedOnceCall(c, s, id, f, u); }
    case Die(id) => GrantedOnceDie(c, s, id, u);
    case Tick(dt) => GrantedOnceTick(c, s, dt, u);
  }

  lemma {:induction false} GrantedOnceRun(c: Config, start: nat, acts: seq<Action>, u: UserId)
    requires OwnSettlements(Run(c, start, acts).history)
    ensures GrantedOnce(c, Run(c, start, acts), u)
    decreases |acts|
  {
    if acts != [] {
      var s := Run(c, start, acts[..|acts| - 1]);
      HistoryGrows(c, s, acts[|acts| - 1]);
      assert forall e | e in s.history :: e in Run(c, start, acts).history;
      GrantedOnceRun(c, start, acts[..|acts| - 1], u);
      SaneRun(c, start, acts[..|acts| - 1]);
      GrantedOnceStep(c, s, acts[|acts| - 1], u);
    }
  }

  /** Per user: a single grant of initialCredits, and the balance is that grant plus purchases
      minus live holds, committed and forfeited credits. */
  lemma UserCreditsConserved(u: UserId, c: Config, start: nat, acts: seq<Action>)
    requires OwnSettlements(Run(c, start, acts).history)
    ensures var s := Run(c, start, acts);
            && Sum(s.history, GrantsTo(u)) == (if u in s.store.balances then 1 else 0)
            && Balance(s.store, u) == (if u in s.store.balances then c.initialCredits else 0)
                + Sum(s.history, MintedFor(Only(u))) - Total(s.store.holds, LiveIn(Only(u)))
                - Sum(s.history, CommittedBy(Only(u))) - Sum(s.history, ForfeitedBy(Only(u)))
  {
    hide Total, Sum;
    var s := Run(c, start, acts);
    CreditsConserved(Only(u), c, start, acts);
    BalanceOfOne(s.store, u);
    GrantedOnceRun(c, start, acts, u);
  }
}

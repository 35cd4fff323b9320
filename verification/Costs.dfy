/** What each reservation costs its user, from the history of the service: the hold, until it is settled, and then
    what was kept of it. */
module Costs {
  import opened Sums
  import opened Redis
  import opened Protocol
  import opened Conservation
  import opened Settlements

  // ---- every settled hold was placed before, as it was settled ----

  predicate Concerns(e: Event, r: ResId) { (e.Held? && e.res == r) || (e.Closed? && e.st.res == r) }

  /** An event that may come after a history. */
  ghost predicate MayFollow(h: seq<Event>, e: Event) {
    match e
    case Held(r, _) => forall d | d in h :: !Concerns(d, r)
    case Closed(st, hold) => Held(st.res, hold) in h && forall d | d in h && d.Closed? :: d.st.res != st.res
    case _ => true
  }

  ghost predicate WellKept(h: seq<Event>) {
    h == [] || (WellKept(h[..|h| - 1]) && MayFollow(h[..|h| - 1], h[|h| - 1]))
  }

  /** The live holds are the ones that were placed. */
  ghost predicate Placed(s: State) {
    forall r | Live(s.store, r) :: Held(r, s.store.holds[r]) in s.history
  }

  lemma {:induction false} SumAtLeast(h: seq<Event>, w: Event -> int, e: Event)
    requires e in h && forall d | d in h :: w(d) >= 0
    ensures Sum(h, w) >= w(e)
    decreases |h|
  {
    var front := h[..|h| - 1];
    if e in front {
      SumAtLeast(front, w, e);
    } else {
      SumNonNegative(front, w);
    }
  }

  lemma NoneClosed(h: seq<Event>, r: ResId)
    requires Sum(h, ClosedAs(r)) == 0
    ensures forall d | d in h && d.Closed? :: d.st.res != r
  {
    hide Sum;
    forall d | d in h && d.Closed?
      ensures d.st.res != r
    {
      SumAtLeast(h, ClosedAs(r), d);
    }
  }

  lemma NoneHeld(h: seq<Event>, r: ResId)
    requires Sum(h, HeldAs(r)) == 0
    ensures forall d | d in h && d.Held? :: d.res != r
  {
    hide Sum;
    forall d | d in h && d.Held?
      ensures d.res != r
    {
      SumAtLeast(h, HeldAs(r), d);
    }
  }

  /** The events of a call may follow the history. */
  lemma CallMayFollow(c: Config, s: State, id: nat, r: ResId)
    requires Sane(s) && Running(s, id) && Placed(s) && OneLife(s, r)
    requires OpOf(s.tasks[id]).PlaceHold? ==> OpOf(s.tasks[id]).res == r
    requires OpOf(s.tasks[id]).SettleHold? ==> OpOf(s.tasks[id]).st.res == r
    ensures forall e | e in EventsOf(c, s.store, s.now, OpOf(s.tasks[id])) :: MayFollow(s.history, e)
  {
    hide Total, Sum;
    var op := OpOf(s.tasks[id]);
    if op.PlaceHold? {
      PlacesUnheld(s.tasks[id]);
      NoneHeld(s.history, r);
      NoneClosed(s.history, r);
    } else if op.SettleHold? && Judge(s.store, op.st, op.stamp) == Effective {
      assert Live(s.store, r);
      NoneClosed(s.history, r);
    }
  }

  function ResOf(op: Op): ResId { if op.PlaceHold? then op.res else if op.SettleHold? then op.st.res else "" }

  lemma ShortAppend(h: seq<Event>, es: seq<Event>)
    requires WellKept(h) && |es| <= 1 && forall e | e in es :: MayFollow(h, e)
    ensures WellKept(h + es)
  {
    if es == [] {
      assert h + es == h;
    } else {
      assert es[0] in es;
      assert (h + es)[..|h + es| - 1] == h && (h + es)[|h|] == es[0];
    }
  }

  lemma KeptCall(c: Config, s: State, id: nat, f: Fault)
    requires Sane(s) && Running(s, id) && Placed(s) && WellKept(s.history)
    requires OneLife(s, ResOf(OpOf(s.tasks[id])))
    ensures WellKept(ApplyCall(c, s, id, f).history)
  {
    hide OneLife, Sane, Exec, OpOf, EventsOf, LeakOf, Leak, MayFollow, WellKept, Placed, Successor;
    var t := s.tasks[id];
    CallMayFollow(c, s, id, ResOf(OpOf(t)));
    var es := if f.NoEffect? then [] else EventsOf(c, s.store, s.now, OpOf(t));
    var leak := Leak(t, LeakOf(c, s.store, t, f));
    FewEvents(c, s.store, s.now, OpOf(t));
    ShortAppend(s.history, es);
    LeakMayFollow(s.history + es, t, LeakOf(c, s.store, t, f));
    ShortAppend(s.history + es, leak);
  }

  lemma FewEvents(c: Config, s: Store, now: nat, op: Op)
    ensures |EventsOf(c, s, now, op)| <= 1
  {
  }

  lemma LeakMayFollow(h: seq<Event>, t: Task, n: int)
    ensures |Leak(t, n)| <= 1 && forall e | e in Leak(t, n) :: MayFollow(h, e)
  {
  }

  lemma PlacedCall(c: Config, s: State, id: nat, f: Fault)
    requires Running(s, id) && Placed(s)
    ensures Placed(ApplyCall(c, s, id, f))
  {
  }

  lemma KeptStep(c: Config, s: State, a: Action)
    requires Sane(s) && Placed(s) && WellKept(s.history)
    requires a.Call? && Running(s, a.id) ==> OneLife(s, ResOf(OpOf(s.tasks[a.id])))
    ensures Placed(Apply(c, s, a)) && WellKept(Apply(c, s, a).history)
  {
    hide ApplyCall, WellKept, Sane, OneLife, OpOf, Leak;
    match a
    case Begin(_, _) =>
    case Call(id, f) =>
      if Running(s, id) {
        PlacedCall(c, s, id, f);
        KeptCall(c, s, id, f);
      }
    case Tick(dt) =>
      ShortAppend(s.history, [Expirations(s.store, s.now + dt)]);
    case Die(id) =>
      if Running(s, id) {
        LeakMayFollow(s.history, s.tasks[id], PendingAmount(s.tasks[id]));
        ShortAppend(s.history, Leak(s.tasks[id], PendingAmount(s.tasks[id])));
      }
  }

  /** In every run: an id is held at most once, and settled at most once, after and as it was held. */
  lemma {:induction false} HistoryIsWellKept(c: Config, start: nat, acts: seq<Action>)
    ensures Placed(Run(c, start, acts)) && WellKept(Run(c, start, acts).history)
    decreases |acts|
  {
    if acts != [] {
      hide Apply, Placed, WellKept, OneLife, Sane, OpOf;
      var before, a := acts[..|acts| - 1], acts[|acts| - 1];
      var s := Run(c, start, before);
      HistoryIsWellKept(c, start, before);
      SaneRun(c, start, before);
      if a.Call? && Running(s, a.id) {
        SettledAtMostOnce(c, start, before, ResOf(OpOf(s.tasks[a.id])));
      }
      KeptStep(c, s, a);
    }
  }

  // ---- reservations that are not settled are live or forfeited ----

  /** What an event does to the user's reservations that are not settled. */
  ghost function OpeningOf(u: UserId): Event -> int {
    (e: Event) =>
      match e
      case Held(_, h) => if h.user == u then h.amount else 0
      case Closed(_, h) => if h.user == u then -h.amount else 0
      case _ => 0
  }

  lemma ExecOpening(c: Config, now: nat, s: Store, op: Op, u: UserId)
    requires op.PlaceHold? ==> op.res !in s.holds
    ensures var s' := Exec(c, now, s, op).0; var es := EventsOf(c, s, now, op);
            && Total(s'.holds, LiveIn(Only(u))) == Total(s.holds, LiveIn(Only(u))) + Sum(es, OpeningOf(u))
            && Sum(es, ForfeitedBy(Only(u))) == 0
  {
    hide Total, Sum;
    var es := EventsOf(c, s, now, op);
    SumShort(es, OpeningOf(u));
    SumShort(es, ForfeitedBy(Only(u)));
    var s' := Exec(c, now, s, op).0;
    if op.PlaceHold? && Affordable(s, op.holder, op.credits) {
      TotalPut(s.holds, LiveIn(Only(u)), op.res, s'.holds[op.res]);
    } else if op.SettleHold? && Judge(s, op.st, op.stamp) == Effective {
      TotalPut(s.holds, LiveIn(Only(u)), op.st.res, s'.holds[op.st.res]);
    }
  }

  ghost predicate OpenIsHeld(s: State, u: UserId) {
    Sum(s.history, OpeningOf(u)) == Total(s.store.holds, LiveIn(Only(u))) + Sum(s.history, ForfeitedBy(Only(u)))
  }

  lemma OpenCall(c: Config, s: State, id: nat, f: Fault, u: UserId)
    requires Sane(s) && Running(s, id) && OpenIsHeld(s, u)
    ensures OpenIsHeld(ApplyCall(c, s, id, f), u)
  {
    hide Total, Sum, Exec, OpOf, EventsOf, LeakOf, Successor, Sane, LiveIn;
    PlacesNewHold(s, id);
    CallHistory(c, s, id, f, OpeningOf(u));
    CallHistory(c, s, id, f, ForfeitedBy(Only(u)));
    ExecOpening(c, s.now, s.store, OpOf(s.tasks[id]), u);
  }

  lemma OpenTick(c: Config, s: State, dt: nat, u: UserId)
    requires OpenIsHeld(s, u)
    ensures OpenIsHeld(Apply(c, s, Tick(dt)), u)
  {
    hide Total, Sum, DueHolds, LiveIn;
    var e := Expirations(s.store, s.now + dt);
    DueHoldsTotal(s.store.holds, s.now + dt, LiveIn(Only(u)));
    SumAppend(s.history, [e], OpeningOf(u));
    SumAppend(s.history, [e], ForfeitedBy(Only(u)));
    SumShort([e], OpeningOf(u));
    SumShort([e], ForfeitedBy(Only(u)));
  }

  lemma {:induction false} OpenRun(c: Config, start: nat, acts: seq<Action>, u: UserId)
    ensures OpenIsHeld(Run(c, start, acts), u)
    decreases |acts|
  {
    if acts != [] {
      hide Total, Sum;
      var before, a := acts[..|acts| - 1], acts[|acts| - 1];
      var s := Run(c, start, before);
      OpenRun(c, start, before, u);
      SaneRun(c, start, before);
      OpenStepOf(c, s, a, u);
    }
  }

  lemma OpenStepOf(c: Config, s: State, a: Action, u: UserId)
    requires Sane(s) && OpenIsHeld(s, u)
    ensures OpenIsHeld(Apply(c, s, a), u)
  {
    hide Total, Sum, ApplyCall, LiveIn;
    match a
    case Begin(_, _) =>
    case Call(id, f) => if Running(s, id) { OpenCall(c, s, id, f, u); }
    case Tick(dt) => OpenTick(c, s, dt, u);
    case Die(_) =>
      NewEventsSum(c, s, a, OpeningOf(u));
      NewEventsSum(c, s, a, ForfeitedBy(Only(u)));
      SumZero(NewEvents(c, s, a), OpeningOf(u));
      SumZero(NewEvents(c, s, a), ForfeitedBy(Only(u)));
  }

  // ---- the cost of a reservation ----

  ghost function CostAs(r: ResId): Event -> int {
    (e: Event) =>
      match e
      case Held(q, h) => if q == r then h.amount else 0
      case Closed(st, h) => if st.res == r then Kept(st) - h.amount else 0
      case _ => 0
  }

  ghost function Cost(h: seq<Event>, r: ResId): int { Sum(h, CostAs(r)) }

  ghost predicate IsHeld(h: seq<Event>, r: ResId) { exists hold :: Held(r, hold) in h }

  ghost predicate IsClosed(h: seq<Event>, r: ResId) { exists st, hold :: Closed(st, hold) in h && st.res == r }

  lemma CostOneMore(h: seq<Event>, e: Event, r: ResId)
    ensures Cost(h + [e], r) == Cost(h, r) + CostAs(r)(e)
  {
    hide Sum, CostAs;
    SumAppend(h, [e], CostAs(r));
    SumShort([e], CostAs(r));
  }

  /** Nothing before the hold, the hold until it is settled, and then what the settlement kept. */
  lemma {:induction false} CostOf(h: seq<Event>, r: ResId)
    requires WellKept(h)
    ensures !IsHeld(h, r) ==> Cost(h, r) == 0 && !IsClosed(h, r)
    ensures forall hold | Held(r, hold) in h && !IsClosed(h, r) :: Cost(h, r) == hold.amount
    ensures forall st, hold | Closed(st, hold) in h && st.res == r :: Cost(h, r) == Kept(st)
    decreases |h|
  {
    if h == [] {
      assert Cost([], r) == 0;
    } else {
      hide Cost, WellKept, IsHeld, IsClosed, MayFollow;
      var front, e := h[..|h| - 1], h[|h| - 1];
      assert h == front + [e];
      KeptFront(h);
      CostOf(front, r);
      CostOneMore(front, e, r);
      CostStep(front, e, r);
    }
  }

  lemma KeptFront(h: seq<Event>)
    requires WellKept(h) && h != []
    ensures WellKept(h[..|h| - 1]) && MayFollow(h[..|h| - 1], h[|h| - 1])
  {
  }

  lemma CostStep(h: seq<Event>, e: Event, r: ResId)
    requires MayFollow(h, e) && Cost(h + [e], r) == Cost(h, r) + CostAs(r)(e)
    requires !IsHeld(h, r) ==> Cost(h, r) == 0 && !IsClosed(h, r)
    requires forall hold | Held(r, hold) in h && !IsClosed(h, r) :: Cost(h, r) == hold.amount
    requires forall st, hold | Closed(st, hold) in h && st.res == r :: Cost(h, r) == Kept(st)
    ensures !IsHeld(h + [e], r) ==> Cost(h + [e], r) == 0 && !IsClosed(h + [e], r)
    ensures forall hold | Held(r, hold) in h + [e] && !IsClosed(h + [e], r) :: Cost(h + [e], r) == hold.amount
    ensures forall st, hold | Closed(st, hold) in h + [e] && st.res == r :: Cost(h + [e], r) == Kept(st)
  {
    hide Cost;
    assert forall d | d in h :: d in h + [e];
    assert e in h + [e];
    assert forall d | d in h + [e] :: d in h || d == e;
    if e.Held? && e.res == r {
      assert !IsHeld(h, r);
    } else if e.Closed? && e.st.res == r {
      assert !IsClosed(h, r) && Held(r, e.hold) in h;
    }
  }

  // ---- all the costs of a user ----

  type Owners = map<ResId, UserId>

  /** The event is about a reservation of the owner it has. */
  predicate Owned(owners: Owners, e: Event) {
    match e
    case Held(r, hold) => r in owners && hold.user == owners[r]
    case Closed(st, hold) => st.res in owners && hold.user == owners[st.res]
    case _ => true
  }

  ghost function CostFor(u: UserId, h: seq<Event>): (ResId, UserId) -> int {
    (r, v) => if v == u then Cost(h, r) else 0
  }

  lemma {:induction false} CostsAddUp(owners: Owners, h: seq<Event>, u: UserId)
    requires forall e | e in h :: Owned(owners, e)
    ensures Sum(h, CommittedBy(Only(u))) + Sum(h, OpeningOf(u)) == Total(owners, CostFor(u, h))
    decreases |h|
  {
    if h == [] {
      TotalZero(owners, CostFor(u, []));
    } else {
      hide Total, Cost, Owned, CommittedBy, OpeningOf, CostAs;
      var front, e := h[..|h| - 1], h[|h| - 1];
      assert h == front + [e] && e in h;
      CostsAddUp(owners, front, u);
      CostsStep(owners, front, e, u);
    }
  }

  lemma CostsStep(owners: Owners, h: seq<Event>, e: Event, u: UserId)
    requires Owned(owners, e)
    ensures Total(owners, CostFor(u, h + [e]))
            == Total(owners, CostFor(u, h)) + CommittedBy(Only(u))(e) + OpeningOf(u)(e)
  {
    hide Total, Sum, Cost;
    forall r
      ensures Cost(h + [e], r) == Cost(h, r) + CostAs(r)(e)
    {
      CostOneMore(h, e, r);
    }
    if e.Held? || e.Closed? {
      var r := if e.Held? then e.res else e.st.res;
      TotalRemove(owners, CostFor(u, h), r);
      TotalRemove(owners, CostFor(u, h + [e]), r);
      TotalSame(owners - {r}, CostFor(u, h), CostFor(u, h + [e]));
    } else {
      TotalSame(owners, CostFor(u, h), CostFor(u, h + [e]));
    }
  }

  /** A balance is the grant and the purchases less the costs of the user's reservations. */
  lemma BalanceByCosts(owners: Owners, c: Config, start: nat, acts: seq<Action>, u: UserId)
    requires OwnSettlements(Run(c, start, acts).history)
    requires forall e | e in Run(c, start, acts).history :: Owned(owners, e)
    ensures var s := Run(c, start, acts);
            Balance(s.store, u) == (if u in s.store.balances then c.initialCredits else 0)
              + Sum(s.history, MintedFor(Only(u))) - Total(owners, CostFor(u, s.history))
  {
    hide Total, Sum, Run, Owned;
    UserCreditsConserved(u, c, start, acts);
    OpenRun(c, start, acts, u);
    CostsAddUp(owners, Run(c, start, acts).history, u);
  }
}

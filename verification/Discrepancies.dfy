/** Where the ledger and Redis part: for which runs of the gateway the rows that arrive say what the run costs, by
    how much the others are wrong, and runs of each kind. */
module Discrepancies {
  import opened Sums
  import opened Redis
  import opened Protocol
  import opened Budget
  import opened Conservation
  import opened Answers
  import opened Costs
  import opened Limits
  import opened Traffic
  import opened UsageServer
  import opened Audit
  import Adapter
  import Gateway
  import Ledger
  import Options
  import Tokens

  // ---- one run ----

  /** The reservation's row arrives. */
  predicate Noted(x: Session) { x.p.Metered() && x.Runs() && x.noted && x.client.There(Gateway.RESERVING) }

  /** The closing row arrives; a chat's does not need the client. */
  predicate Ended(x: Session) { x.p.Metered() && x.Runs() && x.ended && x.Closes() }

  /** The ledger is told how the reservation was settled. */
  predicate Reported(x: Session)
    requires x.Possible()
  {
    Ended(x) && x.Calls() != [] && (x.Calls()[0].ReleaseCall? || x.accepted)
  }

  /** What the arrived rows say that a run costs, over all routes, clients and losses: what its settlement keeps if
      that is reported, else what was noted as reserved. */
  lemma StatedByRun(r: ResId, x: Session)
    requires x.Possible() && x.p.estimated >= 0
    ensures Stated(x) == if Reported(x) then KeptBy(r, x) else if Noted(x) then x.p.estimated else 0
  {
    hide Session.Outcome;
    OpeningArrives(x);
    if x.p.Metered() && x.Runs() {
      ClosingArrives(r, x);
    } else {
      NothingMetered(x);
    }
  }

  lemma OpeningArrives(x: Session)
    ensures Opening(x) == if Noted(x) then [Gateway.Row(Gateway.ReservedRow, x.p.estimated)] else []
  {
  }

  lemma NothingMetered(x: Session)
    requires x.Possible() && !(x.p.Metered() && x.Runs())
    ensures Stated(x) == 0 && !Reported(x) && !Noted(x)
  {
    hide Session.Outcome;
    RowsAre(x);
  }

  /** The closing row of a metered run, and the settlement that it is about. */
  lemma ClosingArrives(r: ResId, x: Session)
    requires x.Possible() && x.p.Metered() && x.Runs() && x.p.estimated >= 0
    ensures !Ended(x) ==> Closing(x) == []
    ensures Ended(x) ==> |x.Calls()| == 1 && |Closing(x)| == 1
    ensures Ended(x) ==>
              var row := Closing(x)[0];
              && (x.Calls()[0].ReleaseCall? <==> row.kind.ReleasedRow?)
              && (x.Calls()[0].CommitCall? && x.accepted <==> row.kind.CommittedRow? || row.kind.CommittedUnknownRow?)
              && (x.Calls()[0].CommitCall? ==> row.credits == KeptBy(r, x))
              && (x.Calls()[0].ReleaseCall? ==> KeptBy(r, x) == 0)
  {
    hide Session.Outcome, Gateway.Terminals, Closing, Gateway.Reservation;
    SessionSettles(x);
    if Ended(x) {
      ClosingIsTerminal(x);
      assert x.Calls() == x.Outcome().calls && x.Calls()[0] in x.Outcome().calls;
      assert Closing(x)[0] == Gateway.Terminals(x.Outcome().rows)[0];
    } else {
      NoClosing(x);
    }
  }

  lemma NoClosing(x: Session)
    requires x.Possible() && x.p.Metered() && x.Runs() && !Ended(x)
    requires !x.Closes() ==> x.Outcome().rows == Gateway.Reservation(x.p, x.client)
    ensures Closing(x) == []
  {
    hide Session.Outcome, Gateway.Reservation;
  }

  /** The closing row of a run that settles once is its one terminal row. */
  lemma ClosingIsTerminal(x: Session)
    requires x.Possible() && x.Runs() && x.ended && Gateway.SettledOnce(x.p, x.Outcome(), x.accepted)
    requires Gateway.OneClosing(x.p, x.client, x.Outcome().rows)
    ensures |Closing(x)| == 1 && Closing(x) == Gateway.Terminals(x.Outcome().rows) && Gateway.Terminal(Closing(x)[0])
  {
    hide Session.Outcome, Gateway.Terminals;
    var rows, reserved := x.Outcome().rows, Gateway.Reservation(x.p, x.client);
    assert rows == reserved + Closing(x);
    Gateway.TerminalsOf(reserved, Closing(x));
  }

  // ---- which runs are stated rightly ----

  /** A success that the gateway is told of was answered. The converse is not assumed: an answer may be lost, or come to
      a client that has left. */
  ghost predicate ToldTruly(sessions: Sessions, s: State) {
    forall r | r in sessions && sessions[r].Possible() && sessions[r].p.Metered() ::
      var x := sessions[r];
      && (x.Runs() ==> exists i :: Told(s, i, Reserve(RequestOf(r, x)), Created))
      && (x.accepted ==> forall call | call in x.Calls() ::
            exists i :: Told(s, i, Reconcile(SettlementOf(r, x, call)), Settled))
  }

  lemma TrulyHeld(sessions: Sessions, s: State, told: bool, r: ResId)
    requires ToldTruly(sessions, s) && CreatedAnswers(s, told)
    requires r in sessions && sessions[r].Possible() && sessions[r].p.Metered() && sessions[r].Runs()
    ensures IsHeld(s.history, r)
  {
    hide Session.Calls, Session.Possible, HoldAsked;
    var i :| Told(s, i, Reserve(RequestOf(r, sessions[r])), Created);
    assert HoldPlaced(s.history, RequestOf(r, sessions[r]));
  }

  lemma TrulyClosed(sessions: Sessions, s: State, told: bool, r: ResId)
    requires ToldTruly(sessions, s) && SettledAnswers(s, told)
    requires r in sessions && sessions[r].Possible() && sessions[r].p.Metered()
    requires sessions[r].Calls() != [] && sessions[r].accepted
    ensures IsClosed(s.history, r)
  {
    hide Session.Calls, Session.Possible, Told, ClosingAsked;
    var x := sessions[r];
    var st := SettlementOf(r, x, x.Calls()[0]);
    assert x.Calls()[0] in x.Calls();
    var i :| Told(s, i, Reconcile(st), Settled);
    assert ClosedBy(s.history, st.res, st.Commit?);
  }

  /** The hold was placed, and the gateway does not know. */
  ghost predicate UnheardHold(h: seq<Event>, r: ResId, x: Session) { IsHeld(h, r) && !x.Runs() }

  /** A release is reported, and did not take place. */
  ghost predicate FalseRelease(h: seq<Event>, r: ResId, x: Session)
    requires x.Possible()
  {
    Reported(x) && x.Calls()[0].ReleaseCall? && !IsClosed(h, r)
  }

  /** The settlement took place, kept another amount than the hold, and is not reported, although the hold is. */
  ghost predicate UnreportedSettlement(h: seq<Event>, r: ResId, x: Session)
    requires x.Possible()
  {
    Noted(x) && !Reported(x) && IsClosed(h, r) && x.Calls() != [] && KeptBy(r, x) != x.p.estimated
  }

  /** Nothing is reported of a hold that costs something. */
  ghost predicate UnreportedHold(h: seq<Event>, r: ResId, x: Session)
    requires x.Possible()
  {
    IsHeld(h, r) && x.Runs() && !Noted(x) && !Reported(x) && (IsClosed(h, r) && x.Calls() != [] ==> KeptBy(r, x) != 0)
  }

  /** The ledger says more than the user has, because of this run. */
  ghost predicate Flattered(h: seq<Event>, r: ResId, x: Session)
    requires x.Possible()
  {
    || UnheardHold(h, r, x) || FalseRelease(h, r, x) || UnreportedHold(h, r, x)
    || (UnreportedSettlement(h, r, x) && KeptBy(r, x) > x.p.estimated)
  }

  /** The ledger says less than the user has, because of this run. */
  ghost predicate Slighted(h: seq<Event>, r: ResId, x: Session)
    requires x.Possible()
  {
    UnreportedSettlement(h, r, x) && KeptBy(r, x) < x.p.estimated
  }

  /** The state that the lemmas on single runs are about. */
  ghost predicate Reached(sessions: Sessions, s: State, told: bool) {
    && AllRouted(sessions, s) && CreatedAnswers(s, told) && SettledAnswers(s, told) && WellKept(s.history)
    && ToldTruly(sessions, s)
  }

  lemma KeptIsNatural(r: ResId, x: Session)
    requires x.Possible() && x.Calls() != []
    ensures KeptBy(r, x) >= 0 && (x.Calls()[0].ReleaseCall? ==> KeptBy(r, x) == 0)
  {
    hide Session.Calls;
  }

  lemma ReportedRuns(x: Session)
    requires x.Possible()
    ensures Reported(x) || Noted(x) ==> x.p.Metered() && x.Runs()
    ensures Reported(x) ==> x.Calls() != []
    ensures x.Calls() != [] ==> x.Runs()
  {
    hide Session.Outcome;
  }

  /** The rows of a run say what it costs unless one of the four things befell it, and for each of them which way they
      are wrong. */
  lemma RowsAreRight(sessions: Sessions, s: State, told: bool, r: ResId)
    requires Reached(sessions, s, told) && r in sessions && sessions[r].Possible()
    ensures var x, h := sessions[r], s.history; var wrong := Stated(x) - Cost(h, r);
            && (wrong == 0 <==> !UnheardHold(h, r, x) && !FalseRelease(h, r, x) && !UnreportedSettlement(h, r, x)
                                && !UnreportedHold(h, r, x))
            && (wrong < 0 <==> Flattered(h, r, x)) && (wrong > 0 <==> Slighted(h, r, x))
            && (UnheardHold(h, r, x) || FalseRelease(h, r, x) ==> wrong == -x.p.estimated)
            && (UnreportedSettlement(h, r, x) ==> wrong == x.p.estimated - KeptBy(r, x))
  {
    hide Stated, Cost, Session.Calls, Session.Possible, AllRouted, CreatedAnswers, SettledAnswers, WellKept, ToldTruly;
    hide Noted, Reported, Session.Runs, KeptBy, IsHeld, IsClosed;
    var x, h := sessions[r], s.history;
    CostOfRun(sessions, s, told, r);
    ReportedRuns(x);
    if x.Calls() != [] {
      KeptIsNatural(r, x);
    }
    if x.p.Metered() && x.Runs() {
      TrulyHeld(sessions, s, told, r);
      StatedByRun(r, x);
      AcceptedIsClosed(sessions, s, told, r);
    } else {
      NothingMetered(x);
    }
  }

  lemma AcceptedIsClosed(sessions: Sessions, s: State, told: bool, r: ResId)
    requires Reached(sessions, s, told) && r in sessions && sessions[r].Possible() && sessions[r].p.Metered()
    ensures var x := sessions[r]; Reported(x) && !x.Calls()[0].ReleaseCall? ==> IsClosed(s.history, r)
  {
    hide Session.Calls, AllRouted, CreatedAnswers, SettledAnswers, WellKept, ToldTruly, IsClosed;
    var x := sessions[r];
    if Reported(x) && !x.Calls()[0].ReleaseCall? {
      TrulyClosed(sessions, s, told, r);
    }
  }

  // ---- one user ----

  ghost function Overstated(u: UserId, h: seq<Event>): (ResId, Session) -> int {
    (r, x: Session) => if x.Possible() && x.user == u && Stated(x) < Cost(h, r) then Cost(h, r) - Stated(x) else 0
  }

  ghost function Understated(u: UserId, h: seq<Event>): (ResId, Session) -> int {
    (r, x: Session) => if x.Possible() && x.user == u && Stated(x) > Cost(h, r) then Stated(x) - Cost(h, r) else 0
  }

  ghost predicate NoneFlattered(sessions: Sessions, h: seq<Event>, u: UserId)
    requires forall r | r in sessions :: sessions[r].Possible()
  {
    forall r | r in sessions && sessions[r].user == u :: !Flattered(h, r, sessions[r])
  }

  ghost predicate NoneSlighted(sessions: Sessions, h: seq<Event>, u: UserId)
    requires forall r | r in sessions :: sessions[r].Possible()
  {
    forall r | r in sessions && sessions[r].user == u :: !Slighted(h, r, sessions[r])
  }

  /** What one side of the misstatements of a user comes to. */
  lemma TotalOfSome(sessions: Sessions, w: (ResId, Session) -> int)
    requires forall r | r in sessions :: w(r, sessions[r]) >= 0
    ensures Total(sessions, w) >= 0
    ensures Total(sessions, w) == 0 <==> forall r | r in sessions :: w(r, sessions[r]) == 0
  {
    hide Total;
    TotalNonNegative(sessions, w);
    if r :| r in sessions && w(r, sessions[r]) != 0 {
      TotalAtLeast(sessions, w, r);
    } else {
      TotalZero(sessions, w);
    }
  }

  lemma MisstatementsSplit(sessions: Sessions, s: State, told: bool, u: UserId)
    requires Reached(sessions, s, told) && forall r | r in sessions :: sessions[r].Possible()
    ensures var over, under := Total(sessions, Overstated(u, s.history)), Total(sessions, Understated(u, s.history));
            && Total(sessions, Misstated(u, s.history)) == under - over && over >= 0 && under >= 0
            && (over == 0 <==> NoneFlattered(sessions, s.history, u))
            && (under == 0 <==> NoneSlighted(sessions, s.history, u))
  {
    hide Total, Reached, Session.Possible, Stated, Cost, Flattered, Slighted;
    hide UnheardHold, FalseRelease, UnreportedSettlement, UnreportedHold;
    forall r | r in sessions
      ensures Stated(sessions[r]) < Cost(s.history, r) <==> Flattered(s.history, r, sessions[r])
      ensures Stated(sessions[r]) > Cost(s.history, r) <==> Slighted(s.history, r, sessions[r])
    {
      RowsAreRight(sessions, s, told, r);
    }
    TotalsAdd(sessions, Misstated(u, s.history), Overstated(u, s.history), Understated(u, s.history));
    TotalOfSome(sessions, Overstated(u, s.history));
    TotalOfSome(sessions, Understated(u, s.history));
  }

  /** The purchases on the ledger are ones that were answered with success. */
  ghost predicate BoughtTruly(bought: Purchases, s: State) {
    forall i | i in bought :: bought[i].TopUp? && Told(s, i, bought[i], Purchased)
  }

  lemma NothingOverbought(bought: Purchases, s: State, u: UserId, told: bool)
    requires AtWork(s) && BoughtTruly(bought, s) && PurchasesAnswered(s, u, told)
    ensures Unrecorded(s, u, bought) >= 0
  {
    hide Total, Sum, PurchasedBy, CreditsOf;
    TotalSplit(s.jobs, PurchasedBy(u, s.tasks), bought.Keys);
    assert (map i: nat | i in s.jobs && i in bought.Keys :: s.jobs[i]) == bought;
    BoughtCounts(bought, s, u);
    TotalSame(bought, CreditsOf(u), PurchasedBy(u, s.tasks));
    TotalNonNegative(s.jobs - bought.Keys, PurchasedBy(u, s.tasks));
  }

  lemma BoughtCounts(bought: Purchases, s: State, u: UserId)
    requires AtWork(s) && BoughtTruly(bought, s)
    ensures forall i | i in bought :: CreditsOf(u)(i, bought[i]) == PurchasedBy(u, s.tasks)(i, bought[i])
    ensures forall i | i in s.jobs :: PurchasedBy(u, s.tasks)(i, s.jobs[i]) >= 0
  {
    hide WorksOn;
  }

  /** How far the ledger is from Redis, exactly: for every run of the usage service with any faults, and whatever
      clients, answers and ledger events are lost. What a user has beyond what the ledger says are the understated
      runs and the purchases that are not recorded, less the overstated runs; and there are none of these exactly if
      no run of the user's is flattered, or slighted. So the ledger explains the balance if and only if the two
      sides are equal; where nothing is on one side, if and only if nothing is on the other. */
  lemma AuditHoldsExactly(sessions: Sessions, bought: Purchases, purchase: nat -> string, delivered: seq<Ledger.Entry>,
      c: Config, start: nat, acts: seq<Action>, u: UserId)
    requires (forall a | a in acts && a.Begin? :: Routed(sessions, a.job)) && u != ""
    requires Audited(sessions, bought, purchase, delivered)
    requires ToldTruly(sessions, Run(c, start, acts)) && BoughtTruly(bought, Run(c, start, acts))
    ensures var s := Run(c, start, acts);
            var said := LedgerBalance(Ledger.InsertAll(map[], delivered), u,
                                      if u in s.store.balances then c.initialCredits else 0);
            var over, under := Total(sessions, Overstated(u, s.history)), Total(sessions, Understated(u, s.history));
            && Balance(s.store, u) == said + under + Unrecorded(s, u, bought) - over
            && over >= 0 && under >= 0 && Unrecorded(s, u, bought) >= 0
            && (over == 0 <==> NoneFlattered(sessions, s.history, u))
            && (under == 0 <==> NoneSlighted(sessions, s.history, u))
            && (Balance(s.store, u) == said <==> over == under + Unrecorded(s, u, bought))
  {
    hide Total, Sum, Run, Routed, LedgerBalance, Ledger.InsertAll, AtWork, Misstated, Overstated, Understated,
         Unrecorded;
    hide AllRouted, CreatedAnswers, SettledAnswers, PurchasesAnswered, WellKept, ToldTruly, BoughtTruly;
    hide NoneFlattered, NoneSlighted, Proper, Distinct, Sent;
    var s, told := Run(c, start, acts), NoLostReply(acts);
    GatewayIsAuditable(sessions, bought, purchase, delivered, c, start, acts, u);
    RunsArePossible(sessions, bought);
    JobsAreRouted(sessions, c, start, acts);
    AnswersAreTrue(c, start, acts, u);
    AtWorkRun(c, start, acts);
    HistoryIsWellKept(c, start, acts);
    MisstatementsSplit(sessions, s, told, u);
    NothingOverbought(bought, s, u, told);
  }

  // ---- when everything is heard ----

  /** The gateway knows what the usage service answered. */
  ghost predicate Heard(sessions: Sessions, s: State) {
    forall r | r in sessions && sessions[r].Possible() && sessions[r].p.Metered() ::
      var x := sessions[r];
      && (x.Runs() <==> exists i :: Told(s, i, Reserve(RequestOf(r, x)), Created))
      && forall call | call in x.Calls() ::
           x.accepted <==> exists i :: Told(s, i, Reconcile(SettlementOf(r, x, call)), Settled)
  }

  /** A release that was refused, or whose answer was an error. */
  predicate ReleaseRefused(x: Session)
    requires x.Possible()
  {
    x.p.Metered() && x.Calls() == [Gateway.ReleaseCall] && !x.accepted
  }

  lemma HeardIsTrue(sessions: Sessions, s: State)
    requires Heard(sessions, s)
    ensures ToldTruly(sessions, s)
  {
    hide Session.Calls, Session.Possible, Session.Runs;
  }

  lemma HoldIsHeard(sessions: Sessions, s: State, r: ResId)
    requires Heard(sessions, s) && AllRouted(sessions, s) && CreatedAnswers(s, true)
    requires r in sessions && sessions[r].Possible() && IsHeld(s.history, r)
    ensures sessions[r].p.Metered() && sessions[r].Runs()
  {
    hide AllRouted, CreatedAnswers, Told, Session.Calls, Session.Possible, Session.Runs;
    var hold :| Held(r, hold) in s.history;
    HeldAsAsked(sessions, s, true, r, hold);
  }

  lemma ClosingIsHeard(sessions: Sessions, s: State, r: ResId)
    requires Heard(sessions, s) && AllRouted(sessions, s) && SettledAnswers(s, true)
    requires r in sessions && sessions[r].Possible() && sessions[r].p.Metered() && sessions[r].Calls() != []
    ensures IsClosed(s.history, r) <==> sessions[r].accepted
  {
    hide AllRouted, SettledAnswers, Told, Session.Calls, Session.Possible, Session.Runs, SettlementOf;
    var x := sessions[r];
    assert x.Calls()[0] in x.Calls();
    if st, hold :| Closed(st, hold) in s.history && st.res == r {
      ClosedAsAsked(sessions, s, true, st, hold);
    }
    if x.accepted {
      HeardIsTrue(sessions, s);
      TrulyClosed(sessions, s, true, r);
    }
  }

  /** Then the rows of a run whose ledger events arrive are wrong exactly if its release was refused. */
  lemma OnlyRefusedReleases(sessions: Sessions, s: State, r: ResId)
    requires Reached(sessions, s, true) && Heard(sessions, s) && r in sessions && sessions[r].Possible()
    requires sessions[r].Documented()
    ensures Flattered(s.history, r, sessions[r]) <==> ReleaseRefused(sessions[r])
    ensures !Slighted(s.history, r, sessions[r])
  {
    hide Heard, AllRouted, CreatedAnswers, SettledAnswers, WellKept, ToldTruly, IsHeld, IsClosed, KeptBy;
    hide Session.Calls, Session.Possible;
    var x := sessions[r];
    if IsHeld(s.history, r) {
      HoldIsHeard(sessions, s, r);
    }
    ReportedRuns(x);
    FewCalls(x);
    if x.p.Metered() && x.Runs() {
      TrulyHeld(sessions, s, true, r);
      CostOfRun(sessions, s, true, r);
      ClosingArrives(r, x);
      ClosingIsHeard(sessions, s, r);
    }
  }

  /** All purchases that were answered. */
  function AnsweredPurchases(s: State): Purchases {
    map i | i in s.jobs && i in s.tasks && s.jobs[i].TopUp? && s.tasks[i] == Finished(Purchased) :: s.jobs[i]
  }

  lemma AllRecorded(s: State, u: UserId)
    requires AtWork(s) && PurchasesAnswered(s, u, true)
    ensures BoughtTruly(AnsweredPurchases(s), s) && Unrecorded(s, u, AnsweredPurchases(s)) == 0
  {
    hide Total, Sum, PurchasedBy, CreditsOf;
    var bought := AnsweredPurchases(s);
    TotalSplit(s.jobs, PurchasedBy(u, s.tasks), bought.Keys);
    assert (map i: nat | i in s.jobs && i in bought.Keys :: s.jobs[i]) == bought;
    BoughtCounts(bought, s, u);
    TotalSame(bought, CreditsOf(u), PurchasedBy(u, s.tasks));
    OthersBoughtNothing(s, u);
    TotalZero(s.jobs - bought.Keys, PurchasedBy(u, s.tasks));
  }

  lemma OthersBoughtNothing(s: State, u: UserId)
    requires AtWork(s)
    ensures forall i | i in s.jobs - AnsweredPurchases(s).Keys :: PurchasedBy(u, s.tasks)(i, s.jobs[i]) == 0
  {
    hide WorksOn;
  }

  /** Where no reply is lost, the gateway hears every answer, clients stay for their ledger events, and all of these
      arrive: the ledger explains a user's balance exactly if none of the user's releases was refused, and never
      says less than the user has. */
  lemma AuditWhenAllIsHeard(sessions: Sessions, purchase: nat -> string, delivered: seq<Ledger.Entry>,
      c: Config, start: nat, acts: seq<Action>, u: UserId)
    requires (forall a | a in acts && a.Begin? :: Routed(sessions, a.job)) && NoLostReply(acts) && u != ""
    requires Audited(sessions, AnsweredPurchases(Run(c, start, acts)), purchase, delivered)
    requires Heard(sessions, Run(c, start, acts))
    requires forall r | r in sessions && sessions[r].user == u :: sessions[r].Documented()
    ensures var s := Run(c, start, acts);
            var said := LedgerBalance(Ledger.InsertAll(map[], delivered), u,
                                      if u in s.store.balances then c.initialCredits else 0);
            && (Balance(s.store, u) == said <==>
                  forall r | r in sessions && sessions[r].user == u :: !ReleaseRefused(sessions[r]))
            && Balance(s.store, u) <= said
  {
    hide Total, Sum, Run, Routed, LedgerBalance, Ledger.InsertAll, AtWork, Overstated, Understated, Unrecorded;
    hide AllRouted, CreatedAnswers, SettledAnswers, PurchasesAnswered, WellKept, ToldTruly, BoughtTruly, Heard;
    hide Proper, Distinct, Sent, Flattered, Slighted, ReleaseRefused, Session.Documented, AnsweredPurchases;
    var s := Run(c, start, acts);
    var bought := AnsweredPurchases(s);
    RunsArePossible(sessions, bought);
    JobsAreRouted(sessions, c, start, acts);
    AnswersAreTrue(c, start, acts, u);
    AtWorkRun(c, start, acts);
    HistoryIsWellKept(c, start, acts);
    HeardIsTrue(sessions, s);
    AllRecorded(s, u);
    AuditHoldsExactly(sessions, bought, purchase, delivered, c, start, acts, u);
    forall r | r in sessions && sessions[r].user == u
      ensures Flattered(s.history, r, sessions[r]) <==> ReleaseRefused(sessions[r])
      ensures !Slighted(s.history, r, sessions[r])
    {
      OnlyRefusedReleases(sessions, s, r);
    }
  }
}

/** Runs after which the ledger does not say what Redis shows: one for each way in which an answer is not heard, or a
    refusal not reported. */
module LedgerLimits {
  import opened Sums
  import opened Redis
  import opened Protocol
  import opened Budget
  import opened Conservation
  import opened Answers
  import opened Costs
  import opened Limits
  import opened Traffic
  import opened UsageServer
  import opened Audit
  import opened Discrepancies
  import Adapter
  import Gateway
  import Ledger
  import Options
  import Tokens

  /** A single run of the gateway. */
  function Single(x: Session): Sessions { map["res_a" := x] }

  lemma SingleIsSent(x: Session, purchase: nat -> string)
    requires x.Possible() && Proper(Single(x), map[])
    ensures forall e :: e in EntriesOf("res_a", x) <==> Sent(Single(x), map[], purchase, e)
  {
    hide EntriesOf, Proper;
    assert "res_a" in Single(x);
  }

  lemma NothingBoughtIn(s: State, u: UserId)
    requires AtWork(s) && PurchasesAnswered(s, u, true) && forall i | i in s.jobs :: !s.jobs[i].TopUp?
    ensures Unrecorded(s, u, map[]) == 0
  {
    hide Total, Sum;
    assert AnsweredPurchases(s) == map[];
    AllRecorded(s, u);
  }

  /** What the ledger says after a single run whose rows all arrive: the balance less what they misstate. */
  lemma LedgerOfSingle(x: Session, c: Config, acts: seq<Action>, purchase: nat -> string)
    requires x.Possible() && x.user == "user" && Distinct(purchase, Single(x)) && NoLostReply(acts)
    requires forall a | a in acts && a.Begin? :: Routed(Single(x), a.job)
    requires forall i | i in Run(c, 0, acts).jobs :: !Run(c, 0, acts).jobs[i].TopUp?
    requires "user" in Run(c, 0, acts).store.balances
    ensures var s := Run(c, 0, acts); var delivered := EntriesOf("res_a", x);
            && Audited(Single(x), map[], purchase, delivered)
            && LedgerBalance(Ledger.InsertAll(map[], delivered), "user", c.initialCredits)
               == Balance(s.store, "user") - (Stated(x) - Cost(s.history, "res_a"))
  {
    hide Run, Total, Sum, Routed, Distinct, Sent, EntriesOf, LedgerBalance, Ledger.InsertAll, AtWork, Unrecorded;
    hide CreatedAnswers, SettledAnswers, PurchasesAnswered, Stated, Cost, Session.Possible, NoLostReply;
    var s := Run(c, 0, acts);
    assert Proper(Single(x), map[]);
    SingleIsSent(x, purchase);
    AnswersAreTrue(c, 0, acts, "user");
    AtWorkRun(c, 0, acts);
    NothingBoughtIn(s, "user");
    GatewayIsAuditable(Single(x), map[], purchase, EntriesOf("res_a", x), c, 0, acts, "user");
    var none: Sessions := map[];
    TotalPut(none, Misstated("user", s.history), "res_a", x);
    TotalZero(none, Misstated("user", s.history));
  }

  lemma ReachedBySingle(x: Session, c: Config, acts: seq<Action>)
    requires forall a | a in acts && a.Begin? :: Routed(Single(x), a.job)
    requires ToldTruly(Single(x), Run(c, 0, acts)) && NoLostReply(acts)
    ensures Reached(Single(x), Run(c, 0, acts), true)
  {
    hide Run, Routed, ToldTruly, CreatedAnswers, SettledAnswers, PurchasesAnswered, AllRouted, WellKept;
    JobsAreRouted(Single(x), c, 0, acts);
    AnswersAreTrue(c, 0, acts, "user");
    HistoryIsWellKept(c, 0, acts);
  }

  lemma ToldIsHeld(s: State, told: bool, i: nat, q: Request)
    requires CreatedAnswers(s, told) && Told(s, i, Reserve(q), Created)
    ensures IsHeld(s.history, q.res)
  {
    hide HoldAsked, HoldFor;
    assert HoldPlaced(s.history, q);
  }

  lemma ToldIsClosed(s: State, told: bool, i: nat, st: Settlement)
    requires SettledAnswers(s, told) && Told(s, i, Reconcile(st), Settled)
    ensures IsClosed(s.history, st.res)
  {
    hide ClosingAsked;
    assert ClosedBy(s.history, st.res, st.Commit?);
  }

  // ---- the client leaves while the reservation is answered ----

  const GONE_SESSION := Session(
    "user", "key", Gateway.Settings(Gateway.Platform, 1, 1), 1, 1, Streaming(Gateway.Refused, Options.None, []),
    Gateway.Leaves(Gateway.ASKING), false, false, true, true)

  const RESERVE_ONE := Request("res_a", "user", 1, CHAT_TTL)

  const GONE_ACTIONS := AtOnce(0, Reserve(RESERVE_ONE))

  /** The hold is placed and paid; the gateway, whose request was cancelled, neither settles nor reports it, and the
      ledger says that the user has all their credits. */
  lemma UnheardReservationMisleads(c: Config, purchase: nat -> string)
    requires Roomy(c) && Distinct(purchase, Single(GONE_SESSION))
    ensures (forall a | a in GONE_ACTIONS && a.Begin? :: Routed(Single(GONE_SESSION), a.job))
            && NoLostReply(GONE_ACTIONS)
    ensures GONE_SESSION.Possible() && GONE_SESSION.Calls() == [] && GONE_SESSION.Rows() == []
    ensures var s := Run(c, 0, GONE_ACTIONS); var delivered := EntriesOf("res_a", GONE_SESSION);
            && ToldTruly(Single(GONE_SESSION), s) && UnheardHold(s.history, "res_a", GONE_SESSION)
            && Audited(Single(GONE_SESSION), map[], purchase, delivered)
            && Balance(s.store, "user") == c.initialCredits - 1
            && LedgerBalance(Ledger.InsertAll(map[], delivered), "user", c.initialCredits) == c.initialCredits
  {
    hide Run, NoLostReply, LedgerBalance, Audited, EntriesOf, Distinct, Ledger.InsertAll, Stated, Cost, Session.Outcome;
    hide CreatedAnswers, SettledAnswers, PurchasesAnswered, IsHeld, IsClosed, Reached;
    GoneIsRouted();
    GoneRun(c);
    AnswersAreTrue(c, 0, GONE_ACTIONS, "user");
    ToldIsHeld(Run(c, 0, GONE_ACTIONS), true, 0, RESERVE_ONE);
    LedgerOfSingle(GONE_SESSION, c, GONE_ACTIONS, purchase);
    ReachedBySingle(GONE_SESSION, c, GONE_ACTIONS);
    RowsAreRight(Single(GONE_SESSION), Run(c, 0, GONE_ACTIONS), true, "res_a");
  }

  lemma GoneIsRouted()
    ensures forall a | a in GONE_ACTIONS && a.Begin? :: Routed(Single(GONE_SESSION), a.job)
    ensures NoLostReply(GONE_ACTIONS)
  {
    hide Session.Calls, Session.Outcome;
    assert Routed(Single(GONE_SESSION), Reserve(RESERVE_ONE));
  }

  lemma GoneRun(c: Config)
    requires Roomy(c)
    ensures var s := Run(c, 0, GONE_ACTIONS);
            && s.tasks == map[0 := Finished(Created)] && s.jobs == map[0 := Reserve(RESERVE_ONE)]
            && "user" in s.store.balances && s.store.balances["user"] == c.initialCredits - 1
  {
    hide AloneWith, Run, AtOnce;
    assert [] + GONE_ACTIONS == GONE_ACTIONS;
    StartsEmpty(c);
    AtOnceRun(c, 0, [], 0, Reserve(RESERVE_ONE));
    CreateAlone(c, 0, EMPTY_STORE, RESERVE_ONE);
  }

  // ---- the answer to a commit is lost ----

  /** A buffered chat with a hold of two credits that cost one. */
  const UNHEARD_SESSION := Session(
    "user", "key", Gateway.Settings(Gateway.Platform, 2, 1), 1, 1, Buffering(Adapter.Total(1)),
    Gateway.Stays, true, false, true, true)

  const RESERVE_TWO := Request("res_a", "user", 2, CHAT_TTL)
  const COMMIT_ONE := Commit("res_a", "user", 1)

  const UNHEARD_ACTIONS := AtOnce(0, Reserve(RESERVE_TWO)) + AtOnce(1, Reconcile(COMMIT_ONE))

  /** The commit takes place, but the gateway does not hear of it and reports a failure: the ledger says that the
      user has a credit less than they have. */
  lemma UnheardCommitMisleads(c: Config, purchase: nat -> string)
    requires Roomy(c) && Distinct(purchase, Single(UNHEARD_SESSION))
    ensures forall a | a in UNHEARD_ACTIONS && a.Begin? :: Routed(Single(UNHEARD_SESSION), a.job)
    ensures NoLostReply(UNHEARD_ACTIONS) && UNHEARD_SESSION.Possible() && UNHEARD_SESSION.Documented()
    ensures UNHEARD_SESSION.Rows()
            == [Gateway.Row(Gateway.ReservedRow, 2), Gateway.Row(Gateway.CommitFailedRow, 1)]
    ensures var s := Run(c, 0, UNHEARD_ACTIONS); var delivered := EntriesOf("res_a", UNHEARD_SESSION);
            && ToldTruly(Single(UNHEARD_SESSION), s) && Slighted(s.history, "res_a", UNHEARD_SESSION)
            && Audited(Single(UNHEARD_SESSION), map[], purchase, delivered)
            && Balance(s.store, "user") == c.initialCredits - 1
            && LedgerBalance(Ledger.InsertAll(map[], delivered), "user", c.initialCredits) == c.initialCredits - 2
  {
    hide Run, NoLostReply, LedgerBalance, Audited, EntriesOf, Distinct, Ledger.InsertAll, Stated, Cost, Routed;
    hide CreatedAnswers, SettledAnswers, PurchasesAnswered, IsHeld, IsClosed, Reached, UNHEARD_ACTIONS, Session.Outcome;
    var s := Run(c, 0, UNHEARD_ACTIONS);
    UnheardReports();
    UnheardIsRouted();
    UnheardRun(c);
    UnheardIsTold(s);
    AnswersAreTrue(c, 0, UNHEARD_ACTIONS, "user");
    ToldIsClosed(s, true, 1, COMMIT_ONE);
    LedgerOfSingle(UNHEARD_SESSION, c, UNHEARD_ACTIONS, purchase);
    ReachedBySingle(UNHEARD_SESSION, c, UNHEARD_ACTIONS);
    RowsAreRight(Single(UNHEARD_SESSION), s, true, "res_a");
  }

  lemma UnheardReports()
    ensures UNHEARD_SESSION.Calls() == [Gateway.CommitCall(1)] && KeptBy("res_a", UNHEARD_SESSION) == 1
    ensures UNHEARD_SESSION.Rows()
            == [Gateway.Row(Gateway.ReservedRow, 2), Gateway.Row(Gateway.CommitFailedRow, 1)]
  {
    Tokens.CreditsCover(1, 1);
    assert UNHEARD_SESSION.Outcome()
      == Gateway.BufferedOutcome(UNHEARD_SESSION.p, Adapter.Total(1), Gateway.Stays, false);
  }

  lemma UnheardIsRouted()
    ensures forall a | a in UNHEARD_ACTIONS && a.Begin? :: Routed(Single(UNHEARD_SESSION), a.job)
    ensures NoLostReply(UNHEARD_ACTIONS)
  {
    UnheardReports();
    hide Session.Calls, Session.Outcome;
    assert COMMIT_ONE == SettlementOf("res_a", UNHEARD_SESSION, Gateway.CommitCall(1));
    assert Gateway.CommitCall(1) in UNHEARD_SESSION.Calls();
    assert Routed(Single(UNHEARD_SESSION), Reconcile(COMMIT_ONE));
    assert Routed(Single(UNHEARD_SESSION), Reserve(RESERVE_TWO));
  }

  lemma UnheardRun(c: Config)
    requires Roomy(c)
    ensures var s := Run(c, 0, UNHEARD_ACTIONS);
            && s.tasks == map[0 := Finished(Created), 1 := Finished(Settled)]
            && s.jobs == map[0 := Reserve(RESERVE_TWO), 1 := Reconcile(COMMIT_ONE)]
            && "user" in s.store.balances && s.store.balances["user"] == c.initialCredits - 1
  {
    hide AloneWith, Run, AtOnce, Settle;
    var a1 := AtOnce(0, Reserve(RESERVE_TWO));
    assert [] + a1 == a1;
    StartsEmpty(c);
    AtOnceRun(c, 0, [], 0, Reserve(RESERVE_TWO));
    CreateAlone(c, 0, EMPTY_STORE, RESERVE_TWO);
    var s1 := Run(c, 0, a1);
    AtOnceRun(c, 0, a1, 1, Reconcile(COMMIT_ONE));
    SettlingAlone(c, s1.now, s1.store, COMMIT_ONE);
    SettleSays(s1.store, COMMIT_ONE, StampOf(s1.store, "res_a"), s1.now);
  }

  lemma UnheardIsTold(s: State)
    requires s.tasks == map[0 := Finished(Created), 1 := Finished(Settled)]
    requires s.jobs == map[0 := Reserve(RESERVE_TWO), 1 := Reconcile(COMMIT_ONE)]
    ensures ToldTruly(Single(UNHEARD_SESSION), s) && Told(s, 1, Reconcile(COMMIT_ONE), Settled)
  {
    hide Session.Calls, Session.Outcome;
    assert Told(s, 0, Reserve(RequestOf("res_a", UNHEARD_SESSION)), Created);
  }

  // ---- the event of a reservation is lost ----

  /** The same chat, settled by nobody, when the event of its reservation does not arrive. */
  const UNNOTED_SESSION := UNHEARD_SESSION.(noted := false)

  const UNNOTED_ACTIONS := AtOnce(0, Reserve(RESERVE_TWO))

  /** The commit never reaches the usage service and is reported as failed; of the hold the ledger knows nothing. */
  lemma UnnotedHoldMisleads(c: Config, purchase: nat -> string)
    requires Roomy(c) && Distinct(purchase, Single(UNNOTED_SESSION))
    ensures forall a | a in UNNOTED_ACTIONS && a.Begin? :: Routed(Single(UNNOTED_SESSION), a.job)
    ensures NoLostReply(UNNOTED_ACTIONS) && UNNOTED_SESSION.Possible()
    ensures var s := Run(c, 0, UNNOTED_ACTIONS); var delivered := EntriesOf("res_a", UNNOTED_SESSION);
            && ToldTruly(Single(UNNOTED_SESSION), s) && UnreportedHold(s.history, "res_a", UNNOTED_SESSION)
            && Audited(Single(UNNOTED_SESSION), map[], purchase, delivered)
            && Balance(s.store, "user") == c.initialCredits - 2
            && LedgerBalance(Ledger.InsertAll(map[], delivered), "user", c.initialCredits) == c.initialCredits
  {
    hide Run, NoLostReply, LedgerBalance, Audited, EntriesOf, Distinct, Ledger.InsertAll, Stated, Cost, Routed;
    hide CreatedAnswers, SettledAnswers, PurchasesAnswered, IsHeld, IsClosed, Reached, UNNOTED_ACTIONS, Session.Outcome;
    var s := Run(c, 0, UNNOTED_ACTIONS);
    UnnotedReports();
    UnnotedIsRouted();
    UnnotedRun(c);
    UnnotedIsTold(s);
    AnswersAreTrue(c, 0, UNNOTED_ACTIONS, "user");
    ToldIsHeld(s, true, 0, RESERVE_TWO);
    NothingIsClosed(s);
    LedgerOfSingle(UNNOTED_SESSION, c, UNNOTED_ACTIONS, purchase);
    ReachedBySingle(UNNOTED_SESSION, c, UNNOTED_ACTIONS);
    StatedByRun("res_a", UNNOTED_SESSION);
    CostWhileOpen(s);
  }

  lemma UnnotedReports()
    ensures UNNOTED_SESSION.Calls() == [Gateway.CommitCall(1)] && KeptBy("res_a", UNNOTED_SESSION) == 1
  {
    Tokens.CreditsCover(1, 1);
    assert UNNOTED_SESSION.Outcome()
      == Gateway.BufferedOutcome(UNNOTED_SESSION.p, Adapter.Total(1), Gateway.Stays, false);
  }

  lemma CostWhileOpen(s: State)
    requires Reached(Single(UNNOTED_SESSION), s, true) && IsHeld(s.history, "res_a") && !IsClosed(s.history, "res_a")
    ensures Cost(s.history, "res_a") == 2
  {
    hide Session.Calls, Session.Outcome, Cost, IsHeld, IsClosed, AllRouted, CreatedAnswers, SettledAnswers, WellKept;
    CostOfRun(Single(UNNOTED_SESSION), s, true, "res_a");
  }

  lemma UnnotedIsRouted()
    ensures forall a | a in UNNOTED_ACTIONS && a.Begin? :: Routed(Single(UNNOTED_SESSION), a.job)
    ensures NoLostReply(UNNOTED_ACTIONS)
  {
    hide Session.Calls, Session.Outcome;
    assert Routed(Single(UNNOTED_SESSION), Reserve(RESERVE_TWO));
  }

  lemma UnnotedRun(c: Config)
    requires Roomy(c)
    ensures var s := Run(c, 0, UNNOTED_ACTIONS);
            && s.tasks == map[0 := Finished(Created)] && s.jobs == map[0 := Reserve(RESERVE_TWO)]
            && "user" in s.store.balances && s.store.balances["user"] == c.initialCredits - 2
  {
    hide AloneWith, Run, AtOnce;
    assert [] + UNNOTED_ACTIONS == UNNOTED_ACTIONS;
    StartsEmpty(c);
    AtOnceRun(c, 0, [], 0, Reserve(RESERVE_TWO));
    CreateAlone(c, 0, EMPTY_STORE, RESERVE_TWO);
  }

  lemma UnnotedIsTold(s: State)
    requires s.tasks == map[0 := Finished(Created)] && s.jobs == map[0 := Reserve(RESERVE_TWO)]
    ensures ToldTruly(Single(UNNOTED_SESSION), s) && Told(s, 0, Reserve(RESERVE_TWO), Created)
  {
    hide Session.Calls, Session.Outcome;
    assert Told(s, 0, Reserve(RequestOf("res_a", UNNOTED_SESSION)), Created);
  }

  lemma NothingIsClosed(s: State)
    requires s.tasks == map[0 := Finished(Created)] && SettledAnswers(s, true)
    ensures !IsClosed(s.history, "res_a")
  {
    hide SettledAnswers, IsClosed;
    if IsClosed(s.history, "res_a") {
      ClosedIsTold(s, "res_a");
    }
  }

  // ---- a release is refused ----

  /** A chat that no upstream answers, settled only after its hold has expired. */
  const LATE_SESSION := Session(
    "user", "key", Gateway.Settings(Gateway.Platform, 1, 1), 1, 1, Streaming(Gateway.Refused, Options.None, []),
    Gateway.Stays, true, false, true, true)

  const LATE_RELEASE := Release("res_a", "user")

  const LATE_ACTIONS: seq<Action> :=
    AtOnce(0, Reserve(RESERVE_ONE)) + [Tick(CHAT_TTL * SECOND)] + AtOnce(1, Reconcile(LATE_RELEASE))

  /** The release is refused because the hold is gone by then, the run reports a release all the same, and the ledger
      says that the user has a credit more than they have. */
  lemma RefusedReleaseMisleads(c: Config, purchase: nat -> string)
    requires Roomy(c) && Distinct(purchase, Single(LATE_SESSION))
    ensures forall a | a in LATE_ACTIONS && a.Begin? :: Routed(Single(LATE_SESSION), a.job)
    ensures NoLostReply(LATE_ACTIONS) && LATE_SESSION.Possible() && LATE_SESSION.Documented()
    ensures LATE_SESSION.Rows() == [Gateway.Row(Gateway.ReservedRow, 1), Gateway.Row(Gateway.ReleasedRow, 1)]
    ensures var s := Run(c, 0, LATE_ACTIONS); var delivered := EntriesOf("res_a", LATE_SESSION);
            && Heard(Single(LATE_SESSION), s) && ReleaseRefused(LATE_SESSION)
            && Audited(Single(LATE_SESSION), map[], purchase, delivered)
            && Balance(s.store, "user") == c.initialCredits - 1
            && LedgerBalance(Ledger.InsertAll(map[], delivered), "user", c.initialCredits) == c.initialCredits
  {
    hide Run, NoLostReply, LedgerBalance, Audited, EntriesOf, Distinct, Ledger.InsertAll, Stated, Cost, Routed;
    hide CreatedAnswers, SettledAnswers, PurchasesAnswered, IsHeld, IsClosed, Reached, LATE_ACTIONS, Session.Outcome,
         Heard;
    var s := Run(c, 0, LATE_ACTIONS);
    LateReports();
    LateIsRouted();
    LateRun(c);
    LateIsHeard(s);
    HeardIsTrue(Single(LATE_SESSION), s);
    LedgerOfSingle(LATE_SESSION, c, LATE_ACTIONS, purchase);
    ReachedBySingle(LATE_SESSION, c, LATE_ACTIONS);
    AnswersAreTrue(c, 0, LATE_ACTIONS, "user");
    LateIsNotClosed(s);
    RowsAreRight(Single(LATE_SESSION), s, true, "res_a");
  }

  lemma LateReports()
    ensures LATE_SESSION.Calls() == [Gateway.ReleaseCall]
    ensures LATE_SESSION.Rows() == [Gateway.Row(Gateway.ReservedRow, 1), Gateway.Row(Gateway.ReleasedRow, 1)]
  {
    Gateway.NoFlags(LATE_SESSION.p);
    hide Gateway.Billable, Gateway.SawUsage, Gateway.SawError, Gateway.ForwardedAll;
    assert LATE_SESSION.Outcome()
      == Gateway.ChatOutcome(LATE_SESSION.p, Gateway.Refused, Options.None, Gateway.Stays, false);
  }

  lemma LateIsRouted()
    ensures forall a | a in LATE_ACTIONS && a.Begin? :: Routed(Single(LATE_SESSION), a.job)
    ensures NoLostReply(LATE_ACTIONS)
  {
    LateReports();
    assert LATE_RELEASE == SettlementOf("res_a", LATE_SESSION, Gateway.ReleaseCall);
    assert Gateway.ReleaseCall in LATE_SESSION.Calls();
    hide Session.Calls, Session.Outcome;
    assert Routed(Single(LATE_SESSION), Reconcile(LATE_RELEASE));
    assert Routed(Single(LATE_SESSION), Reserve(RESERVE_ONE));
  }

  lemma AfterExpiry(c: Config, s: State)
    requires s.now == 0 && "res_a" in s.store.holds && s.store.holds["res_a"].deadline == At(CHAT_TTL * SECOND)
    ensures var s' := Apply(c, s, Tick(CHAT_TTL * SECOND));
            && "res_a" !in s'.store.holds && s'.store.balances == s.store.balances
            && s'.tasks == s.tasks && s'.jobs == s.jobs
  {
  }

  /** Redis after the run: the hold is paid, the release came too late. */
  lemma LateRun(c: Config)
    requires Roomy(c)
    ensures var s := Run(c, 0, LATE_ACTIONS);
            && s.tasks == map[0 := Finished(Created), 1 := Finished(NotValid)]
            && s.jobs == map[0 := Reserve(RESERVE_ONE), 1 := Reconcile(LATE_RELEASE)]
            && "user" in s.store.balances && s.store.balances["user"] == c.initialCredits - 1
  {
    hide AloneWith, Run, Apply, AtOnce;
    var a1 := AtOnce(0, Reserve(RESERVE_ONE));
    var a2 := a1 + [Tick(CHAT_TTL * SECOND)];
    assert [] + a1 == a1;
    StartsEmpty(c);
    AtOnceRun(c, 0, [], 0, Reserve(RESERVE_ONE));
    CreateAlone(c, 0, EMPTY_STORE, RESERVE_ONE);
    RunOn(c, 0, a1, Tick(CHAT_TTL * SECOND));
    AfterExpiry(c, Run(c, 0, a1));
    AtOnceRun(c, 0, a2, 1, Reconcile(LATE_RELEASE));
    SettlingAlone(c, Run(c, 0, a2).now, Run(c, 0, a2).store, LATE_RELEASE);
  }

  lemma LateIsHeard(s: State)
    requires s.tasks == map[0 := Finished(Created), 1 := Finished(NotValid)]
    requires s.jobs == map[0 := Reserve(RESERVE_ONE), 1 := Reconcile(LATE_RELEASE)]
    ensures Heard(Single(LATE_SESSION), s)
  {
    LateReports();
    hide Session.Calls, Session.Outcome;
    assert Told(s, 0, Reserve(RequestOf("res_a", LATE_SESSION)), Created);
    assert forall call | call in LATE_SESSION.Calls() :: call == Gateway.ReleaseCall;
  }

  lemma ClosedIsTold(s: State, r: ResId)
    requires SettledAnswers(s, true) && IsClosed(s.history, r)
    ensures exists i, st :: Told(s, i, Reconcile(st), Settled)
  {
    hide ClosedBy;
    var st, hold :| Closed(st, hold) in s.history && st.res == r;
    assert ClosingAsked(s, st, true);
  }

  lemma LateIsNotClosed(s: State)
    requires s.tasks == map[0 := Finished(Created), 1 := Finished(NotValid)] && SettledAnswers(s, true)
    ensures !IsClosed(s.history, "res_a")
  {
    hide SettledAnswers, IsClosed;
    if IsClosed(s.history, "res_a") {
      ClosedIsTold(s, "res_a");
    }
  }

  // ---- the answer to a purchase is lost ----

  const UNHEARD_PURCHASE := AtOnce(0, TopUp("user", 1))

  /** The credit is minted, but the gateway does not hear of it and records nothing: the ledger says that the user has a
      credit less than they have. */
  lemma UnheardPurchaseMisleads(c: Config, purchase: nat -> string)
    requires c.purchaseLimit >= 1 && Distinct(purchase, map[])
    ensures (forall a | a in UNHEARD_PURCHASE && a.Begin? :: Routed(map[], a.job)) && NoLostReply(UNHEARD_PURCHASE)
    ensures var s := Run(c, 0, UNHEARD_PURCHASE);
            && ToldTruly(map[], s) && BoughtTruly(map[], s) && Audited(map[], map[], purchase, [])
            && Balance(s.store, "user") == c.initialCredits + 1
            && LedgerBalance(Ledger.InsertAll(map[], []), "user", c.initialCredits) == c.initialCredits
  {
    hide Run, AtOnce, Alone, Distinct;
    assert [] + UNHEARD_PURCHASE == UNHEARD_PURCHASE;
    StartsEmpty(c);
    AtOnceRun(c, 0, [], 0, TopUp("user", 1));
    PurchaseAlone(c, 0, EMPTY_STORE, "user", 1);
    PurchaseIsRouted();
  }

  lemma PurchaseIsRouted()
    ensures (forall a | a in UNHEARD_PURCHASE && a.Begin? :: Routed(map[], a.job)) && NoLostReply(UNHEARD_PURCHASE)
  {
  }
}

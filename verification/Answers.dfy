/** What the handlers answer is what happened: a caller that is told of a success knows that it took place, and
    whatever took place had been asked for; without lost replies it was answered as well. */
module Answers {
  import opened Sums
  import opened Redis
  import opened Protocol
  import opened Budget
  import opened Conservation
  import opened Settlements

  /** A handler is still at the job it was started for. */
  predicate WorksOn(t: Task, job: Job) {
    match t
    case Creating(phase, k) =>
      job == Reserve(k.req) && (phase.Refunding? ==> phase.answer.InsufficientCredits? || phase.answer.ServerError?)
    case Looking(st) => job == Reconcile(st)
    case Settling(st, _) => job == Reconcile(st)
    case TopUpCounting(u, n, _) => job == TopUp(u, n)
    case TopUpGranting(u, n, _) => job == TopUp(u, n)
    case TopUpMinting(u, n, _) => job == TopUp(u, n)
    case Viewing(u) => job == View(u)
    case Finished(answer) =>
      && (answer.Created? ==> job.Reserve?)
      && (answer.Settled? ==> job.Reconcile?)
      && (answer.Purchased? ==> job.TopUp?)
  }

  ghost predicate AtWork(s: State) {
    && s.jobs.Keys == s.tasks.Keys
    && forall i | i in s.tasks :: WorksOn(s.tasks[i], s.jobs[i]) && (s.jobs[i].TopUp? ==> s.jobs[i].credits > 0)
  }

  lemma SuccessorWorks(c: Config, s: State, t: Task, f: Fault, job: Job)
    requires !t.Finished? && WorksOn(t, job)
    ensures WorksOn(Successor(c, s, t, f), job)
  {
  }

  lemma AtWorkCall(c: Config, s: State, id: nat, f: Fault)
    requires Running(s, id) && AtWork(s)
    ensures AtWork(ApplyCall(c, s, id, f))
  {
    hide Exec, OpOf, EventsOf, LeakOf, Leak, Successor, WorksOn;
    SuccessorWorks(c, s, s.tasks[id], f, s.jobs[id]);
  }

  lemma {:induction false} AtWorkRun(c: Config, start: nat, acts: seq<Action>)
    ensures AtWork(Run(c, start, acts))
    decreases |acts|
  {
    if acts != [] {
      hide ApplyCall, Purge;
      var s, a := Run(c, start, acts[..|acts| - 1]), acts[|acts| - 1];
      AtWorkRun(c, start, acts[..|acts| - 1]);
      if a.Call? && Running(s, a.id) {
        AtWorkCall(c, s, a.id, a.fault);
      }
    }
  }

  /** The handler was started for the job. */
  ghost predicate Asked(s: State, i: nat, job: Job) { i in s.jobs && s.jobs[i] == job }

  /** The handler's caller is told the answer. */
  ghost predicate Told(s: State, i: nat, job: Job, answer: Answer) {
    Asked(s, i, job) && i in s.tasks && s.tasks[i] == Finished(answer)
  }

  /** The hold a create request asks for. */
  predicate HoldFor(hold: Hold, q: Request) {
    hold.user == q.user && hold.amount == q.credits && hold.status == Reserved && hold.stamp.On?
  }

  // ---- reservations ----

  ghost predicate HoldPlaced(h: seq<Event>, q: Request) { exists hold :: HoldFor(hold, q) && Held(q.res, hold) in h }

  /** The hold was asked for; and, if told, that was answered. */
  ghost predicate HoldAsked(s: State, r: ResId, hold: Hold, told: bool) {
    exists i, q ::
      Asked(s, i, Reserve(q)) && q.res == r && HoldFor(hold, q) && (told ==> Told(s, i, Reserve(q), Created))
  }

  /** Created is only answered to requests whose holds were placed; all holds that were placed had been asked for; and,
      if told, were answered. */
  ghost predicate CreatedAnswers(s: State, told: bool) {
    && (forall i, q | Told(s, i, Reserve(q), Created) :: HoldPlaced(s.history, q))
    && (forall r, hold | Held(r, hold) in s.history :: HoldAsked(s, r, hold, told))
  }

  lemma PlacedStays(h: seq<Event>, h': seq<Event>, q: Request)
    requires HoldPlaced(h, q) && h <= h'
    ensures HoldPlaced(h', q)
  {
    var hold :| HoldFor(hold, q) && Held(q.res, hold) in h;
    assert Held(q.res, hold) in h';
  }

  /** What a call writes to the history. */
  function Executed(c: Config, s: State, t: Task, f: Fault): seq<Event>
    requires !t.Finished?
  {
    if f.NoEffect? then [] else EventsOf(c, s.store, s.now, OpOf(t))
  }

  lemma CallWrites(c: Config, s: State, id: nat, f: Fault, e: Event)
    requires Running(s, id) && !e.Leaked?
    ensures e in ApplyCall(c, s, id, f).history <==> e in s.history || e in Executed(c, s, s.tasks[id], f)
  {
    hide EventsOf, LeakOf, Successor, Exec, OpOf;
  }

  lemma PlacingAnswer(c: Config, s: State, t: Task, f: Fault, job: Job)
    requires !t.Finished? && WorksOn(t, job)
    ensures Successor(c, s, t, f) == Finished(Created) ==> job.Reserve? && HoldPlaced(Executed(c, s, t, f), job.req)
    ensures forall r, hold | Held(r, hold) in Executed(c, s, t, f) ::
              && job.Reserve? && job.req.res == r && HoldFor(hold, job.req)
              && (!f.LostReply? ==> Successor(c, s, t, f) == Finished(Created))
  {
    if Successor(c, s, t, f) == Finished(Created) {
      var k := t.ticket;
      var hold := Hold(k.req.user, k.req.credits, Reserved, On(k.day), At(s.now + k.req.Ttl()));
      assert HoldFor(hold, job.req) && Held(job.req.res, hold) in Executed(c, s, t, f);
    }
  }

  lemma HeldNow(c: Config, s: State, id: nat, f: Fault, q: Request)
    requires Running(s, id) && HoldPlaced(Executed(c, s, s.tasks[id], f), q)
    ensures HoldPlaced(ApplyCall(c, s, id, f).history, q)
  {
    hide Executed, ApplyCall, HoldFor;
    var hold :| HoldFor(hold, q) && Held(q.res, hold) in Executed(c, s, s.tasks[id], f);
    CallWrites(c, s, id, f, Held(q.res, hold));
  }

  lemma AskedStays(c: Config, s: State, id: nat, f: Fault, r: ResId, hold: Hold, told: bool)
    requires Running(s, id) && HoldAsked(s, r, hold, told)
    ensures HoldAsked(ApplyCall(c, s, id, f), r, hold, told)
  {
    hide Executed, Exec, OpOf, EventsOf, LeakOf, Leak, Successor, HoldFor;
    var i, q :|
      Asked(s, i, Reserve(q)) && q.res == r && HoldFor(hold, q) && (told ==> Told(s, i, Reserve(q), Created));
    assert Asked(ApplyCall(c, s, id, f), i, Reserve(q));
    assert told ==> Told(ApplyCall(c, s, id, f), i, Reserve(q), Created);
  }

  lemma AskedNow(s: State, i: nat, r: ResId, hold: Hold, told: bool)
    requires i in s.jobs && s.jobs[i].Reserve? && s.jobs[i].req.res == r && HoldFor(hold, s.jobs[i].req)
    requires told ==> i in s.tasks && s.tasks[i] == Finished(Created)
    ensures HoldAsked(s, r, hold, told)
  {
    assert Asked(s, i, Reserve(s.jobs[i].req));
  }

  lemma CreatedCall(c: Config, s: State, id: nat, f: Fault, told: bool)
    requires Running(s, id) && AtWork(s) && CreatedAnswers(s, told) && (told ==> !f.LostReply?)
    ensures CreatedAnswers(ApplyCall(c, s, id, f), told)
  {
    hide Exec, OpOf, EventsOf, LeakOf, Leak, Successor, Executed, HoldFor, WorksOn, HoldPlaced, HoldAsked;
    var s' := ApplyCall(c, s, id, f);
    assert s.history <= s'.history;
    PlacingAnswer(c, s, s.tasks[id], f, s.jobs[id]);
    forall i, q | Told(s', i, Reserve(q), Created)
      ensures HoldPlaced(s'.history, q)
    {
      if i == id {
        HeldNow(c, s, id, f, q);
      } else {
        assert Told(s, i, Reserve(q), Created);
        PlacedStays(s.history, s'.history, q);
      }
    }
    forall r, hold | Held(r, hold) in s'.history
      ensures HoldAsked(s', r, hold, told)
    {
      CallWrites(c, s, id, f, Held(r, hold));
      if Held(r, hold) in s.history {
        AskedStays(c, s, id, f, r, hold, told);
      } else {
        AskedNow(s', id, r, hold, told);
      }
    }
  }

  // ---- settlements ----

  /** The reservation was settled by a settlement of this kind. */
  ghost predicate ClosedBy(h: seq<Event>, r: ResId, commit: bool) {
    exists st, hold :: Closed(st, hold) in h && st.res == r && st.Commit? == commit
  }

  /** The settlement was asked for; and, if told, that was answered. */
  ghost predicate ClosingAsked(s: State, st: Settlement, told: bool) {
    exists i :: Asked(s, i, Reconcile(st)) && (told ==> Told(s, i, Reconcile(st), Settled))
  }

  /** Settled is only answered where a settlement of the same kind took place; all that took place had been asked for;
      and, if told, were answered Settled. */
  ghost predicate SettledAnswers(s: State, told: bool) {
    && (forall st, hold | Closed(st, hold) in s.history :: ClosingAsked(s, st, told))
    && (forall i, st | Told(s, i, Reconcile(st), Settled) :: ClosedBy(s.history, st.res, st.Commit?))
    && (forall r | r in s.store.holds && s.store.holds[r].status != Reserved ::
          ClosedBy(s.history, r, s.store.holds[r].status == Committed))
  }

  lemma ClosedStays(h: seq<Event>, h': seq<Event>, r: ResId, commit: bool)
    requires ClosedBy(h, r, commit) && h <= h'
    ensures ClosedBy(h', r, commit)
  {
    var st, hold :| Closed(st, hold) in h && st.res == r && st.Commit? == commit;
    assert Closed(st, hold) in h';
  }

  lemma SettlingAnswer(c: Config, s: State, t: Task, f: Fault, job: Job)
    requires !t.Finished? && WorksOn(t, job)
    ensures forall st, hold | Closed(st, hold) in Executed(c, s, t, f) ::
              job == Reconcile(st) && (!f.LostReply? ==> Successor(c, s, t, f) == Finished(Settled))
    ensures Successor(c, s, t, f) == Finished(Settled) ==> job.Reconcile? && job.st.res in s.store.holds
    ensures Successor(c, s, t, f) == Finished(Settled) ==>
              var hold := s.store.holds[job.st.res];
              || (hold.status != Reserved && (hold.status == Committed) == job.st.Commit?)
              || Closed(job.st, hold) in Executed(c, s, t, f)
  {
  }

  lemma SettledStatus(c: Config, s: State, t: Task, f: Fault, r: ResId)
    requires !t.Finished?
    ensures var holds := (if f.NoEffect? then s.store else Exec(c, s.now, s.store, OpOf(t)).0).holds;
            r in holds && holds[r].status != Reserved ==>
              || (r in s.store.holds && s.store.holds[r].status == holds[r].status)
              || ClosedBy(Executed(c, s, t, f), r, holds[r].status == Committed)
  {
    var op := OpOf(t);
    if !f.NoEffect? && op.SettleHold? && Judge(s.store, op.st, op.stamp) == Effective && r == op.st.res {
      assert Closed(op.st, s.store.holds[r]) in Executed(c, s, t, f);
    }
  }

  lemma ClosingStays(c: Config, s: State, id: nat, f: Fault, st: Settlement, told: bool)
    requires Running(s, id) && ClosingAsked(s, st, told)
    ensures ClosingAsked(ApplyCall(c, s, id, f), st, told)
  {
    hide Exec, OpOf, EventsOf, LeakOf, Leak, Successor;
    var i :| Asked(s, i, Reconcile(st)) && (told ==> Told(s, i, Reconcile(st), Settled));
    assert Asked(ApplyCall(c, s, id, f), i, Reconcile(st));
    assert told ==> Told(ApplyCall(c, s, id, f), i, Reconcile(st), Settled);
  }

  lemma ClosingNow(s: State, i: nat, st: Settlement, told: bool)
    requires Asked(s, i, Reconcile(st)) && (told ==> Told(s, i, Reconcile(st), Settled))
    ensures ClosingAsked(s, st, told)
  {
  }

  lemma SettledCall(c: Config, s: State, id: nat, f: Fault, told: bool)
    requires Running(s, id) && AtWork(s) && SettledAnswers(s, told) && (told ==> !f.LostReply?)
    ensures SettledAnswers(ApplyCall(c, s, id, f), told)
  {
    hide Exec, OpOf, EventsOf, LeakOf, Leak, Successor, Executed, WorksOn, ClosedBy, ClosingAsked;
    var s' := ApplyCall(c, s, id, f);
    var t := s.tasks[id];
    assert s.history <= s'.history;
    SettlingAnswer(c, s, t, f, s.jobs[id]);
    forall st, hold | Closed(st, hold) in s'.history
      ensures ClosingAsked(s', st, told)
    {
      CallWrites(c, s, id, f, Closed(st, hold));
      if Closed(st, hold) in s.history {
        ClosingStays(c, s, id, f, st, told);
      } else {
        ClosingNow(s', id, st, told);
      }
    }
    forall r | r in s'.store.holds && s'.store.holds[r].status != Reserved
      ensures ClosedBy(s'.history, r, s'.store.holds[r].status == Committed)
    {
      SettledStatus(c, s, t, f, r);
      if r in s.store.holds && s.store.holds[r].status == s'.store.holds[r].status {
        ClosedStays(s.history, s'.history, r, s'.store.holds[r].status == Committed);
      } else {
        ClosedNow(c, s, id, f, r, s'.store.holds[r].status == Committed);
      }
    }
    forall i, st | Told(s', i, Reconcile(st), Settled)
      ensures ClosedBy(s'.history, st.res, st.Commit?)
    {
      if i != id {
        assert Told(s, i, Reconcile(st), Settled);
        ClosedStays(s.history, s'.history, st.res, st.Commit?);
      } else if Closed(st, s.store.holds[st.res]) in Executed(c, s, t, f) {
        IsClosedBy(Executed(c, s, t, f), st, s.store.holds[st.res]);
        ClosedNow(c, s, id, f, st.res, st.Commit?);
      } else {
        ClosedStays(s.history, s'.history, st.res, st.Commit?);
      }
    }
  }

  lemma IsClosedBy(h: seq<Event>, st: Settlement, hold: Hold)
    requires Closed(st, hold) in h
    ensures ClosedBy(h, st.res, st.Commit?)
  {
  }

  lemma ClosedNow(c: Config, s: State, id: nat, f: Fault, r: ResId, commit: bool)
    requires Running(s, id) && ClosedBy(Executed(c, s, s.tasks[id], f), r, commit)
    ensures ClosedBy(ApplyCall(c, s, id, f).history, r, commit)
  {
    hide Executed, ApplyCall;
    var st, hold :| Closed(st, hold) in Executed(c, s, s.tasks[id], f) && st.res == r && st.Commit? == commit;
    CallWrites(c, s, id, f, Closed(st, hold));
  }

  // ---- purchases ----

  /** What the user's purchases that were answered come to. */
  ghost function PurchasedBy(u: UserId, tasks: map<nat, Task>): (nat, Job) -> int {
    (i, job: Job) =>
      if job.TopUp? && job.user == u && i in tasks && tasks[i] == Finished(Purchased) then job.credits else 0
  }

  /** No more is answered than is minted; and, if told, no less. */
  ghost predicate PurchasesAnswered(s: State, u: UserId, told: bool) {
    var minted, answered := Sum(s.history, MintedFor(Only(u))), Total(s.jobs, PurchasedBy(u, s.tasks));
    answered <= minted && (told ==> answered == minted)
  }

  lemma MintingAnswer(c: Config, s: State, t: Task, f: Fault, job: Job, u: UserId)
    requires !t.Finished? && WorksOn(t, job) && (job.TopUp? ==> job.credits > 0)
    ensures var minted := Sum(Executed(c, s, t, f), MintedFor(Only(u)));
            var success := Successor(c, s, t, f) == Finished(Purchased);
            var answered := if job.TopUp? && job.user == u && success then job.credits else 0;
            answered <= minted && (!f.LostReply? ==> answered == minted)
  {
    hide Sum;
    SumShort(Executed(c, s, t, f), MintedFor(Only(u)));
  }

  lemma PurchasedCall(c: Config, s: State, id: nat, f: Fault, u: UserId, told: bool)
    requires Running(s, id) && AtWork(s) && PurchasesAnswered(s, u, told) && (told ==> !f.LostReply?)
    ensures PurchasesAnswered(ApplyCall(c, s, id, f), u, told)
  {
    hide Total, Sum, Exec, OpOf, EventsOf, LeakOf, Successor, WorksOn;
    var s' := ApplyCall(c, s, id, f);
    CallHistory(c, s, id, f, MintedFor(Only(u)));
    MintingAnswer(c, s, s.tasks[id], f, s.jobs[id], u);
    if f.NoEffect? {
      SumShort(Executed(c, s, s.tasks[id], f), MintedFor(Only(u)));
    }
    TotalRemove(s.jobs, PurchasedBy(u, s.tasks), id);
    TotalRemove(s.jobs, PurchasedBy(u, s'.tasks), id);
    TotalSame(s.jobs - {id}, PurchasedBy(u, s.tasks), PurchasedBy(u, s'.tasks));
  }

  // ---- whole runs ----

  ghost predicate Answered(s: State, u: UserId, told: bool) {
    CreatedAnswers(s, told) && SettledAnswers(s, told) && PurchasesAnswered(s, u, told)
  }

  lemma QuietStep(c: Config, s: State, a: Action)
    requires !a.Call? && AtWork(s)
    ensures forall i, job | Asked(s, i, job) :: Asked(Apply(c, s, a), i, job)
    ensures forall i, job, answer: Answer | !answer.Died? ::
              Told(Apply(c, s, a), i, job, answer) <==> Told(s, i, job, answer)
    ensures forall e: Event | e.Held? || e.Closed? || e.Minted? :: e in Apply(c, s, a).history <==> e in s.history
    ensures s.history <= Apply(c, s, a).history
    ensures forall r | r in Apply(c, s, a).store.holds ::
              r in s.store.holds && Apply(c, s, a).store.holds[r] == s.store.holds[r]
  {
  }

  lemma QuietCreated(c: Config, s: State, a: Action, told: bool)
    requires !a.Call? && AtWork(s) && CreatedAnswers(s, told)
    ensures CreatedAnswers(Apply(c, s, a), told)
  {
    hide Apply, Told, Asked, HoldFor, HoldPlaced;
    var s' := Apply(c, s, a);
    QuietStep(c, s, a);
    forall i, q | Told(s', i, Reserve(q), Created)
      ensures HoldPlaced(s'.history, q)
    {
      assert Told(s, i, Reserve(q), Created);
      PlacedStays(s.history, s'.history, q);
    }
    forall r, hold | Held(r, hold) in s'.history
      ensures HoldAsked(s', r, hold, told)
    {
      var i, q :|
        Asked(s, i, Reserve(q)) && q.res == r && HoldFor(hold, q) && (told ==> Told(s, i, Reserve(q), Created));
      assert Asked(s', i, Reserve(q));
    }
  }

  lemma QuietSettled(c: Config, s: State, a: Action, told: bool)
    requires !a.Call? && AtWork(s) && SettledAnswers(s, told)
    ensures SettledAnswers(Apply(c, s, a), told)
  {
    hide Apply, Told, Asked, ClosedBy;
    var s' := Apply(c, s, a);
    QuietStep(c, s, a);
    forall st, hold | Closed(st, hold) in s'.history
      ensures ClosingAsked(s', st, told)
    {
      var i :| Asked(s, i, Reconcile(st)) && (told ==> Told(s, i, Reconcile(st), Settled));
      assert Asked(s', i, Reconcile(st));
    }
    forall i, st | Told(s', i, Reconcile(st), Settled)
      ensures ClosedBy(s'.history, st.res, st.Commit?)
    {
      assert Told(s, i, Reconcile(st), Settled);
      ClosedStays(s.history, s'.history, st.res, st.Commit?);
    }
    forall r | r in s'.store.holds && s'.store.holds[r].status != Reserved
      ensures ClosedBy(s'.history, r, s'.store.holds[r].status == Committed)
    {
      ClosedStays(s.history, s'.history, r, s'.store.holds[r].status == Committed);
    }
  }

  lemma QuietPurchases(c: Config, s: State, a: Action, u: UserId, told: bool)
    requires !a.Call? && AtWork(s) && PurchasesAnswered(s, u, told)
    ensures PurchasesAnswered(Apply(c, s, a), u, told)
  {
    hide Total, Sum, Purge;
    var s' := Apply(c, s, a);
    NewEventsSum(c, s, a, MintedFor(Only(u)));
    SumZero(NewEvents(c, s, a), MintedFor(Only(u)));
    QuietJobs(c, s, a, u);
    TotalSame(s.jobs, PurchasedBy(u, s.tasks), PurchasedBy(u, s'.tasks));
  }

  lemma QuietJobs(c: Config, s: State, a: Action, u: UserId)
    requires !a.Call? && AtWork(s)
    ensures var s' := Apply(c, s, a);
            && Total(s'.jobs, PurchasedBy(u, s'.tasks)) == Total(s.jobs, PurchasedBy(u, s'.tasks))
            && forall i | i in s.jobs ::
                 PurchasedBy(u, s.tasks)(i, s.jobs[i]) == PurchasedBy(u, s'.tasks)(i, s.jobs[i])
  {
    hide Total, Sum, Purge;
    var s' := Apply(c, s, a);
    if a.Begin? && s'.jobs != s.jobs {
      assert a.id !in s.jobs && s'.jobs == s.jobs[a.id := a.job];
      TotalPut(s.jobs, PurchasedBy(u, s'.tasks), a.id, a.job);
    }
  }

  /** In every run: Created is answered only to requests whose holds were placed, Settled only where a settlement of the
      kind took place, and Purchased for no more than was minted; and what took place had been asked for. Where
      no reply is lost, it was answered as well, and what was minted is what was answered. */
  lemma {:induction false} AnswersAreTrue(c: Config, start: nat, acts: seq<Action>, u: UserId)
    ensures Answered(Run(c, start, acts), u, NoLostReply(acts))
    decreases |acts|
  {
    if acts == [] {
      NothingAnswered(c, start, u, NoLostReply(acts));
    } else {
      hide Apply, ApplyCall, CreatedAnswers, SettledAnswers, PurchasesAnswered, AtWork, Sane;
      var before, a := acts[..|acts| - 1], acts[|acts| - 1];
      var s := Run(c, start, before);
      AnswersAreTrue(c, start, before, u);
      AtWorkRun(c, start, before);
      assert a in acts && (NoLostReply(acts) ==> NoLostReply(before));
      AnswersWeaken(s, u, NoLostReply(before), NoLostReply(acts));
      AnsweredStep(c, s, a, u, NoLostReply(acts));
    }
  }

  lemma AnswersWeaken(s: State, u: UserId, told: bool, told': bool)
    requires Answered(s, u, told) && (told' ==> told)
    ensures Answered(s, u, told')
  {
    hide Told, Asked, HoldFor;
  }

  lemma NothingAnswered(c: Config, start: nat, u: UserId, told: bool)
    ensures Answered(Init(start), u, told)
  {
  }

  lemma AnsweredStep(c: Config, s: State, a: Action, u: UserId, told: bool)
    requires AtWork(s) && Answered(s, u, told) && (told && a.Call? ==> !a.fault.LostReply?)
    ensures Answered(Apply(c, s, a), u, told)
  {
    hide ApplyCall, CreatedAnswers, SettledAnswers, PurchasesAnswered, AtWork;
    if a.Call? {
      if Running(s, a.id) {
        CreatedCall(c, s, a.id, a.fault, told);
        SettledCall(c, s, a.id, a.fault, told);
        PurchasedCall(c, s, a.id, a.fault, u, told);
      }
    } else {
      QuietCreated(c, s, a, told);
      QuietSettled(c, s, a, told);
      QuietPurchases(c, s, a, u, told);
    }
  }
}

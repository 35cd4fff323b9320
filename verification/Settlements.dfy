/** A reservation is settled at most once, whatever is attempted, in whatever order. */
module Settlements {
  import opened Sums
  import opened Redis
  import opened Protocol

  // ---- the life of a reservation over a run ----

  ghost function HeldAs(r: ResId): Event -> int {
    (e: Event) => if e.Held? && e.res == r then 1 else 0
  }

  ghost function ClosedAs(r: ResId): Event -> int {
    (e: Event) => if e.Closed? && e.st.res == r then 1 else 0
  }

  ghost function LostAs(r: ResId): Event -> int {
    (e: Event) => if e.Expired? && r in e.lost && e.lost[r].status == Reserved then 1 else 0
  }

  ghost function LiveAs(s: Store, r: ResId): int { if Live(s, r) then 1 else 0 }

  /** Placed at most once; and once placed it is live, or settled once, or lost to expiry, never two of these. */
  ghost predicate OneLife(s: State, r: ResId) {
    && Sum(s.history, HeldAs(r)) == LiveAs(s.store, r) + Sum(s.history, ClosedAs(r)) + Sum(s.history, LostAs(r))
    && Sum(s.history, HeldAs(r)) <= 1
    && Sum(s.history, ClosedAs(r)) >= 0 && Sum(s.history, LostAs(r)) >= 0
    && (r in s.store.holds ==> Sum(s.history, HeldAs(r)) == 1)
    && (Sum(s.history, HeldAs(r)) > 0 ==>
          r in s.used && forall i | i in s.tasks && Unheld(s.tasks[i]) :: s.tasks[i].ticket.req.res != r)
  }

  lemma ExecLife(c: Config, now: nat, s: Store, op: Op, r: ResId)
    requires op.PlaceHold? ==> op.res !in s.holds
    ensures var s' := Exec(c, now, s, op).0; var es := EventsOf(c, s, now, op);
            && Sum(es, HeldAs(r))
               == (if op.PlaceHold? && op.res == r && Affordable(s, op.holder, op.credits) then 1 else 0)
            && Sum(es, HeldAs(r)) + LiveAs(s, r) == LiveAs(s', r) + Sum(es, ClosedAs(r))
            && Sum(es, ClosedAs(r)) >= 0 && Sum(es, LostAs(r)) == 0
            && (r in s'.holds <==> r in s.holds || Sum(es, HeldAs(r)) == 1)
  {
    hide Total, Sum;
    var es := EventsOf(c, s, now, op);
    SumShort(es, HeldAs(r));
    SumShort(es, ClosedAs(r));
    SumShort(es, LostAs(r));
  }

  lemma LifeCall(c: Config, s: State, id: nat, f: Fault, r: ResId)
    requires Sane(s) && Running(s, id) && OneLife(s, r)
    ensures OneLife(ApplyCall(c, s, id, f), r)
  {
    hide Total, Sum;
    var t := s.tasks[id];
    CallHistory(c, s, id, f, HeldAs(r));
    CallHistory(c, s, id, f, ClosedAs(r));
    CallHistory(c, s, id, f, LostAs(r));
    SuccessorKeepsTicket(c, s, t, f);
    ExecLife(c, s.now, s.store, OpOf(t), r);
  }

  lemma LifeTick(c: Config, s: State, dt: nat, r: ResId)
    requires OneLife(s, r)
    ensures OneLife(Apply(c, s, Tick(dt)), r)
  {
    hide Total, Sum;
    var e := Expirations(s.store, s.now + dt);
    SumAppend(s.history, [e], HeldAs(r));
    SumAppend(s.history, [e], ClosedAs(r));
    SumAppend(s.history, [e], LostAs(r));
    SumShort([e], HeldAs(r));
    SumShort([e], ClosedAs(r));
    SumShort([e], LostAs(r));
  }

  lemma LifeStep(c: Config, s: State, a: Action, r: ResId)
    requires Sane(s) && OneLife(s, r)
    ensures OneLife(Apply(c, s, a), r)
  {
    hide Total, Sum;
    match a
    case Call(id, f) => if Running(s, id) { LifeCall(c, s, id, f, r); }
    case Tick(dt) => LifeTick(c, s, dt, r);
    case _ =>
      NewEventsSum(c, s, a, HeldAs(r));
      NewEventsSum(c, s, a, ClosedAs(r));
      NewEventsSum(c, s, a, LostAs(r));
      SumZero(NewEvents(c, s, a), HeldAs(r));
      SumZero(NewEvents(c, s, a), ClosedAs(r));
      SumZero(NewEvents(c, s, a), LostAs(r));
  }

  /** In every run: any number of commit and release handlers on one reservation, with any amounts,
      faults and interleaving, settle it at most once, and never after it was lost. */
  lemma {:induction false} SettledAtMostOnce(c: Config, start: nat, acts: seq<Action>, r: ResId)
    ensures OneLife(Run(c, start, acts), r)
    decreases |acts|
  {
    if acts != [] {
      SettledAtMostOnce(c, start, acts[..|acts| - 1], r);
      SaneRun(c, start, acts[..|acts| - 1]);
      LifeStep(c, Run(c, start, acts[..|acts| - 1]), acts[|acts| - 1], r);
    }
  }

  /** A date the handler read from a reservation is the one its script finds, as long as the hash exists:
      a day mismatch is only ever answered to a handler that read before the reservation existed. */
  ghost predicate StampsAgree(s: State) {
    && (forall r | r in s.store.holds :: s.store.holds[r].stamp.On?)
    && (forall i | i in s.tasks && s.tasks[i].Settling? && s.tasks[i].stamp.On? && s.tasks[i].st.res in s.store.holds ::
          s.store.holds[s.tasks[i].st.res].stamp == s.tasks[i].stamp)
    && (forall i | i in s.tasks && s.tasks[i].Settling? && s.tasks[i].stamp.On? :: s.tasks[i].st.res in s.used)
    && (forall i, j |
          i in s.tasks && s.tasks[i].Settling? && s.tasks[i].stamp.On? && j in s.tasks && Unheld(s.tasks[j]) ::
          s.tasks[j].ticket.req.res != s.tasks[i].st.res)
  }

  lemma ExecStamps(c: Config, now: nat, s: Store, op: Op)
    ensures var s' := Exec(c, now, s, op).0;
            && (forall r | r in s.holds && !(op.PlaceHold? && op.res == r) ::
                  r in s'.holds && s'.holds[r].stamp == s.holds[r].stamp)
            && (forall r | r in s'.holds && r !in s.holds :: op.PlaceHold? && op.res == r && s'.holds[r].stamp.On?)
  {
  }

  lemma SuccessorStamp(c: Config, s: State, t: Task, f: Fault)
    requires !t.Finished?
    ensures var t' := Successor(c, s, t, f);
            t'.Settling? ==> t.Looking? && t' == Settling(t.st, StampOf(s.store, t.st.res))
  {
  }

  lemma StampsCall(c: Config, s: State, id: nat, f: Fault)
    requires Sane(s) && Running(s, id) && StampsAgree(s)
    ensures StampsAgree(ApplyCall(c, s, id, f))
  {
    hide Exec, OpOf, Successor, EventsOf, LeakOf, Leak;
    var t := s.tasks[id];
    PlacesUnheld(t);
    ExecStamps(c, s.now, s.store, OpOf(t));
    SuccessorKeepsTicket(c, s, t, f);
    SuccessorStamp(c, s, t, f);
  }

  lemma StampsStep(c: Config, s: State, a: Action)
    requires Sane(s) && StampsAgree(s)
    ensures StampsAgree(Apply(c, s, a))
  {
    hide ApplyCall, Purge, StampsAgree, Sane, Leak, PendingAmount;
    match a
    case Begin(id, job) => StampsBegin(c, s, id, job);
    case Call(id, f) => if Running(s, id) { StampsCall(c, s, id, f); }
    case Tick(dt) => StampsTick(c, s, dt);
    case Die(id) => StampsDie(c, s, id);
  }

  lemma StampsBegin(c: Config, s: State, id: nat, job: Job)
    requires Sane(s) && StampsAgree(s)
    ensures StampsAgree(Apply(c, s, Begin(id, job)))
  {
  }

  lemma StampsTick(c: Config, s: State, dt: nat)
    requires StampsAgree(s)
    ensures StampsAgree(Apply(c, s, Tick(dt)))
  {
  }

  lemma StampsDie(c: Config, s: State, id: nat)
    requires StampsAgree(s)
    ensures StampsAgree(Apply(c, s, Die(id)))
  {
    hide Leak, PendingAmount;
  }

  lemma {:induction false} StampsRun(c: Config, start: nat, acts: seq<Action>)
    ensures StampsAgree(Run(c, start, acts))
    decreases |acts|
  {
    if acts != [] {
      var s, a := Run(c, start, acts[..|acts| - 1]), acts[|acts| - 1];
      StampsRun(c, start, acts[..|acts| - 1]);
      SaneRun(c, start, acts[..|acts| - 1]);
      StampsStep(c, s, a);
    }
  }

  /** The settling call of a handler that read a date either finds the reservation gone, or already
      settled, or settles it on the very day it was charged to. */
  lemma ReadDateIsChargedDate(c: Config, start: nat, acts: seq<Action>, id: nat)
    requires Running(Run(c, start, acts), id)
    requires Run(c, start, acts).tasks[id].Settling? && Run(c, start, acts).tasks[id].stamp.On?
    ensures var s := Run(c, start, acts); var t := s.tasks[id];
            && Judge(s.store, t.st, t.stamp) != DayMismatch
            && (Judge(s.store, t.st, t.stamp) == Effective <==> Live(s.store, t.st.res))
  {
    hide Total, Sum;
    StampsRun(c, start, acts);
  }

  // ---- a settlement that is repeated ----

  /** What is left of a reservation that was settled at this moment: for 24 hours its hash, and then nothing. */
  ghost predicate Remembered(s: State, r: ResId, settled: Status, since: nat) {
    && r in s.used && (forall i | i in s.tasks && Unheld(s.tasks[i]) :: s.tasks[i].ticket.req.res != r)
    && (r in s.store.holds <==> s.now < since + 24 * 3600 * 1000)
    && (r in s.store.holds ==>
          s.store.holds[r].status == settled && s.store.holds[r].deadline == At(since + 24 * 3600 * 1000))
  }

  lemma RememberedCall(c: Config, s: State, id: nat, f: Fault, r: ResId, settled: Status, since: nat)
    requires Sane(s) && Running(s, id) && Remembered(s, r, settled, since) && !settled.Reserved?
    ensures Remembered(ApplyCall(c, s, id, f), r, settled, since)
  {
    hide EventsOf, LeakOf, Leak, Successor, Sane;
    var t := s.tasks[id];
    PlacesUnheld(t);
    SuccessorKeepsTicket(c, s, t, f);
    ExecRemembers(c, s.now, s.store, OpOf(t), r);
  }

  lemma ExecRemembers(c: Config, now: nat, s: Store, op: Op, r: ResId)
    requires !(op.PlaceHold? && op.res == r) && !Live(s, r)
    ensures var s' := Exec(c, now, s, op).0;
            (r in s'.holds <==> r in s.holds) && (r in s.holds ==> s'.holds[r] == s.holds[r])
  {
  }

  lemma RememberedStep(c: Config, s: State, a: Action, r: ResId, settled: Status, since: nat)
    requires Sane(s) && Remembered(s, r, settled, since) && !settled.Reserved?
    ensures Remembered(Apply(c, s, a), r, settled, since)
  {
    hide ApplyCall, Sane, Leak, PendingAmount;
    match a
    case Call(id, f) => if Running(s, id) { RememberedCall(c, s, id, f, r, settled, since); }
    case _ =>
  }

  /** The moment at which an effective settlement is run. */
  ghost predicate SettlesAt(c: Config, start: nat, acts: seq<Action>, k: nat, st: Settlement) {
    && k < |acts| && acts[k].Call? && !acts[k].fault.NoEffect?
    && var s := Run(c, start, acts[..k]); var id := acts[k].id;
       && Running(s, id) && s.tasks[id].Settling? && s.tasks[id].st == st
       && Judge(s.store, st, s.tasks[id].stamp) == Effective
  }

  lemma {:induction false} RememberedRun(c: Config, start: nat, acts: seq<Action>, k: nat, st: Settlement)
    requires SettlesAt(c, start, acts, k, st)
    ensures Remembered(Run(c, start, acts), st.res, if st.Commit? then Committed else Released,
                       Run(c, start, acts[..k]).now)
    decreases |acts|
  {
    var front := acts[..|acts| - 1];
    SaneRun(c, start, front);
    if k == |acts| - 1 {
      SettledAtMostOnce(c, start, front, st.res);
      JustSettled(c, Run(c, start, front), acts[k].id, acts[k].fault);
    } else {
      assert front[..k] == acts[..k];
      RememberedRun(c, start, front, k, st);
      RememberedStep(c, Run(c, start, front), acts[|acts| - 1], st.res, if st.Commit? then Committed else Released,
                     Run(c, start, acts[..k]).now);
    }
  }

  lemma JustSettled(c: Config, s: State, id: nat, f: Fault)
    requires Sane(s) && Running(s, id) && s.tasks[id].Settling? && !f.NoEffect?
    requires var t := s.tasks[id]; Judge(s.store, t.st, t.stamp) == Effective && OneLife(s, t.st.res)
    ensures var st := s.tasks[id].st;
            Remembered(ApplyCall(c, s, id, f), st.res, if st.Commit? then Committed else Released, s.now)
  {
    hide Total, Sum, EventsOf, LeakOf, Leak;
  }

  /** For 24 hours, and no longer, a settlement that is repeated is answered with success, by whomever it is repeated
      and whatever happens in between, and the other one is refused; afterwards both are. */
  lemma RepeatIsAnswered(c: Config, start: nat, acts: seq<Action>, k: nat, st: Settlement, again: Settlement,
      stamp: Stamp)
    requires SettlesAt(c, start, acts, k, st) && again.res == st.res
    ensures var s := Run(c, start, acts); var (store, reply) := Exec(c, s.now, s.store, SettleHold(again, stamp));
            && store == s.store
            && Resume(Settling(again, stamp), reply)
               == Finished(if s.now < Run(c, start, acts[..k]).now + 24 * 3600 * 1000 && (again.Commit? <==> st.Commit?)
                           then Settled else NotValid)
  {
    hide SettlesAt, Run;
    RememberedRun(c, start, acts, k, st);
  }
}

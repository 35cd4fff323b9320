/** The usage service's code as it runs: scripts that update Redis keys in place, and handlers that
    run them in sequence. Each is proved equal to the transition system's view of it. */
module UsageServer {
  import opened Redis
  import opened Protocol

  /** A family of integer keys with deadlines. */
  class Counters<K(==)> {
    var keys: map<K, Counter>

    constructor ()
      ensures keys == map[]
    {
      keys := map[];
    }

    method Get(k: K) returns (n: int)
      ensures n == Read(keys, k)
    {
      n := if k in keys then keys[k].value else 0;
    }

    method IncrBy(k: K, delta: int) returns (n: int)
      modifies this
      ensures keys == Bump(old(keys), k, delta) && n == Read(keys, k)
    {
      if k !in keys {
        keys := keys[k := Counter(0, Never)];
      }
      keys := keys[k := keys[k].(value := keys[k].value + delta)];
      n := keys[k].value;
    }

    method SetExpire(k: K, deadline: nat)
      requires k in keys
      modifies this
      ensures keys == Expire(old(keys), k, deadline)
    {
      keys := keys[k := keys[k].(deadline := At(deadline))];
    }

    /** platformDailyScript */
    method CountScript(k: K, limit: int, now: nat) returns (reply: int)
      modifies this
      ensures (keys, reply) == CountUnder(old(keys), k, limit, now)
    {
      var current := Get(k);
      if current >= limit {
        return 0;
      }
      reply := IncrBy(k, 1);
      if reply == 1 {
        SetExpire(k, now + COUNTER_TTL);
      }
    }
  }

  class Server {
    const c: Config
    var balances: map<UserId, int>
    var holds: map<ResId, Hold>
    const budget: Counters<Day>
    const requests: Counters<Day>
    const purchases: Counters<(UserId, Day)>

    ghost predicate Valid() { budget != requests }

    ghost function Contents(): Store
      reads this, budget, requests, purchases
    {
      Store(balances, holds, budget.keys, requests.keys, purchases.keys)
    }

    constructor (c: Config)
      ensures Valid() && fresh(budget) && fresh(requests) && fresh(purchases)
      ensures this.c == c && Contents() == EMPTY_STORE
    {
      this.c := c;
      balances, holds := map[], map[];
      budget := new Counters();
      requests := new Counters();
      purchases := new Counters();
    }

    /** platformCreditsScript */
    method BudgetScript(d: Day, amount: int, now: nat) returns (reply: int)
      requires Valid()
      modifies budget
      ensures Contents() == Exec(c, now, old(Contents()), ChargeBudget(d, amount)).0
      ensures Number(reply) == Exec(c, now, old(Contents()), ChargeBudget(d, amount)).1
    {
      var current := budget.Get(d);
      if current + amount > c.creditLimit {
        return -1;
      }
      reply := budget.IncrBy(d, amount);
      if reply == amount {
        budget.SetExpire(d, now + COUNTER_TTL);
      }
    }

    /** SETNX of the free grant */
    method EnsureInitialCredits(u: UserId)
      modifies this
      ensures Contents() == old(Contents()).(balances := SetIfAbsent(old(balances), u, c.initialCredits))
    {
      if u !in balances {
        balances := balances[u := c.initialCredits];
      }
    }

    method IncrBalance(u: UserId, n: int)
      modifies this
      ensures Contents() == old(Contents()).(balances := Credit(old(balances), u, n))
    {
      if u !in balances {
        balances := balances[u := 0];
      }
      balances := balances[u := balances[u] + n];
    }

    /** reserveScript */
    method ReserveScript(r: ResId, u: UserId, amount: int, ttl: nat, d: Day, now: nat) returns (ok: bool)
      modifies this
      ensures Contents() == Place(old(Contents()), r, u, amount, ttl, On(d), now)
      ensures ok == Affordable(old(Contents()), u, amount)
    {
      var bal := if u in balances then balances[u] else 0;
      if bal < amount {
        return false;
      }
      IncrBalance(u, -amount);
      holds := holds[r := Hold(u, amount, Reserved, On(d), At(now + ttl))];
      ok := true;
    }

    /** HGET of platform_day */
    method ReservationDay(r: ResId) returns (stamp: Stamp)
      ensures stamp == StampOf(Contents(), r)
    {
      if r !in holds {
        return NoDay;
      }
      stamp := holds[r].stamp;
    }

    /** Of commitScript: an overage is taken from the balance, what is left of the hold goes back to it. */
    method PayDifference(u: UserId, reserved: int, actual: int)
      modifies this
      ensures Contents() == old(Contents()).(
                              balances := if reserved == actual then old(balances)
                                  else Credit(old(balances), u, reserved - actual))
    {
      hide Credit;
      if actual > reserved {
        IncrBalance(u, -(actual - reserved));
      } else if reserved > actual {
        IncrBalance(u, reserved - actual);
      }
    }

    /** Of commitScript and releaseScript: the charged day's counter follows. */
    method ReconcileDay(stamp: Stamp, delta: int)
      requires Valid()
      modifies budget
      ensures budget.keys == if stamp.NoDay? || delta == 0 then old(budget.keys)
              else Bump(old(budget.keys), stamp.day, delta)
    {
      hide Bump;
      if stamp.On? && delta != 0 {
        var _ := budget.IncrBy(stamp.day, delta);
      }
    }

    /** commitScript */
    method CommitScript(r: ResId, u: UserId, actual: nat, stamp: Stamp, now: nat) returns (v: Verdict)
      requires Valid()
      modifies this, budget
      ensures v == Judge(old(Contents()), Commit(r, u, actual), stamp)
      ensures Contents() == Settle(old(Contents()), Commit(r, u, actual), stamp, now)
    {
      hide Judge, Settle, PayBack, ReconcileBudget, Close;
      ghost var s, st := Contents(), Commit(r, u, actual);
      JudgeSays(s, st, stamp);
      if r !in holds { return Missing; }
      if holds[r].status == Committed { return AlreadyCommitted; }
      if holds[r].status == Released { return AlreadyReleased; }
      if holds[r].stamp != stamp { return DayMismatch; }
      SettleSays(s, st, stamp, now);
      hide Credit, Bump;
      var reserved := holds[r].amount;
      PayDifference(u, reserved, actual);
      ReconcileDay(stamp, actual - reserved);
      holds := holds[r := holds[r].(status := Committed, amount := actual)];
      holds := holds[r := holds[r].(deadline := At(now + SETTLED_TTL))];
      v := Effective;
    }

    /** releaseScript */
    method ReleaseScript(r: ResId, u: UserId, stamp: Stamp, now: nat) returns (v: Verdict)
      requires Valid()
      modifies this, budget
      ensures v == Judge(old(Contents()), Release(r, u), stamp)
      ensures Contents() == Settle(old(Contents()), Release(r, u), stamp, now)
    {
      hide Judge, Settle, PayBack, ReconcileBudget, Close;
      ghost var s, st := Contents(), Release(r, u);
      JudgeSays(s, st, stamp);
      if r !in holds { return Missing; }
      if holds[r].status == Released { return AlreadyReleased; }
      if holds[r].status == Committed { return AlreadyCommitted; }
      if holds[r].stamp != stamp { return DayMismatch; }
      SettleSays(s, st, stamp, now);
      var reserved := holds[r].amount;
      IncrBalance(u, reserved);
      if stamp.On? {
        var _ := budget.IncrBy(stamp.day, -reserved);
      }
      holds := holds[r := holds[r].(status := Released)];
      holds := holds[r := holds[r].(deadline := At(now + SETTLED_TTL))];
      v := Effective;
    }

    /** handleCreateReservation; minted is the id it makes for a request without one, faults what befalls its calls. */
    method HandleCreateReservation(req: Request, minted: ResId, now: nat, faults: Faults) returns (answer: Answer)
      requires Valid()
      modifies this, budget, requests
      ensures var q := if req.res == "" then req.(res := minted) else req;
              if q.user == "" || q.credits <= 0 then Contents() == old(Contents()) && answer == BadRequest
              else (Contents(), answer) == AloneWith(c, now, old(Contents()), FirstTask(Reserve(q), now), faults)
    {
      hide AloneWith;
      if req.user == "" || req.credits <= 0 {
        return BadRequest;
      }
      answer := CreateReservation(if req.res == "" then req.(res := minted) else req, now, faults);
    }

    /** The calls of handleCreateReservation for a request that was accepted, with its error returns. */
    method CreateReservation(q: Request, now: nat, faults: Faults) returns (answer: Answer)
      requires Valid() && q.user != "" && q.credits > 0
      modifies this, budget, requests
      ensures (Contents(), answer) == AloneWith(c, now, old(Contents()), FirstTask(Reserve(q), now), faults)
    {
      hide AloneWith, CountUnder, Request.Ttl;
      var today := DayOf(now);
      ghost var k := Ticket(q, today, now);
      OneCallAlone(c, now, Contents(), Creating(Counting, k), faults);
      var count := 0;
      if !faults.counting.NoEffect? {
        count := requests.CountScript(today, c.requestLimit, now);
      }
      if !faults.counting.Ok? {
        return ServerError;
      }
      if count == 0 {
        return RequestCapReached;
      }
      answer := Charge(q, today, now, faults);
    }

    /** The rest of handleCreateReservation, once the request is counted. */
    method Charge(q: Request, today: Day, now: nat, faults: Faults) returns (answer: Answer)
      requires Valid()
      modifies this, budget
      ensures (Contents(), answer)
              == AloneWith(c, now, old(Contents()), Creating(Charging, Ticket(q, today, now)), faults)
      ensures requests.keys == old(requests.keys)
    {
      hide AloneWith, Place, Settle, Affordable, ChargeUnder, Bump, SetIfAbsent, Request.Ttl;
      ghost var k := Ticket(q, today, now);
      OneCallAlone(c, now, Contents(), Creating(Charging, k), faults);
      var total := 0;
      if !faults.charging.NoEffect? {
        total := BudgetScript(today, q.credits, now);
      }
      if !faults.charging.Ok? {
        return ServerError;
      }
      if total < 0 {
        return BudgetExhausted;
      }
      answer := GrantAndPlace(q, today, now, faults);
    }

    /** The rest of handleCreateReservation, once the day is charged. */
    method GrantAndPlace(q: Request, today: Day, now: nat, faults: Faults) returns (answer: Answer)
      requires Valid()
      modifies this, budget
      ensures (Contents(), answer) == AloneWith(c, now, old(Contents()), Creating(Granting, Ticket(q, today, now)),
              faults)
      ensures requests.keys == old(requests.keys)
    {
      ghost var k := Ticket(q, today, now);
      hide AloneWith, SetIfAbsent;
      OneCallAlone(c, now, Contents(), Creating(Granting, k), faults);
      if !faults.granting.NoEffect? {
        EnsureInitialCredits(q.user);
      }
      if !faults.granting.Ok? {
        return ServerError;
      }
      answer := PlaceOrRefund(q, today, now, faults);
    }

    /** The last part of handleCreateReservation: the hold, or the charge given back. */
    method PlaceOrRefund(q: Request, today: Day, now: nat, faults: Faults) returns (answer: Answer)
      requires Valid()
      modifies this, budget
      ensures (Contents(), answer) == AloneWith(c, now, old(Contents()), Creating(Placing, Ticket(q, today, now)),
              faults)
      ensures requests.keys == old(requests.keys)
    {
      ghost var k := Ticket(q, today, now);
      hide AloneWith, Place, Affordable, Request.Ttl;
      OneCallAlone(c, now, Contents(), Creating(Placing, k), faults);
      var ok := false;
      if !faults.placing.NoEffect? {
        ok := ReserveScript(q.res, q.user, q.credits, q.Ttl(), today, now);
      }
      if faults.placing.Ok? && ok {
        return Created;
      }
      answer := if faults.placing.Ok? then InsufficientCredits else ServerError;
      Refund(answer, q, today, now, faults);
    }

    /** The charge is given back, if that call takes effect; the answer stays. */
    method Refund(answer: Answer, q: Request, today: Day, now: nat, faults: Faults)
      requires Valid()
      modifies budget
      ensures (Contents(), answer) == AloneWith(c, now, old(Contents()),
              Creating(Refunding(answer), Ticket(q, today, now)), faults)
      ensures requests.keys == old(requests.keys)
    {
      hide AloneWith, Bump;
      OneCallAlone(c, now, Contents(), Creating(Refunding(answer), Ticket(q, today, now)), faults);
      if !faults.refunding.NoEffect? {
        var _ := budget.IncrBy(today, -q.credits);
      }
    }

    /** handleCommit: read the day, run the script, classify its code */
    method HandleCommit(r: ResId, u: UserId, actual: int, now: nat, faults: Faults) returns (answer: Answer)
      requires Valid()
      modifies this, budget
      ensures if u == "" || actual < 0 then Contents() == old(Contents()) && answer == BadRequest
              else (Contents(), answer) == AloneWith(c, now, old(Contents()), Looking(Commit(r, u, actual)), faults)
    {
      if u == "" || actual < 0 {
        return BadRequest;
      }
      hide AloneWith, Judge, Settle, StampOf;
      ghost var st := Commit(r, u, actual);
      OneCallAlone(c, now, Contents(), Looking(st), faults);
      var stamp := ReservationDay(r);
      if !faults.looking.Ok? {
        return ServerError;
      }
      OneCallAlone(c, now, Contents(), Settling(st, stamp), faults);
      var v := Missing;
      if !faults.settling.NoEffect? {
        v := CommitScript(r, u, actual, stamp, now);
      }
      if !faults.settling.Ok? {
        return ServerError;
      }
      answer := if v.Effective? || v.AlreadyCommitted? then Settled else NotValid;
    }

    /** handleRelease */
    method HandleRelease(r: ResId, u: UserId, now: nat, faults: Faults) returns (answer: Answer)
      requires Valid()
      modifies this, budget
      ensures if u == "" then Contents() == old(Contents()) && answer == BadRequest
              else (Contents(), answer) == AloneWith(c, now, old(Contents()), Looking(Release(r, u)), faults)
    {
      if u == "" {
        return BadRequest;
      }
      hide AloneWith, Judge, Settle, StampOf;
      ghost var st := Release(r, u);
      OneCallAlone(c, now, Contents(), Looking(st), faults);
      var stamp := ReservationDay(r);
      if !faults.looking.Ok? {
        return ServerError;
      }
      OneCallAlone(c, now, Contents(), Settling(st, stamp), faults);
      var v := Missing;
      if !faults.settling.NoEffect? {
        v := ReleaseScript(r, u, stamp, now);
      }
      if !faults.settling.Ok? {
        return ServerError;
      }
      answer := if v.Effective? || v.AlreadyReleased? then Settled else NotValid;
    }

    /** handlePurchase */
    method HandlePurchase(enabled: bool, u: UserId, credits: int, now: nat, faults: Faults) returns (answer: Answer)
      modifies this, purchases
      ensures if !enabled then Contents() == old(Contents()) && answer == NotFound
              else if u == "" || credits <= 0 then Contents() == old(Contents()) && answer == BadRequest
              else (Contents(), answer) == AloneWith(c, now, old(Contents()), FirstTask(TopUp(u, credits), now), faults)
    {
      if !enabled {
        return NotFound;
      }
      if u == "" || credits <= 0 {
        return BadRequest;
      }
      hide AloneWith, CountUnder, SetIfAbsent;
      var today := DayOf(now);
      OneCallAlone(c, now, Contents(), TopUpCounting(u, credits, today), faults);
      var count := 0;
      if !faults.counting.NoEffect? {
        count := purchases.CountScript((u, today), c.purchaseLimit, now);
      }
      if !faults.counting.Ok? {
        return ServerError;
      }
      if count == 0 {
        return PurchaseCapReached;
      }
      answer := GrantAndMint(u, credits, today, now, faults);
    }

    /** The rest of handlePurchase, once the purchase is counted. */
    method GrantAndMint(u: UserId, credits: int, today: Day, now: nat, faults: Faults) returns (answer: Answer)
      modifies this
      ensures (Contents(), answer) == AloneWith(c, now, old(Contents()), TopUpGranting(u, credits, today), faults)
    {
      hide AloneWith, SetIfAbsent;
      OneCallAlone(c, now, Contents(), TopUpGranting(u, credits, today), faults);
      if !faults.granting.NoEffect? {
        EnsureInitialCredits(u);
      }
      if !faults.granting.Ok? {
        return ServerError;
      }
      OneCallAlone(c, now, Contents(), TopUpMinting(u, credits, today), faults);
      if !faults.minting.NoEffect? {
        IncrBalance(u, credits);
      }
      answer := if faults.minting.Ok? then Purchased else ServerError;
    }
  }

  lemma JudgeSays(s: Store, st: Settlement, stamp: Stamp)
    ensures Judge(s, st, stamp) ==
            if st.res !in s.holds then Missing
            else if s.holds[st.res].status == Committed then AlreadyCommitted
            else if s.holds[st.res].status == Released then AlreadyReleased
            else if s.holds[st.res].stamp != stamp then DayMismatch
            else Effective
    ensures Judge(s, st, stamp) != Effective ==> forall now :: Settle(s, st, stamp, now) == s
  {
  }

  /** An effective settlement, spelled out. */
  lemma SettleSays(s: Store, st: Settlement, stamp: Stamp, now: nat)
    requires Judge(s, st, stamp) == Effective
    ensures var h := s.holds[st.res]; var s' := Settle(s, st, stamp, now); var change := h.amount - Kept(st);
            && s' == s.(balances := s'.balances, budget := s'.budget, holds := s'.holds)
            && s'.balances == (if st.Commit? && change == 0 then s.balances else Credit(s.balances, st.user, change))
            && s'.budget == (if stamp.NoDay? || (st.Commit? && change == 0) then s.budget
               else Bump(s.budget, stamp.day, -change))
            && s'.holds == s.holds[st.res := Hold(h.user, if st.Commit? then st.actual else h.amount,
                                                  if st.Commit? then Committed else Released,
                                                  h.stamp, At(now + SETTLED_TTL))]
  {
  }

  /** Calls a handler still has to make at most. */
  function Left(t: Task): nat {
    match t
    case Creating(Counting, _) => 5
    case Creating(Charging, _) => 4
    case Creating(Granting, _) => 3
    case Creating(Placing, _) => 2
    case Creating(Refunding(_), _) => 1
    case Looking(_) => 2
    case Settling(_, _) => 1
    case TopUpCounting(_, _, _) => 3
    case TopUpGranting(_, _, _) => 2
    case TopUpMinting(_, _, _) => 1
    case Viewing(_) => 1
    case Finished(_) => 0
  }

  /** What befalls each call of a handler. */
  datatype Faults = Faults(counting: Fault, charging: Fault, granting: Fault, placing: Fault, refunding: Fault,
                           looking: Fault, settling: Fault, minting: Fault)
  {
    function For(t: Task): Fault {
      match t
      case Creating(Counting, _) => counting
      case Creating(Charging, _) => charging
      case Creating(Granting, _) => granting
      case Creating(Placing, _) => placing
      case Creating(Refunding(_), _) => refunding
      case Looking(_) => looking
      case Settling(_, _) => settling
      case TopUpCounting(_, _, _) => counting
      case TopUpGranting(_, _, _) => granting
      case TopUpMinting(_, _, _) => minting
      case _ => Ok
    }
  }

  const NO_FAULTS := Faults(Ok, Ok, Ok, Ok, Ok, Ok, Ok, Ok)

  /** The transition system's handler, run to its end with nothing in between. */
  function AloneWith(c: Config, now: nat, s: Store, t: Task, faults: Faults): (Store, Answer)
    decreases Left(t)
  {
    if t.Finished? then (s, t.answer) else
    var (s', reply) := Exec(c, now, s, OpOf(t));
    AloneWith(c, now, if faults.For(t).NoEffect? then s else s',
              if faults.For(t).Ok? then Resume(t, reply) else Abort(t), faults)
  }

  /** And with no fault. */
  function Alone(c: Config, now: nat, s: Store, t: Task): (Store, Answer) { AloneWith(c, now, s, t, NO_FAULTS) }

  /** One call of a handler, and what is left of it, which may be nothing. */
  lemma OneCallAlone(c: Config, now: nat, s: Store, t: Task, faults: Faults)
    requires !t.Finished?
    ensures var (s', reply) := Exec(c, now, s, OpOf(t));
            var next := if faults.For(t).Ok? then Resume(t, reply) else Abort(t);
            var s'' := if faults.For(t).NoEffect? then s else s';
            && AloneWith(c, now, s, t, faults) == AloneWith(c, now, s'', next, faults)
            && (next.Finished? ==> AloneWith(c, now, s, t, faults) == (s'', next.answer))
  {
  }

  /** A call after which the handler is finished. */
  lemma AloneEnds(c: Config, now: nat, s: Store, t: Task)
    requires !t.Finished?
    ensures var (s', reply) := Exec(c, now, s, OpOf(t));
            Resume(t, reply).Finished? ==> Alone(c, now, s, t) == (s', Resume(t, reply).answer)
  {
    hide AloneWith;
    OneCallAlone(c, now, s, t, NO_FAULTS);
  }

  lemma PlacingWith(c: Config, now: nat, s: Store, k: Ticket, faults: Faults)
    ensures var placed := if faults.placing.NoEffect? then s
                          else Place(s, k.req.res, k.req.user, k.req.credits, k.req.Ttl(), On(k.day), now);
            AloneWith(c, now, s, Creating(Placing, k), faults) ==
            if faults.placing.Ok? && Affordable(s, k.req.user, k.req.credits) then (placed, Created)
            else (if faults.refunding.NoEffect? then placed
                else placed.(budget := Bump(placed.budget, k.day, -k.req.credits)),
                  if faults.placing.Ok? then InsufficientCredits else ServerError)
  {
    hide AloneWith, Place;
    var answer := if faults.placing.Ok? then InsufficientCredits else ServerError;
    var placed := if faults.placing.NoEffect? then s
                  else Place(s, k.req.res, k.req.user, k.req.credits, k.req.Ttl(), On(k.day), now);
    OneCallAlone(c, now, s, Creating(Placing, k), faults);
    OneCallAlone(c, now, placed, Creating(Refunding(answer), k), faults);
  }

  lemma GrantingWith(c: Config, now: nat, s: Store, k: Ticket, faults: Faults)
    ensures var granted := if faults.granting.NoEffect? then s
                           else s.(balances := SetIfAbsent(s.balances, k.req.user, c.initialCredits));
            AloneWith(c, now, s, Creating(Granting, k), faults) ==
            if faults.granting.Ok? then AloneWith(c, now, granted, Creating(Placing, k), faults)
                else (granted, ServerError)
  {
    hide AloneWith;
    OneCallAlone(c, now, s, Creating(Granting, k), faults);
  }

  lemma ChargingWith(c: Config, now: nat, s: Store, k: Ticket, faults: Faults)
    requires Read(s.budget, k.day) >= 0 && k.req.credits > 0
    ensures var charged := s.(budget := ChargeUnder(s.budget, k.day, k.req.credits, c.creditLimit, now).0);
            AloneWith(c, now, s, Creating(Charging, k), faults) ==
            if !faults.charging.Ok? then (if faults.charging.NoEffect? then s else charged, ServerError)
            else if Read(s.budget, k.day) + k.req.credits > c.creditLimit then (s, BudgetExhausted)
            else AloneWith(c, now, charged, Creating(Granting, k), faults)
  {
    hide AloneWith;
    OneCallAlone(c, now, s, Creating(Charging, k), faults);
  }

  lemma CountingWith(c: Config, now: nat, s: Store, k: Ticket, faults: Faults)
    requires Read(s.requests, k.day) >= 0
    ensures var counted := s.(requests := CountUnder(s.requests, k.day, c.requestLimit, now).0);
            AloneWith(c, now, s, Creating(Counting, k), faults) ==
            if !faults.counting.Ok? then (if faults.counting.NoEffect? then s else counted, ServerError)
            else if Read(s.requests, k.day) >= c.requestLimit then (s, RequestCapReached)
            else AloneWith(c, now, counted, Creating(Charging, k), faults)
  {
    hide AloneWith;
    OneCallAlone(c, now, s, Creating(Counting, k), faults);
  }

  lemma ChargeThenRefund(m: map<Day, Counter>, d: Day, amount: int, limit: int, now: nat)
    requires Read(m, d) + amount <= limit
    ensures var charged := ChargeUnder(m, d, amount, limit, now).0;
            && Read(charged, d) == Read(m, d) + amount
            && Read(Bump(charged, d, -amount), d) == Read(m, d)
            && (forall d' | d' != d ::
                  Read(charged, d') == Read(m, d') && Read(Bump(charged, d, -amount), d') == Read(m, d'))
  {
  }

  lemma GrantThenPlace(c: Config, s: Store, q: Request, d: Day, now: nat)
    requires s.balances.Keys >= {q.user} && q.credits > 0
    ensures var s' := Place(s, q.res, q.user, q.credits, q.Ttl(), On(d), now);
            && (Affordable(s, q.user, q.credits) <==> q.credits <= s.balances[q.user])
            && s'.budget == s.budget && s'.requests == s.requests
            && (q.credits <= s.balances[q.user] ==>
                  && s'.balances == s.balances[q.user := s.balances[q.user] - q.credits]
                  && s'.holds == s.holds[q.res := Hold(q.user, q.credits, Reserved, On(d), At(now + q.Ttl()))])
  {
  }

  /** A hold lasts for the seconds that its request asks for, or two minutes. */
  function Until(now: nat, q: Request): Deadline { At(now + (if q.ttl <= 0 then 2 * 60 else q.ttl) * 1000) }

  lemma UntilIs(now: nat, q: Request)
    ensures Until(now, q) == At(now + q.Ttl()) && DayOf(now) == now / (24 * 3600 * 1000)
  {
  }

  /** A refusal for lack of credits gives the charge back; other refusals never charged. Only success
      takes credits, and it takes them from the user's balance and the day's counter alike. */
  lemma CreateAlone(c: Config, now: nat, s: Store, q: Request)
    requires q.credits > 0 && Read(s.budget, DayOf(now)) >= 0 && Read(s.requests, DayOf(now)) >= 0
    ensures var d := now / (24 * 3600 * 1000); var (s', answer) := Alone(c, now, s, FirstTask(Reserve(q), now));
            var available := if q.user in s.balances then s.balances[q.user] else c.initialCredits;
            && (answer == RequestCapReached <==> Read(s.requests, d) >= c.requestLimit)
            && (answer == BudgetExhausted <==>
               Read(s.requests, d) < c.requestLimit && Read(s.budget, d) + q.credits > c.creditLimit)
            && (answer == Created <==> Read(s.requests, d) < c.requestLimit
                                       && Read(s.budget, d) + q.credits <= c.creditLimit
                                       && q.credits <= available)
            && (answer.RequestCapReached? || answer.BudgetExhausted? || answer.Created? || answer.InsufficientCredits?)
            && Read(s'.budget, d) == Read(s.budget, d) + (if answer == Created then q.credits else 0)
            && (forall d' | d' != d :: Read(s'.budget, d') == Read(s.budget, d'))
            && s'.holds == (if answer == Created
                            then s.holds[q.res := Hold(q.user, q.credits, Reserved, On(d), Until(now, q))] else s.holds)
            && (answer.RequestCapReached? || answer.BudgetExhausted? ==> s'.balances == s.balances)
            && (answer == InsufficientCredits ==> s'.balances == s.balances[q.user := available])
            && (answer == Created ==> s'.balances == s.balances[q.user := available - q.credits])
            && (answer == Created ==>
                  && s'.budget == ChargeUnder(s.budget, DayOf(now), q.credits, c.creditLimit, now).0
                  && s'.requests == CountUnder(s.requests, DayOf(now), c.requestLimit, now).0)
  {
    hide AloneWith, Exec, ChargeUnder, CountUnder, Bump, Place, Affordable, Request.Ttl;
    var d := DayOf(now);
    var k := Ticket(q, d, now);
    UntilIs(now, q);
    CountingWith(c, now, s, k, NO_FAULTS);
    if Read(s.requests, d) < c.requestLimit {
      var s1 := s.(requests := CountUnder(s.requests, d, c.requestLimit, now).0);
      ChargingWith(c, now, s1, k, NO_FAULTS);
      if Read(s.budget, d) + q.credits <= c.creditLimit {
        ChargeThenRefund(s.budget, d, q.credits, c.creditLimit, now);
        var s2 := s1.(budget := ChargeUnder(s.budget, d, q.credits, c.creditLimit, now).0);
        var s3 := s2.(balances := SetIfAbsent(s.balances, q.user, c.initialCredits));
        GrantingWith(c, now, s2, k, NO_FAULTS);
        PlacingWith(c, now, s3, k, NO_FAULTS);
        GrantThenPlace(c, s3, q, d, now);
        UnaffordableStays(s3, q, d, now);
      }
    }
  }

  lemma UnaffordableStays(s: Store, q: Request, d: Day, now: nat)
    ensures !Affordable(s, q.user, q.credits) ==> Place(s, q.res, q.user, q.credits, q.Ttl(), On(d), now) == s
  {
  }

  /** What a create handler does to the day's total and to the holds, whatever befalls its calls: the total ends
      unchanged exactly when nothing was charged or the charge was given back, and the charge is given back only
      by a handler that got past the grant. So a grant that fails after the charge leaves a day charged for nothing,
      and a lost reply on placing a hold not charged for. */
  lemma CreateWithFaults(c: Config, now: nat, s: Store, q: Request, faults: Faults)
    requires q.credits > 0 && Read(s.budget, DayOf(now)) >= 0 && Read(s.requests, DayOf(now)) >= 0
    ensures var d := DayOf(now); var s' := AloneWith(c, now, s, FirstTask(Reserve(q), now), faults).0;
            var payable := q.credits <= if q.user in s.balances then s.balances[q.user] else c.initialCredits;
            var charged := faults.counting.Ok? && Read(s.requests, d) < c.requestLimit
                           && Read(s.budget, d) + q.credits <= c.creditLimit && !faults.charging.NoEffect?;
            var reached := charged && faults.charging.Ok? && faults.granting.Ok?;
            var refunded := reached && !(faults.placing.Ok? && payable) && !faults.refunding.NoEffect?;
            var placed := reached && payable && !faults.placing.NoEffect?;
            && (Read(s'.budget, d) == Read(s.budget, d) <==> !charged || refunded)
            && Read(s'.budget, d) == Read(s.budget, d) + (if charged && !refunded then q.credits else 0)
            && s'.holds == if placed then s.holds[q.res := Hold(q.user, q.credits, Reserved, On(d), Until(now, q))]
                           else s.holds
  {
    hide AloneWith, Exec, ChargeUnder, CountUnder, Bump, Place, Affordable, Request.Ttl;
    var d := DayOf(now);
    var k := Ticket(q, d, now);
    UntilIs(now, q);
    CountingWith(c, now, s, k, faults);
    if faults.counting.Ok? && Read(s.requests, d) < c.requestLimit {
      ChargingReads(c, now, s.(requests := CountUnder(s.requests, d, c.requestLimit, now).0), k, faults);
    }
  }

  lemma ChargingReads(c: Config, now: nat, s: Store, k: Ticket, faults: Faults)
    requires k.req.credits > 0 && Read(s.budget, k.day) >= 0
    ensures var q := k.req; var s' := AloneWith(c, now, s, Creating(Charging, k), faults).0;
            var payable := q.credits <= if q.user in s.balances then s.balances[q.user] else c.initialCredits;
            var charged := Read(s.budget, k.day) + q.credits <= c.creditLimit && !faults.charging.NoEffect?;
            var reached := charged && faults.charging.Ok? && faults.granting.Ok?;
            var refunded := reached && !(faults.placing.Ok? && payable) && !faults.refunding.NoEffect?;
            && Read(s'.budget, k.day) == Read(s.budget, k.day) + (if charged && !refunded then q.credits else 0)
            && s'.holds == if reached && payable && !faults.placing.NoEffect?
                           then s.holds[q.res := Hold(q.user, q.credits, Reserved, On(k.day), At(now + q.Ttl()))]
                               else s.holds
  {
    hide AloneWith, Exec, ChargeUnder, Bump, Place, Affordable, Request.Ttl;
    ChargingWith(c, now, s, k, faults);
    if Read(s.budget, k.day) + k.req.credits <= c.creditLimit {
      ChargeThenRefund(s.budget, k.day, k.req.credits, c.creditLimit, now);
      var charged := s.(budget := ChargeUnder(s.budget, k.day, k.req.credits, c.creditLimit, now).0);
      if faults.charging.Ok? {
        GrantingWith(c, now, charged, k, faults);
        PlacingReads(c, now, charged.(balances := SetIfAbsent(s.balances, k.req.user, c.initialCredits)), k, faults);
      }
    } else {
      RefusedCharge(s.budget, k.day, k.req.credits, c.creditLimit, now);
    }
  }

  lemma RefusedCharge(m: map<Day, Counter>, d: Day, amount: int, limit: int, now: nat)
    requires Read(m, d) + amount > limit
    ensures ChargeUnder(m, d, amount, limit, now).0 == m
  {
  }

  lemma PlacingReads(c: Config, now: nat, s: Store, k: Ticket, faults: Faults)
    requires k.req.user in s.balances && k.req.credits > 0
    ensures var s' := AloneWith(c, now, s, Creating(Placing, k), faults).0;
            var payable := k.req.credits <= s.balances[k.req.user];
            && Read(s'.budget, k.day) == Read(s.budget, k.day)
                 - (if (faults.placing.Ok? && payable) || faults.refunding.NoEffect? then 0 else k.req.credits)
            && s'.holds == if payable && !faults.placing.NoEffect?
                           then s.holds[k.req.res :=
                                  Hold(k.req.user, k.req.credits, Reserved, On(k.day), At(now + k.req.Ttl()))]
                           else s.holds
  {
    hide AloneWith, Request.Ttl;
    PlacingWith(c, now, s, k, faults);
  }

  lemma SettlingAlone(c: Config, now: nat, s: Store, st: Settlement)
    ensures var stamp := StampOf(s, st.res);
            Alone(c, now, s, Looking(st)) == (Settle(s, st, stamp, now), AnswerTo(st, Judge(s, st, stamp)))
  {
    var stamp := StampOf(s, st.res);
    assert Alone(c, now, s, Looking(st)) == Alone(c, now, s, Settling(st, stamp));
    AloneEnds(c, now, s, Settling(st, stamp));
  }

  /** A purchase that runs alone, with its answer: refused exactly if the user has reached the limit for the day,
      and then nothing changes; else the user has what was there, or the initial credits, and the purchase, the day
      counts one purchase more, for 25 hours if it is the first, and nothing else changes. */
  lemma PurchaseAlone(c: Config, now: nat, s: Store, u: UserId, credits: int)
    requires Read(s.purchases, (u, DayOf(now))) >= 0
    ensures var key := (u, DayOf(now)); var used := Read(s.purchases, key);
            var (s', answer) := Alone(c, now, s, FirstTask(TopUp(u, credits), now));
            var available := if u in s.balances then s.balances[u] else c.initialCredits;
            && (used >= c.purchaseLimit ==> answer == PurchaseCapReached && s' == s)
            && (used < c.purchaseLimit ==>
                  && answer == Purchased && s'.balances == s.balances[u := available + credits]
                  && s' == s.(balances := s'.balances, purchases := s'.purchases)
                  && s'.purchases == s.purchases[key := Counter(used + 1, if used == 0 then At(now + 25 * 3600 * 1000)
                                                                          else s.purchases[key].deadline)])
  {
    hide AloneWith, CountUnder, SetIfAbsent;
    var d := DayOf(now);
    CountsPurchase(s.purchases, (u, d), c.purchaseLimit, now);
    OneCallAlone(c, now, s, TopUpCounting(u, credits, d), NO_FAULTS);
    if Read(s.purchases, (u, d)) < c.purchaseLimit {
      GrantAndMintAlone(c, now, s.(purchases := CountUnder(s.purchases, (u, d), c.purchaseLimit, now).0), u, credits,
          d);
    }
  }

  lemma CountsPurchase<K>(m: map<K, Counter>, k: K, limit: nat, now: nat)
    requires Read(m, k) >= 0
    ensures var (m', n) := CountUnder(m, k, limit, now);
            && (Read(m, k) >= limit ==> m' == m && n == 0)
            && (Read(m, k) < limit ==>
                  && n == Read(m, k) + 1
                  && m' == m[k := Counter(n, if n == 1 then At(now + 25 * 3600 * 1000) else m[k].deadline)])
  {
  }

  lemma GrantAndMintAlone(c: Config, now: nat, s: Store, u: UserId, credits: int, d: Day)
    ensures var available := if u in s.balances then s.balances[u] else c.initialCredits;
            Alone(c, now, s, TopUpGranting(u, credits, d))
            == (s.(balances := s.balances[u := available + credits]), Purchased)
  {
    hide AloneWith;
    OneCallAlone(c, now, s, TopUpGranting(u, credits, d), NO_FAULTS);
    var granted := s.(balances := SetIfAbsent(s.balances, u, c.initialCredits));
    OneCallAlone(c, now, granted, TopUpMinting(u, credits, d), NO_FAULTS);
    assert Credit(granted.balances, u, credits)
      == s.balances[u := (if u in s.balances then s.balances[u] else c.initialCredits) + credits];
  }

  /** What a settlement takes of a hold. */
  function Due(st: Settlement): int { match st case Commit(_, _, actual) => actual case Release(_, _) => 0 }

  /** Run alone, a settlement always carries the right day: it is effective exactly on a live reservation. Then the user
      it names is paid back what is not due, the total of the day that was charged falls by as much, and the hold is
      kept for 24 hours with what was done to it; else nothing changes. A repeated settlement is answered like the
      first. */
  lemma SettleAlone(c: Config, now: nat, s: Store, st: Settlement)
    ensures var (s', answer) := Alone(c, now, s, Looking(st));
            var settled := if st.Commit? then Committed else Released;
            && (answer == Settled <==>
                  st.res in s.holds && (s.holds[st.res].status == Reserved || s.holds[st.res].status == settled))
            && (answer != Settled ==> answer == NotValid)
            && (!(st.res in s.holds && s.holds[st.res].status == Reserved) ==> s' == s)
            && (st.res in s.holds && s.holds[st.res].status == Reserved ==>
                  var h := s.holds[st.res]; var left := h.amount - Due(st);
                  && s'.holds == s.holds[st.res := Hold(h.user, if st.Commit? then Due(st) else h.amount, settled,
                                                        h.stamp, At(now + 24 * 3600 * 1000))]
                  && Balance(s', st.user) == Balance(s, st.user) + left
                  && (forall u | u != st.user ::
                        (u in s'.balances <==> u in s.balances) && Balance(s', u) == Balance(s, u))
                  && (forall d :: Read(s'.budget, d) == Read(s.budget, d) - (if h.stamp == On(d) then left else 0))
                  && s' == s.(balances := s'.balances, holds := s'.holds, budget := s'.budget))
  {
    hide AloneWith;
    SettlingAlone(c, now, s, st);
  }

  // ---- handlers and runs ----

  function Calls(id: nat, n: nat): seq<Action> { seq(n, i => Call(id, Ok)) }

  lemma RunOn(c: Config, start: nat, acts: seq<Action>, a: Action)
    ensures Run(c, start, acts + [a]) == Apply(c, Run(c, start, acts), a)
  {
    hide Apply;
    assert (acts + [a])[..|acts + [a]| - 1] == acts;
  }

  /** Calls of a finished handler change nothing. */
  lemma {:induction false} FinishedStutters(c: Config, start: nat, acts: seq<Action>, id: nat, n: nat)
    requires !Running(Run(c, start, acts), id)
    ensures Run(c, start, acts + Calls(id, n)) == Run(c, start, acts)
    decreases n
  {
    hide Run, ApplyCall;
    if n == 0 {
      assert acts + Calls(id, 0) == acts;
    } else {
      FinishedStutters(c, start, acts, id, n - 1);
      assert acts + Calls(id, n) == acts + Calls(id, n - 1) + [Call(id, Ok)];
      RunOn(c, start, acts + Calls(id, n - 1), Call(id, Ok));
    }
  }

  /** A handler whose calls are made back to back in the transition system does what its code does. */
  lemma {:induction false} HandlerIsRun(c: Config, start: nat, acts: seq<Action>, id: nat, n: nat)
    requires Running(Run(c, start, acts), id) && Left(Run(c, start, acts).tasks[id]) <= n
    ensures var s := Run(c, start, acts); var s' := Run(c, start, acts + Calls(id, n));
            var (store, answer) := Alone(c, s.now, s.store, s.tasks[id]);
            && s'.store == store && s'.now == s.now && s'.used == s.used && s'.jobs == s.jobs
            && s'.tasks == s.tasks[id := Finished(answer)]
    decreases n
  {
    hide Run, Exec, OpOf, EventsOf, LeakOf, Leak, Resume;
    var s := Run(c, start, acts);
    var t := s.tasks[id];
    var next := acts + [Call(id, Ok)];
    RunOn(c, start, acts, Call(id, Ok));
    var t' := Resume(t, Exec(c, s.now, s.store, OpOf(t)).1);
    assert Run(c, start, next).tasks == s.tasks[id := t'];
    ResumeLeaves(t, Exec(c, s.now, s.store, OpOf(t)).1);
    assert acts + Calls(id, n) == next + Calls(id, n - 1);
    if t'.Finished? {
      FinishedStutters(c, start, next, id, n - 1);
      AloneEnds(c, s.now, s.store, t);
    } else {
      HandlerIsRun(c, start, next, id, n - 1);
    }
  }

  lemma ResumeLeaves(t: Task, r: Reply)
    requires !t.Finished?
    ensures Left(Resume(t, r)) < Left(t)
  {
  }

  /** The calls of a handler from here on, made back to back, with what befalls each of them. */
  function CallsOf(c: Config, now: nat, s: Store, t: Task, faults: Faults, id: nat): seq<Action>
    decreases Left(t)
  {
    if t.Finished? then [] else
    var (s', reply) := Exec(c, now, s, OpOf(t));
    [Call(id, faults.For(t))]
    + CallsOf(c, now, if faults.For(t).NoEffect? then s else s',
              if faults.For(t).Ok? then Resume(t, reply) else Abort(t), faults, id)
  }

  /** The same for a handler whose calls fail in any way. */
  lemma {:induction false} FaultyHandlerIsRun(c: Config, start: nat, acts: seq<Action>, id: nat, faults: Faults)
    requires id in Run(c, start, acts).tasks
    ensures var s := Run(c, start, acts); var t := s.tasks[id];
            var s' := Run(c, start, acts + CallsOf(c, s.now, s.store, t, faults, id));
            var (store, answer) := AloneWith(c, s.now, s.store, t, faults);
            && s'.store == store && s'.now == s.now && s'.used == s.used && s'.jobs == s.jobs
            && s'.tasks == s.tasks[id := Finished(answer)]
    decreases Left(Run(c, start, acts).tasks[id])
  {
    hide Run, Exec, OpOf, EventsOf, LeakOf, Leak, Resume, Abort, Faults.For;
    var s := Run(c, start, acts);
    var t := s.tasks[id];
    if t.Finished? {
      assert acts + [] == acts;
    } else {
      var f := faults.For(t);
      var next := acts + [Call(id, f)];
      RunOn(c, start, acts, Call(id, f));
      var s1 := Run(c, start, next);
      ResumeLeaves(t, Exec(c, s.now, s.store, OpOf(t)).1);
      AbortLeaves(t);
      var rest := CallsOf(c, s1.now, s1.store, s1.tasks[id], faults, id);
      FaultyHandlerIsRun(c, start, next, id, faults);
      assert acts + ([Call(id, f)] + rest) == next + rest;
    }
  }

  lemma AbortLeaves(t: Task)
    requires !t.Finished?
    ensures Left(Abort(t)) < Left(t)
  {
  }
}

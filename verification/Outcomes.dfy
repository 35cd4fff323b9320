/** What a handler answers and leaves behind whatever befalls its calls, when nothing comes between them. */
module Outcomes {
  import opened Redis
  import opened Protocol
  import opened UsageServer

  /** The answer of a create handler: success if all its calls went well, there is room under both limits, and the user
      can pay; the refusal of the first of these that fails; and an error if a call before that fails. How giving the
      charge back goes makes no difference. */
  lemma CreateAnswers(c: Config, now: nat, s: Store, q: Request, faults: Faults)
    requires q.credits > 0 && Read(s.budget, DayOf(now)) >= 0 && Read(s.requests, DayOf(now)) >= 0
    ensures var d := now / (24 * 3600 * 1000);
            var payable := q.credits <= if q.user in s.balances then s.balances[q.user] else c.initialCredits;
            AloneWith(c, now, s, FirstTask(Reserve(q), now), faults).1 ==
            if !faults.counting.Ok? then ServerError
            else if Read(s.requests, d) >= c.requestLimit then RequestCapReached
            else if !faults.charging.Ok? then ServerError
            else if Read(s.budget, d) + q.credits > c.creditLimit then BudgetExhausted
            else if !faults.granting.Ok? || !faults.placing.Ok? then ServerError
            else if payable then Created else InsufficientCredits
  {
    hide AloneWith, Exec, ChargeUnder, CountUnder, Bump, Place, Request.Ttl;
    var d := DayOf(now);
    var k := Ticket(q, d, now);
    CountingWith(c, now, s, k, faults);
    var counted := s.(requests := CountUnder(s.requests, d, c.requestLimit, now).0);
    ChargingWith(c, now, counted, k, faults);
    var charged := counted.(budget := ChargeUnder(s.budget, d, q.credits, c.creditLimit, now).0);
    GrantingWith(c, now, charged, k, faults);
    PlacingWith(c, now, charged.(balances := SetIfAbsent(s.balances, q.user, c.initialCredits)), k, faults);
  }

  /** What it leaves of the user's balance: the grant once it got so far, and the hold taken from it if that was
      placed, whether the handler heard so or not. No other balance changes. */
  lemma CreatePays(c: Config, now: nat, s: Store, q: Request, faults: Faults)
    requires q.credits > 0 && Read(s.budget, DayOf(now)) >= 0 && Read(s.requests, DayOf(now)) >= 0
    ensures var d := now / (24 * 3600 * 1000);
            var s' := AloneWith(c, now, s, FirstTask(Reserve(q), now), faults).0;
            var available := if q.user in s.balances then s.balances[q.user] else c.initialCredits;
            var admitted := faults.counting.Ok? && Read(s.requests, d) < c.requestLimit
                            && faults.charging.Ok? && Read(s.budget, d) + q.credits <= c.creditLimit;
            s'.balances ==
            if !admitted || faults.granting.NoEffect? then s.balances
            else s.balances[q.user := if faults.granting.Ok? && !faults.placing.NoEffect? && q.credits <= available
                                      then available - q.credits else available]
  {
    hide AloneWith, Exec, ChargeUnder, CountUnder, Bump, SetIfAbsent, Request.Ttl;
    var d := DayOf(now);
    var k := Ticket(q, d, now);
    CountingWith(c, now, s, k, faults);
    var counted := s.(requests := CountUnder(s.requests, d, c.requestLimit, now).0);
    ChargingWith(c, now, counted, k, faults);
    GrantingPays(c, now, counted.(budget := ChargeUnder(s.budget, d, q.credits, c.creditLimit, now).0), k, faults);
  }

  lemma GrantingPays(c: Config, now: nat, s: Store, k: Ticket, faults: Faults)
    requires k.req.credits > 0
    ensures var u := k.req.user; var available := if u in s.balances then s.balances[u] else c.initialCredits;
            AloneWith(c, now, s, Creating(Granting, k), faults).0.balances ==
            if faults.granting.NoEffect? then s.balances
            else s.balances[u := if faults.granting.Ok? && !faults.placing.NoEffect? && k.req.credits <= available
                                 then available - k.req.credits else available]
  {
    hide AloneWith, Bump, Request.Ttl;
    var u := k.req.user;
    var granted := s.(balances := SetIfAbsent(s.balances, u, c.initialCredits));
    GrantingWith(c, now, s, k, faults);
    PlacingWith(c, now, granted, k, faults);
    assert granted.balances == s.balances[u := if u in s.balances then s.balances[u] else c.initialCredits];
  }

  /** A settlement with faults: an error if a call fails, and else the answer of the one without; the store is that of
      the one without if the second call was made and took effect, and unchanged otherwise. */
  lemma SettleWithFaults(c: Config, now: nat, s: Store, st: Settlement, faults: Faults)
    ensures var (s', answer) := AloneWith(c, now, s, Looking(st), faults);
            var whole := Alone(c, now, s, Looking(st));
            && answer == (if faults.looking.Ok? && faults.settling.Ok? then whole.1 else ServerError)
            && s' == if faults.looking.Ok? && !faults.settling.NoEffect? then whole.0 else s
  {
    hide AloneWith, Settle, Judge;
    var stamp := StampOf(s, st.res);
    SettlingAlone(c, now, s, st);
    OneCallAlone(c, now, s, Looking(st), faults);
    OneCallAlone(c, now, s, Settling(st, stamp), faults);
  }

  /** A purchase with faults: granted if all its calls went well, refused at the limit, and an error otherwise; a count
      stays used up whatever comes after it. */
  lemma PurchaseWithFaults(c: Config, now: nat, s: Store, u: UserId, credits: int, faults: Faults)
    requires Read(s.purchases, (u, DayOf(now))) >= 0
    ensures var key := (u, now / (24 * 3600 * 1000));
            var (s', answer) := AloneWith(c, now, s, FirstTask(TopUp(u, credits), now), faults);
            var available := if u in s.balances then s.balances[u] else c.initialCredits;
            var room := Read(s.purchases, key) < c.purchaseLimit;
            var granting := faults.counting.Ok? && room && !faults.granting.NoEffect?;
            var minting := granting && faults.granting.Ok? && !faults.minting.NoEffect?;
            && answer == (if !faults.counting.Ok? then ServerError
                          else if !room then PurchaseCapReached
                          else if faults.granting.Ok? && faults.minting.Ok? then Purchased else ServerError)
            && Read(s'.purchases, key) == Read(s.purchases, key)
                 + (if room && !faults.counting.NoEffect? then 1 else 0)
            && s'.balances == (if minting then s.balances[u := available + credits]
                               else if granting then s.balances[u := available] else s.balances)
            && s' == s.(balances := s'.balances, purchases := s'.purchases)
  {
    hide AloneWith, CountUnder, SetIfAbsent;
    var d := DayOf(now);
    CountsPurchase(s.purchases, (u, d), c.purchaseLimit, now);
    OneCallAlone(c, now, s, TopUpCounting(u, credits, d), faults);
    GrantAndMintWith(c, now, s.(purchases := CountUnder(s.purchases, (u, d), c.purchaseLimit, now).0), u, credits, d,
        faults);
  }

  lemma GrantAndMintWith(c: Config, now: nat, s: Store, u: UserId, credits: int, d: Day, faults: Faults)
    ensures var available := if u in s.balances then s.balances[u] else c.initialCredits;
            var balances := if faults.granting.NoEffect? then s.balances
                            else if faults.granting.Ok? && !faults.minting.NoEffect?
                            then s.balances[u := available + credits] else s.balances[u := available];
            AloneWith(c, now, s, TopUpGranting(u, credits, d), faults) ==
            (s.(balances := balances), if faults.granting.Ok? && faults.minting.Ok? then Purchased else ServerError)
  {
    hide AloneWith;
    OneCallAlone(c, now, s, TopUpGranting(u, credits, d), faults);
    if faults.granting.Ok? {
      var available := if u in s.balances then s.balances[u] else c.initialCredits;
      var granted := s.(balances := SetIfAbsent(s.balances, u, c.initialCredits));
      assert granted.balances == s.balances[u := available];
      OneCallAlone(c, now, granted, TopUpMinting(u, credits, d), faults);
      assert Credit(granted.balances, u, credits) == s.balances[u := available + credits];
    } else {
      assert u in s.balances ==> s.balances[u := s.balances[u]] == s.balances;
    }
  }

  /** Asking for a balance gives a new user the grant, and changes nothing else. */
  lemma ViewAlone(c: Config, now: nat, s: Store, u: UserId)
    ensures Alone(c, now, s, FirstTask(View(u), now))
            == (if u in s.balances then s else s.(balances := s.balances[u := c.initialCredits]), Viewed)
  {
    AloneEnds(c, now, s, Viewing(u));
  }

  lemma ChargingKeepsOthers(c: Config, now: nat, s: Store, k: Ticket, faults: Faults)
    requires Read(s.budget, k.day) >= 0 && k.req.credits > 0
    ensures var s' := AloneWith(c, now, s, Creating(Charging, k), faults).0;
            s'.requests == s.requests && s'.purchases == s.purchases
  {
    hide AloneWith, ChargeUnder, Bump, Request.Ttl;
    ChargingWith(c, now, s, k, faults);
    var charged := s.(budget := ChargeUnder(s.budget, k.day, k.req.credits, c.creditLimit, now).0);
    GrantingWith(c, now, charged, k, faults);
    PlacingWith(c, now, charged.(balances := SetIfAbsent(s.balances, k.req.user, c.initialCredits)), k, faults);
  }

  lemma ChargesDay(m: map<Day, Counter>, d: Day, amount: int, limit: int, now: nat)
    requires Read(m, d) >= 0 && amount > 0 && Read(m, d) + amount <= limit
    ensures ChargeUnder(m, d, amount, limit, now).0
            == m[d := Counter(Read(m, d) + amount,
                              if Read(m, d) == 0 then At(now + 25 * 3600 * 1000) else m[d].deadline)]
  {
  }

  /** The counters of a date that a create handler uses: a request is counted whether it succeeds or not, unless the
      limit is reached, and a charge if it succeeds; either lasts 25 hours from the first of its date. */
  lemma CreateCounts(c: Config, now: nat, s: Store, q: Request)
    requires q.credits > 0 && Read(s.budget, DayOf(now)) >= 0 && Read(s.requests, DayOf(now)) >= 0
    ensures var d := now / (24 * 3600 * 1000); var (s', answer) := Alone(c, now, s, FirstTask(Reserve(q), now));
            var requests, charged := Read(s.requests, d), Read(s.budget, d);
            && s'.requests == (if requests >= c.requestLimit then s.requests
                               else s.requests[d := Counter(requests + 1, if requests == 0
                                                            then At(now + 25 * 3600 * 1000)
                                                            else s.requests[d].deadline)])
            && (answer == Created ==>
                  s'.budget == s.budget[d := Counter(charged + q.credits, if charged == 0
                                                     then At(now + 25 * 3600 * 1000) else s.budget[d].deadline)])
            && s'.purchases == s.purchases
  {
    hide AloneWith, ChargeUnder, CountUnder, Bump, Request.Ttl, Exec;
    var d := DayOf(now);
    var k := Ticket(q, d, now);
    UntilIs(now, q);
    CreateAlone(c, now, s, q);
    CountsPurchase(s.requests, d, c.requestLimit, now);
    CountingWith(c, now, s, k, NO_FAULTS);
    ChargingKeepsOthers(c, now, s.(requests := CountUnder(s.requests, d, c.requestLimit, now).0), k, NO_FAULTS);
    if Read(s.budget, d) + q.credits <= c.creditLimit {
      ChargesDay(s.budget, d, q.credits, c.creditLimit, now);
    }
  }
}

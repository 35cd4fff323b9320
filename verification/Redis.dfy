/** The shared Redis state of the usage service and its atomic steps, as values.
    Times are in ticks, milliseconds as Redis counts them; a key whose deadline has come is gone. */
module Redis {
  type UserId = string
  type ResId = string
  type Day = nat

  const SECOND := 1000
  const DAY := 86400 * SECOND
  const COUNTER_TTL := 90000 * SECOND
  const SETTLED_TTL := 86400 * SECOND

  function DayOf(now: nat): Day { now / DAY }

  /** The moment, one hour past midnight, before which no counter of day d can expire. */
  function Horizon(d: Day): nat { d * DAY + COUNTER_TTL }

  datatype Deadline = Never | At(time: nat) {
    predicate Due(now: nat) { At? && time <= now }
  }

  datatype Counter = Counter(value: int, deadline: Deadline)

  datatype Status = Reserved | Committed | Released

  /** The platform_day field of a reservation: absent, or a date. */
  datatype Stamp = NoDay | On(day: Day)

  datatype Hold = Hold(user: UserId, amount: int, status: Status, stamp: Stamp, deadline: Deadline)

  datatype Store = Store(
    balances: map<UserId, int>,
    holds: map<ResId, Hold>,
    budget: map<Day, Counter>,
    requests: map<Day, Counter>,
    purchases: map<(UserId, Day), Counter>)

  const EMPTY_STORE := Store(map[], map[], map[], map[], map[])

  datatype Config = Config(
    requestLimit: nat, creditLimit: nat, initialCredits: nat, purchaseLimit: nat)

  function Balance(s: Store, u: UserId): int { if u in s.balances then s.balances[u] else 0 }

  function Read<K>(m: map<K, Counter>, k: K): int { if k in m then m[k].value else 0 }

  /** INCRBY: a missing counter starts at zero and without a deadline. */
  function Bump<K>(m: map<K, Counter>, k: K, delta: int): map<K, Counter> {
    m[k := if k in m then m[k].(value := m[k].value + delta) else Counter(delta, Never)]
  }

  function Expire<K>(m: map<K, Counter>, k: K, deadline: nat): map<K, Counter>
    requires k in m
  {
    m[k := m[k].(deadline := At(deadline))]
  }

  /** The increment-under-limit script; the reply 0 means refused. */
  function CountUnder<K>(m: map<K, Counter>, k: K, limit: int, now: nat): (map<K, Counter>, int) {
    if Read(m, k) >= limit then (m, 0) else
    var m' := Bump(m, k, 1);
    (if Read(m', k) == 1 then Expire(m', k, now + COUNTER_TTL) else m', Read(m', k))
  }

  /** The budget script; the reply -1 means refused. */
  function ChargeUnder(m: map<Day, Counter>, d: Day, amount: int, limit: int, now: nat): (map<Day, Counter>, int) {
    if Read(m, d) + amount > limit then (m, -1) else
    var m' := Bump(m, d, amount);
    (if Read(m', d) == amount then Expire(m', d, now + COUNTER_TTL) else m', Read(m', d))
  }

  function SetIfAbsent(balances: map<UserId, int>, u: UserId, n: int): map<UserId, int> {
    if u in balances then balances else balances[u := n]
  }

  predicate Affordable(s: Store, u: UserId, amount: int) { amount <= Balance(s, u) }

  function Place(s: Store, r: ResId, u: UserId, amount: int, ttl: nat, stamp: Stamp, now: nat): Store {
    if !Affordable(s, u, amount) then s else
    s.(balances := s.balances[u := Balance(s, u) - amount],
       holds := s.holds[r := Hold(u, amount, Reserved, stamp, At(now + ttl))])
  }

  /** A settlement as its caller names it. */
  datatype Settlement = Commit(res: ResId, user: UserId, actual: nat) | Release(res: ResId, user: UserId)

  datatype Verdict = Missing | AlreadyCommitted | AlreadyReleased | DayMismatch | Effective

  predicate Live(s: Store, r: ResId) { r in s.holds && s.holds[r].status == Reserved }

  /** What the commit and release scripts answer, stamp being the day their caller read before. */
  function Judge(s: Store, st: Settlement, stamp: Stamp): Verdict {
    if st.res !in s.holds then Missing
    else if s.holds[st.res].status == Committed then AlreadyCommitted
    else if s.holds[st.res].status == Released then AlreadyReleased
    else if s.holds[st.res].stamp != stamp then DayMismatch
    else Effective
  }

  /** The part of the hold of the given amount that the settlement keeps. */
  function Kept(st: Settlement): int { if st.Commit? then st.actual else 0 }

  function Credit(balances: map<UserId, int>, u: UserId, n: int): map<UserId, int> {
    balances[u := (if u in balances then balances[u] else 0) + n]
  }

  /** An exact commit touches no balance and no counter; a release always does. */
  predicate Untouched(h: Hold, st: Settlement) { st.Commit? && st.actual == h.amount }

  function PayBack(balances: map<UserId, int>, h: Hold, st: Settlement): map<UserId, int> {
    if Untouched(h, st) then balances else Credit(balances, st.user, h.amount - Kept(st))
  }

  function ReconcileBudget(budget: map<Day, Counter>, h: Hold, st: Settlement): map<Day, Counter> {
    if h.stamp.NoDay? || Untouched(h, st) then budget else Bump(budget, h.stamp.day, Kept(st) - h.amount)
  }

  function Close(h: Hold, st: Settlement, now: nat): Hold {
    h.(status := if st.Commit? then Committed else Released,
       amount := if st.Commit? then st.actual else h.amount,
       deadline := At(now + SETTLED_TTL))
  }

  function Settle(s: Store, st: Settlement, stamp: Stamp, now: nat): Store {
    if Judge(s, st, stamp) != Effective then s else
    var h := s.holds[st.res];
    s.(balances := PayBack(s.balances, h, st),
       budget := ReconcileBudget(s.budget, h, st),
       holds := s.holds[st.res := Close(h, st, now)])
  }

  lemma SettleRefused(s: Store, st: Settlement, stamp: Stamp, now: nat)
    requires Judge(s, st, stamp) != Effective
    ensures Settle(s, st, stamp, now) == s
  {
  }

  function StampOf(s: Store, r: ResId): Stamp { if r in s.holds then s.holds[r].stamp else NoDay }

  /** One Redis call of a handler. */
  datatype Op =
    | CountRequest(day: Day)
    | ChargeBudget(day: Day, amount: int)
    | GrantInitial(user: UserId)
    | PlaceHold(res: ResId, holder: UserId, credits: int, ttl: nat, on: Day)
    | AdjustBudget(day: Day, delta: int)
    | ReadStamp(res: ResId)
    | SettleHold(st: Settlement, stamp: Stamp)
    | CountPurchase(user: UserId, day: Day)
    | Mint(user: UserId, minted: int, counted: Day)

  datatype Reply = Number(n: int) | Done | Placed(ok: bool) | Stamped(stamp: Stamp) | Judged(verdict: Verdict)

  function Exec(c: Config, now: nat, s: Store, op: Op): (Store, Reply) {
    match op
    case CountRequest(d) =>
      var (m, n) := CountUnder(s.requests, d, c.requestLimit, now);
      (s.(requests := m), Number(n))
    case ChargeBudget(d, a) =>
      var (m, n) := ChargeUnder(s.budget, d, a, c.creditLimit, now);
      (s.(budget := m), Number(n))
    case GrantInitial(u) => (s.(balances := SetIfAbsent(s.balances, u, c.initialCredits)), Done)
    case PlaceHold(r, u, a, ttl, d) => (Place(s, r, u, a, ttl, On(d), now), Placed(Affordable(s, u, a)))
    case AdjustBudget(d, delta) => (s.(budget := Bump(s.budget, d, delta)), Done)
    case ReadStamp(r) => (s, Stamped(StampOf(s, r)))
    case SettleHold(st, stamp) => (Settle(s, st, stamp, now), Judged(Judge(s, st, stamp)))
    case CountPurchase(u, d) =>
      var (m, n) := CountUnder(s.purchases, (u, d), c.purchaseLimit, now);
      (s.(purchases := m), Number(n))
    case Mint(u, n, _) => (s.(balances := Credit(s.balances, u, n)), Done)
  }

  /** The keys that are gone once the clock shows now. */
  function DueCounters<K>(m: map<K, Counter>, now: nat): map<K, Counter> {
    map k | k in m && m[k].deadline.Due(now) :: m[k]
  }

  function DueHolds(m: map<ResId, Hold>, now: nat): map<ResId, Hold> {
    map r | r in m && m[r].deadline.Due(now) :: m[r]
  }

  function Purge(s: Store, now: nat): Store {
    s.(holds := s.holds - DueHolds(s.holds, now).Keys,
       budget := s.budget - DueCounters(s.budget, now).Keys,
       requests := s.requests - DueCounters(s.requests, now).Keys,
       purchases := s.purchases - DueCounters(s.purchases, now).Keys)
  }
}

/** The per-user rate limiter of the gateway: token buckets, dropped when idle. Times are nanoseconds;
    a bucket's level is counted in the nanoseconds it takes to earn it. */
module RateLimiter {
  import Sse

  const SECOND := 1_000_000_000
  const MINUTE := 60 * SECOND
  const IDLE := 10 * MINUTE

  /** How long a call may wait for the lock after reading the clock: nine minutes. */
  const PATIENCE := 540_000_000_000

  datatype Rate = Rate(interval: nat, burst: nat) {
    function Full(): nat { burst * interval }
  }

  /** newUserRateLimiter */
  function RateOf(requestsPerMinute: int): (r: Rate)
    ensures r.burst > 0
    ensures r.Full() <= MINUTE
  {
    var rpm := if requestsPerMinute <= 0 then 10 else requestsPerMinute;
    FloorFits(rpm);
    Rate(MINUTE / rpm, rpm)
  }

  lemma FloorFits(rpm: int)
    requires rpm > 0
    ensures 0 <= rpm * (MINUTE / rpm) <= MINUTE
  {
    assert MINUTE == rpm * (MINUTE / rpm) + MINUTE % rpm;
  }

  datatype Bucket = Bucket(level: int, last: int)

  datatype Entry = Entry(bucket: Bucket, lastSeen: int)

  type Buckets = map<string, Entry>

  /** The level at a later moment. */
  function Level(r: Rate, b: Bucket, at: int): int {
    var elapsed := if at < b.last then 0 else at - b.last;
    if b.level + elapsed > r.Full() then r.Full() else b.level + elapsed
  }

  /** limiter.Allow: take one token if there is one. */
  function Take(r: Rate, b: Bucket, at: int): (Bucket, bool) {
    if Level(r, b, at) >= r.interval then (Bucket(Level(r, b, at) - r.interval, at), true) else (b, false)
  }

  /** One call: the clock read before the lock was taken, and when the bucket is asked. */
  datatype Arrival = Arrival(user: string, now: int, at: int)

  function EntryFor(r: Rate, m: Buckets, u: string, now: int): Entry {
    if u in m then m[u] else Entry(Bucket(r.Full(), now), now)
  }

  function Fresh(m: Buckets, now: int): Buckets {
    map u | u in m && now - m[u].lastSeen <= IDLE :: m[u]
  }

  function Admit(r: Rate, m: Buckets, a: Arrival): (Buckets, bool) {
    var u := Sse.Trim(a.user);
    if u == "" then (m, false) else
    var entry := EntryFor(r, m, u, a.now).(lastSeen := a.now);
    var (bucket, ok) := Take(r, entry.bucket, a.at);
    (Fresh(m[u := entry], a.now)[u := entry.(bucket := bucket)], ok)
  }

  lemma FreshIs(m: Buckets, kept: Buckets, now: int)
    requires forall id :: id in kept <==> id in m && now - m[id].lastSeen <= IDLE
    requires forall id | id in kept :: kept[id] == m[id]
    ensures kept == Fresh(m, now)
  {
  }

  /** After a call the limiter has a bucket for this user, and for those it had one for and saw within ten minutes. */
  lemma OnlyRecentStay(r: Rate, m: Buckets, a: Arrival)
    requires Sse.Trim(a.user) != ""
    ensures var u := Sse.Trim(a.user); var m' := Admit(r, m, a).0;
            && u in m' && m'[u].lastSeen == a.now
            && forall v | v != u ::
                 && (v in m' <==> v in m && a.now <= m[v].lastSeen + 600_000_000_000)
                 && (v in m' ==> m'[v] == m[v])
  {
    hide Sse.Trim, Take;
  }

  class UserRateLimiter {
    const rate: Rate
    var buckets: Buckets

    constructor (requestsPerMinute: int)
      ensures rate == RateOf(requestsPerMinute) && buckets == map[]
    {
      rate := RateOf(requestsPerMinute);
      buckets := map[];
    }

    method Allow(a: Arrival) returns (ok: bool)
      modifies this
      ensures (buckets, ok) == Admit(rate, old(buckets), a)
    {
      hide Take, Sse.Trim, Rate.Full, Fresh;
      var u := Sse.Trim(a.user);
      if u == "" {
        return false;
      }
      if u !in buckets {
        buckets := buckets[u := Entry(Bucket(rate.Full(), a.now), a.now)];
      }
      buckets := buckets[u := buckets[u].(lastSeen := a.now)];
      ghost var before := buckets;
      assert before == old(buckets)[u := EntryFor(rate, old(buckets), u, a.now).(lastSeen := a.now)];
      var left := buckets.Keys;
      while left != {}
        invariant left <= before.Keys && u in buckets
        invariant forall id :: id in buckets <==> id in before && (id in left || a.now - before[id].lastSeen <= IDLE)
        invariant forall id | id in buckets :: buckets[id] == before[id]
        decreases |left|
      {
        var id :| id in left;
        if a.now - buckets[id].lastSeen > IDLE {
          buckets := buckets - {id};
        }
        left := left - {id};
      }
      FreshIs(before, buckets, a.now);
      var (bucket, allowed) := Take(rate, buckets[u].bucket, a.at);
      buckets := buckets[u := buckets[u].(bucket := bucket)];
      ok := allowed;
      assert buckets == Fresh(before, a.now)[u := before[u].(bucket := bucket)];
    }
  }

  // ---- a limiter that never drops a bucket ----

  function AdmitForever(r: Rate, m: Buckets, a: Arrival): (Buckets, bool) {
    var u := Sse.Trim(a.user);
    if u == "" then (m, false) else
    var entry := EntryFor(r, m, u, a.now).(lastSeen := a.now);
    var (bucket, ok) := Take(r, entry.bucket, a.at);
    (m[u := entry.(bucket := bucket)], ok)
  }

  /** State and decisions after a sequence of calls. */
  function Dropping(r: Rate, calls: seq<Arrival>): (Buckets, seq<bool>) {
    if calls == [] then (map[], []) else
    var (m, oks) := Dropping(r, calls[..|calls| - 1]);
    var (m', ok) := Admit(r, m, calls[|calls| - 1]);
    (m', oks + [ok])
  }

  function Keeping(r: Rate, calls: seq<Arrival>): (Buckets, seq<bool>) {
    if calls == [] then (map[], []) else
    var (m, oks) := Keeping(r, calls[..|calls| - 1]);
    var (m', ok) := AdmitForever(r, m, calls[|calls| - 1]);
    (m', oks + [ok])
  }

  /** Buckets are asked under the lock, in order, soon enough after the call read the clock. */
  predicate Orderly(calls: seq<Arrival>) {
    && (forall i | 0 <= i < |calls| :: calls[i].now <= calls[i].at <= calls[i].now + PATIENCE)
    && (forall i, j | 0 <= i < j < |calls| :: calls[i].at <= calls[j].at)
  }

  /** The kept bucket is the dropping limiter's own, or the dropping limiter has none and it is full by now. */
  predicate Agree(r: Rate, dropping: Buckets, keeping: Buckets, u: string, at: int) {
    && (u in dropping ==> u in keeping && dropping[u] == keeping[u])
    && (u !in dropping && u in keeping ==> keeping[u].bucket.last + r.Full() <= at && 0 <= keeping[u].bucket.level)
    && (u in keeping ==>
          && 0 <= keeping[u].bucket.level <= r.Full()
          && keeping[u].bucket.last <= keeping[u].lastSeen + PATIENCE
          && keeping[u].bucket.last <= at)
  }

  lemma FullIsFull(r: Rate, b: Bucket, at: int, now: int)
    requires 0 <= b.level && b.last + r.Full() <= at && now <= at
    ensures Level(r, b, at) == r.Full() == Level(r, Bucket(r.Full(), now), at)
  {
  }

  lemma AgreeStep(r: Rate, dropping: Buckets, keeping: Buckets, a: Arrival, before: int, v: string)
    requires r.Full() <= MINUTE && r.burst > 0
    requires a.now <= a.at <= a.now + PATIENCE && before <= a.at
    requires Agree(r, dropping, keeping, Sse.Trim(a.user), before) && Agree(r, dropping, keeping, v, before)
    ensures Admit(r, dropping, a).1 == AdmitForever(r, keeping, a).1
    ensures Agree(r, Admit(r, dropping, a).0, AdmitForever(r, keeping, a).0, v, a.at)
  {
    hide Sse.Trim;
    var u := Sse.Trim(a.user);
    assert r.interval <= r.Full() by { OneFits(r); }
    if u !in dropping && u in keeping {
      FullIsFull(r, keeping[u].bucket, a.at, a.now);
    }
  }

  lemma OneFits(r: Rate)
    requires r.burst > 0
    ensures r.interval <= r.Full()
  {
  }

  lemma {:induction false} StillAgree(r: Rate, calls: seq<Arrival>, v: string, at: int)
    requires r.Full() <= MINUTE && r.burst > 0 && Orderly(calls)
    requires calls != [] ==> calls[|calls| - 1].at <= at
    ensures Dropping(r, calls).1 == Keeping(r, calls).1
    ensures Agree(r, Dropping(r, calls).0, Keeping(r, calls).0, v, at)
    decreases |calls|
  {
    if calls != [] {
      hide Admit, AdmitForever;
      var front, a := calls[..|calls| - 1], calls[|calls| - 1];
      StillAgree(r, front, v, a.at);
      StillAgree(r, front, Sse.Trim(a.user), a.at);
      AgreeStep(r, Dropping(r, front).0, Keeping(r, front).0, a, a.at, v);
    }
  }

  /** Dropping idle buckets is never noticed: every call is decided as if all buckets had been kept. */
  lemma EvictionIsTransparent(requestsPerMinute: int, calls: seq<Arrival>)
    requires Orderly(calls)
    ensures Dropping(RateOf(requestsPerMinute), calls).1 == Keeping(RateOf(requestsPerMinute), calls).1
  {
    hide Dropping, Keeping;
    var r := RateOf(requestsPerMinute);
    StillAgree(r, calls, "", if calls == [] then 0 else calls[|calls| - 1].at);
  }

  // ---- what the limiter promises ----

  /** A bucket was last drawn from in a call of its own user, or is full. */
  ghost predicate DrawnByOwner(r: Rate, m: Buckets, calls: seq<Arrival>, u: string) {
    u in m ==>
      || m[u].bucket.level == r.Full()
      || exists i | 0 <= i < |calls| :: Sse.Trim(calls[i].user) == u && m[u].bucket.last <= calls[i].at
  }

  lemma {:induction false} BucketsAreDrawnByOwner(r: Rate, calls: seq<Arrival>, u: string)
    ensures DrawnByOwner(r, Keeping(r, calls).0, calls, u)
    decreases |calls|
  {
    if calls != [] {
      hide Sse.Trim, Rate.Full, Level;
      var front, a := calls[..|calls| - 1], calls[|calls| - 1];
      BucketsAreDrawnByOwner(r, front, u);
      var m := Keeping(r, front).0;
      if Sse.Trim(a.user) == u {
        assert Sse.Trim(calls[|calls| - 1].user) == u;
      }
      if u in m && m[u].bucket.level != r.Full() {
        var i :| 0 <= i < |front| && Sse.Trim(front[i].user) == u && m[u].bucket.last <= front[i].at;
        assert calls[i] == front[i];
      }
    }
  }

  /** Without a limit, ten requests a minute are allowed. */
  function PerMinute(requestsPerMinute: int): (n: int)
    ensures n > 0
  {
    if requestsPerMinute <= 0 then 10 else requestsPerMinute
  }

  lemma Passes(r: Rate, m: Buckets, a: Arrival)
    requires Sse.Trim(a.user) != "" && Level(r, EntryFor(r, m, Sse.Trim(a.user), a.now).bucket, a.at) >= r.interval
    ensures Admit(r, m, a).1
  {
    hide Sse.Trim, Level;
  }

  /** A bucket that its owner left alone for an interval has a token. */
  lemma Recovers(r: Rate, b: Bucket, drawn: int, at: int)
    requires r.interval <= r.Full() && 0 <= b.level
    requires b.level == r.Full() || (b.last <= drawn && drawn + r.interval <= at)
    ensures Level(r, b, at) >= r.interval
  {
  }

  lemma KeptRecovers(r: Rate, m: Buckets, calls: seq<Arrival>, u: string, at: int)
    requires DrawnByOwner(r, m, calls, u) && u in m && r.interval <= r.Full() && 0 <= m[u].bucket.level
    requires forall i | 0 <= i < |calls| && Sse.Trim(calls[i].user) == u :: calls[i].at + r.interval <= at
    ensures Level(r, m[u].bucket, at) >= r.interval
  {
    hide Level, Rate.Full, Sse.Trim;
    if m[u].bucket.level == r.Full() {
      Recovers(r, m[u].bucket, 0, at);
    } else {
      var i :| 0 <= i < |calls| && Sse.Trim(calls[i].user) == u && m[u].bucket.last <= calls[i].at;
      Recovers(r, m[u].bucket, calls[i].at, at);
    }
  }

  lemma PatientPasses(r: Rate, calls: seq<Arrival>, a: Arrival)
    requires r.Full() <= MINUTE && r.burst > 0 && Orderly(calls + [a]) && Sse.Trim(a.user) != ""
    requires forall i | 0 <= i < |calls| && Sse.Trim(calls[i].user) == Sse.Trim(a.user) ::
               calls[i].at + r.interval <= a.at
    ensures Admit(r, Dropping(r, calls).0, a).1
  {
    hide Sse.Trim, Dropping, Keeping, Admit, DrawnByOwner, Rate.Full, Level;
    var u := Sse.Trim(a.user);
    assert forall i | 0 <= i < |calls| :: (calls + [a])[i] == calls[i];
    assert (calls + [a])[|calls|] == a;
    StillAgree(r, calls, u, a.at);
    BucketsAreDrawnByOwner(r, calls, u);
    OneFits(r);
    var m := Dropping(r, calls).0;
    if u in m {
      KeptRecovers(r, Keeping(r, calls).0, calls, u, a.at);
    } else {
      FreshIsFull(r, a.now, a.at);
    }
    Passes(r, m, a);
  }

  /** A user whose last call is at least a minute's share ago is let through. */
  lemma PatientUserIsServed(requestsPerMinute: int, calls: seq<Arrival>, a: Arrival)
    requires Orderly(calls + [a]) && Sse.Trim(a.user) != ""
    requires forall i | 0 <= i < |calls| && Sse.Trim(calls[i].user) == Sse.Trim(a.user) ::
               calls[i].at + 60_000_000_000 / PerMinute(requestsPerMinute) <= a.at
    ensures Admit(RateOf(requestsPerMinute), Dropping(RateOf(requestsPerMinute), calls).0, a).1
  {
    hide Sse.Trim, Dropping, Admit, Orderly, Rate.Full;
    IntervalOf(requestsPerMinute);
    hide RateOf, PerMinute;
    PatientPasses(RateOf(requestsPerMinute), calls, a);
  }

  lemma IntervalOf(requestsPerMinute: int)
    ensures RateOf(requestsPerMinute).interval == 60_000_000_000 / PerMinute(requestsPerMinute)
  {
  }

  /** How many calls of a user were let through. */
  function Granted(calls: seq<Arrival>, oks: seq<bool>, u: string): nat
    requires |calls| == |oks|
  {
    if calls == [] then 0 else
    Granted(calls[..|calls| - 1], oks[..|oks| - 1], u)
    + (if oks[|oks| - 1] && Sse.Trim(calls[|calls| - 1].user) == u then 1 else 0)
  }

  /** Time adds to a level no more than has passed. */
  lemma LevelGrows(r: Rate, b: Bucket, at: int, later: int)
    requires at <= later && b.last <= at
    ensures Level(r, b, later) <= Level(r, b, at) + (later - at)
  {
  }

  lemma TakeCosts(r: Rate, b: Bucket, at: int, later: int)
    requires b.last <= at <= later && r.interval <= r.Full() && 0 <= b.level
    ensures var (b', ok) := Take(r, b, at);
            0 <= Level(r, b', later) <= Level(r, b, at) - (if ok then r.interval else 0) + (later - at)
  {
  }

  /** The tokens a user has used and has left never exceed a full bucket and what time has earned since start. */
  predicate WithinRate(r: Rate, m: Buckets, u: string, used: nat, start: int, at: int) {
    if u in m then used * r.interval + Level(r, m[u].bucket, at) <= r.Full() + (at - start) else used == 0
  }

  lemma WithinRateStep(r: Rate, m: Buckets, a: Arrival, u: string, used: nat, start: int, at: int)
    requires r.interval <= r.Full() && u != "" && start <= a.at <= at && a.now <= a.at
    requires u in m ==> m[u].bucket.last <= a.at && 0 <= m[u].bucket.level
    requires WithinRate(r, m, u, used, start, a.at)
    ensures var (m', ok) := AdmitForever(r, m, a);
            WithinRate(r, m', u, used + (if ok && Sse.Trim(a.user) == u then 1 else 0), start, at)
  {
    hide Sse.Trim, Level, Rate.Full, Take;
    if Sse.Trim(a.user) == u {
      var b := EntryFor(r, m, u, a.now).bucket;
      TakeCosts(r, b, a.at, at);
      assert (used + 1) * r.interval == used * r.interval + r.interval;
      if u !in m {
        FreshIsFull(r, a.now, a.at);
      }
    } else if u in m {
      LevelGrows(r, m[u].bucket, a.at, at);
    }
  }

  lemma FreshIsFull(r: Rate, now: int, at: int)
    requires now <= at
    ensures Level(r, Bucket(r.Full(), now), at) == r.Full()
  {
  }

  lemma KeptInOrder(r: Rate, calls: seq<Arrival>, u: string, at: int)
    requires r.Full() <= MINUTE && r.burst > 0 && Orderly(calls)
    requires calls != [] ==> calls[|calls| - 1].at <= at
    ensures var m := Keeping(r, calls).0; u in m ==> m[u].bucket.last <= at && 0 <= m[u].bucket.level
  {
    hide Dropping, Keeping;
    StillAgree(r, calls, u, at);
  }

  lemma {:induction false} WithinRateRun(r: Rate, calls: seq<Arrival>, u: string, start: int, at: int)
    requires r.Full() <= MINUTE && r.burst > 0 && Orderly(calls) && u != ""
    requires calls != [] ==> start <= calls[0].at && calls[|calls| - 1].at <= at
    ensures |Keeping(r, calls).1| == |calls|
    ensures WithinRate(r, Keeping(r, calls).0, u, Granted(calls, Keeping(r, calls).1, u), start, at)
    decreases |calls|
  {
    hide AdmitForever, Keeping, Granted, Sse.Trim, WithinRate, Rate.Full, Orderly, Level, Agree, Dropping;
    if calls == [] {
      NothingGranted(r, u, start, at);
    } else {
      var front, a := calls[..|calls| - 1], calls[|calls| - 1];
      FrontOrderly(calls);
      assert calls == front + [a];
      var (m, oks) := Keeping(r, front);
      WithinRateRun(r, front, u, start, a.at);
      KeptInOrder(r, front, u, a.at);
      OneFits(r);
      WithinRateStep(r, m, a, u, Granted(front, oks, u), start, at);
      KeepingOneMore(r, front, a);
      GrantedOneMore(front, oks, a, AdmitForever(r, m, a).1, u);
    }
  }

  lemma NothingGranted(r: Rate, u: string, start: int, at: int)
    ensures Keeping(r, []) == (map[], []) && Granted([], [], u) == 0 && WithinRate(r, map[], u, 0, start, at)
  {
  }

  lemma FrontOrderly(calls: seq<Arrival>)
    requires Orderly(calls) && calls != []
    ensures var front, a := calls[..|calls| - 1], calls[|calls| - 1];
            && Orderly(front) && a.now <= a.at && calls[0].at <= a.at
            && (front != [] ==> front[0] == calls[0] && front[|front| - 1].at <= a.at)
  {
  }

  lemma KeepingOneMore(r: Rate, calls: seq<Arrival>, a: Arrival)
    ensures var (m, oks) := Keeping(r, calls); var (m', ok) := AdmitForever(r, m, a);
            Keeping(r, calls + [a]) == (m', oks + [ok])
  {
    hide AdmitForever;
    assert (calls + [a])[..|calls + [a]| - 1] == calls;
  }

  lemma GrantedOneMore(calls: seq<Arrival>, oks: seq<bool>, a: Arrival, ok: bool, u: string)
    requires |calls| == |oks|
    ensures Granted(calls + [a], oks + [ok], u)
            == Granted(calls, oks, u) + (if ok && Sse.Trim(a.user) == u then 1 else 0)
  {
    hide Sse.Trim;
    assert (calls + [a])[..|calls + [a]| - 1] == calls && (oks + [ok])[..|oks + [ok]| - 1] == oks;
  }

  /** From a call at start to one at the end, at most a minute's requests and what was earned in between is let
      through, although idle buckets are dropped and replaced by full ones. */
  lemma RateIsKept(requestsPerMinute: int, calls: seq<Arrival>, u: string)
    requires Orderly(calls) && u != "" && calls != []
    ensures var n := PerMinute(requestsPerMinute); var share := 60_000_000_000 / n;
            var oks := Dropping(RateOf(requestsPerMinute), calls).1;
            && |oks| == |calls|
            && Granted(calls, oks, u) * share <= n * share + (calls[|calls| - 1].at - calls[0].at)
  {
    var r := RateOf(requestsPerMinute);
    assert r == Rate(60_000_000_000 / PerMinute(requestsPerMinute), PerMinute(requestsPerMinute));
    hide Dropping, Keeping, RateOf;
    var end := calls[|calls| - 1].at;
    EvictionIsTransparent(requestsPerMinute, calls);
    WithinRateRun(r, calls, u, calls[0].at, end);
    StillAgree(r, calls, u, end);
  }

  /** Some calls of one user, all at one moment. */
  predicate Burst(calls: seq<Arrival>, u: string, at: int) {
    forall i | 0 <= i < |calls| :: Sse.Trim(calls[i].user) == u && calls[i].now <= at == calls[i].at
  }

  /** After n calls at once: the bucket is n tokens short of full, or empty. */
  ghost predicate Drained(r: Rate, m: Buckets, u: string, n: nat, at: int) {
    && m.Keys <= {u}
    && (n > 0 ==> u in m && m[u].bucket.last == at
                  && m[u].bucket.level == r.Full() - (if n < r.burst then n else r.burst) * r.interval)
  }

  lemma DrainedStep(r: Rate, m: Buckets, u: string, n: nat, a: Arrival, at: int)
    requires Drained(r, m, u, n, at) && r.interval > 0 && r.burst > 0
    requires Sse.Trim(a.user) == u != "" && a.now <= at == a.at && (n == 0 ==> m == map[])
    ensures var (m', ok) := Admit(r, m, a); Drained(r, m', u, n + 1, at) && (ok <==> n < r.burst)
  {
    hide Sse.Trim, Level;
    var b := EntryFor(r, m, u, a.now).bucket;
    var left := r.burst - if n < r.burst then n else r.burst;
    LevelAtOnce(r, b, at);
    Tokens(r, left);
    assert left * r.interval == r.Full() - (if n < r.burst then n else r.burst) * r.interval;
  }

  lemma LevelAtOnce(r: Rate, b: Bucket, at: int)
    requires b.last <= at && 0 <= b.level <= r.Full() && (b.last == at || b.level == r.Full())
    ensures Level(r, b, at) == b.level
  {
  }

  lemma Tokens(r: Rate, left: int)
    requires r.interval > 0 && left >= 0
    ensures left * r.interval >= 0 && (left * r.interval >= r.interval <==> left > 0)
  {
  }

  /** Of a new user's calls at one moment, as many pass as are allowed in a minute, and no more. */
  lemma {:induction false} BurstPasses(requestsPerMinute: int, calls: seq<Arrival>, u: string, at: int)
    requires Burst(calls, u, at) && u != "" && PerMinute(requestsPerMinute) <= 60_000_000_000
    ensures var (m, oks) := Dropping(RateOf(requestsPerMinute), calls);
            && |oks| == |calls| && (forall i | 0 <= i < |calls| :: oks[i] <==> i < PerMinute(requestsPerMinute))
            && Drained(RateOf(requestsPerMinute), m, u, |calls|, at) && (calls == [] ==> m == map[])
    decreases |calls|
  {
    var r := RateOf(requestsPerMinute);
    assert r.burst == PerMinute(requestsPerMinute) && r.interval > 0;
    if calls != [] {
      hide RateOf, Admit, Drained, Sse.Trim;
      var front, a := calls[..|calls| - 1], calls[|calls| - 1];
      BurstPasses(requestsPerMinute, front, u, at);
      DrainedStep(r, Dropping(r, front).0, u, |front|, a, at);
    }
  }
}

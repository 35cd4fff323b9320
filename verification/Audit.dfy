/** What the ledger says of every balance: the rows that arrive from the gateway's runs, whatever the runs met, against
    what Redis shows. */
module Audit {
  import opened Sums
  import opened Redis
  import opened Protocol
  import opened Budget
  import opened Conservation
  import opened Answers
  import opened Costs
  import opened Limits
  import opened Traffic
  import opened UsageServer
  import Gateway
  import Ledger
  import Options

  // ---- what the runs write ----

  const SUFFIXES := {":reserve", ":commit", ":release", ":commit_failed"}

  /** The event that is sent to the ledger for a row. */
  function EntryOf(r: ResId, x: Session, row: Gateway.Row): Ledger.Entry {
    match row.kind
    case ReservedRow => Ledger.Entry(x.idem + ":reserve", Ledger.Row(x.user, r, Ledger.Reserved, row.credits))
    case CommittedRow => Ledger.Entry(x.idem + ":commit", Ledger.Row(x.user, r, Ledger.Committed, row.credits))
    case CommittedUnknownRow => Ledger.Entry(x.idem + ":commit", Ledger.Row(x.user, r, Ledger.Committed, row.credits))
    case ReleasedRow => Ledger.Entry(x.idem + ":release", Ledger.Row(x.user, r, Ledger.Released, row.credits))
    case CommitFailedRow =>
      Ledger.Entry(x.idem + ":commit_failed", Ledger.Row(x.user, r, Ledger.CommitFailed, row.credits))
    case _ => Ledger.Entry(x.idem + ":commit", Ledger.Row(x.user, "", Ledger.Unmetered, row.credits))
  }

  /** The event of the reservation, if it is sent and arrives. */
  function Opening(x: Session): seq<Gateway.Row> {
    if x.noted && x.Runs() then Gateway.Reservation(x.p, x.client) else []
  }

  /** The event that closes the run, if it is sent and arrives. */
  function Closing(x: Session): seq<Gateway.Row>
    requires x.Possible()
  {
    var rows := x.Rows();
    var opening := if x.Runs() then |Gateway.Reservation(x.p, x.client)| else 0;
    if x.ended && opening <= |rows| then rows[opening..] else []
  }

  /** The rows of a run that arrive. */
  function Arrived(x: Session): seq<Gateway.Row>
    requires x.Possible()
  {
    Opening(x) + Closing(x)
  }

  function EntriesOf(r: ResId, x: Session): seq<Ledger.Entry>
    requires x.Possible()
  {
    seq(|Arrived(x)|, i requires 0 <= i < |Arrived(x)| => EntryOf(r, x, Arrived(x)[i]))
  }

  /** What a ledger event is about: the reservation, a commit, be it of a known cost or not, or the record of a run that
      needs none, a release, or a commit that failed. */
  function Step(kind: Gateway.RowKind): nat {
    match kind
    case ReservedRow => 0
    case ReleasedRow => 2
    case CommitFailedRow => 3
    case _ => 1
  }

  /** Two events of one run share a key exactly if they are about the same step, so that of these the ledger keeps the
      first; each says whose it is and about how much, and that of a metered run of which reservation. */
  lemma KeysBySteps(r: ResId, x: Session, a: Gateway.Row, b: Gateway.Row)
    ensures EntryOf(r, x, a).key == EntryOf(r, x, b).key <==> Step(a.kind) == Step(b.kind)
    ensures var row := EntryOf(r, x, a).row;
            && row.user == x.user && row.credits == a.credits
            && row.res == (if a.kind.ByokRow? || a.kind.LocalRow? || a.kind.MockRow? then "" else r)
            && (row.kind == Ledger.Reserved <==> a.kind.ReservedRow?)
            && (row.kind == Ledger.Committed <==> a.kind.CommittedRow? || a.kind.CommittedUnknownRow?)
            && (row.kind == Ledger.Released <==> a.kind.ReleasedRow?)
            && (row.kind == Ledger.CommitFailed <==> a.kind.CommitFailedRow?)
  {
    SuffixesDiffer(x.idem, x.idem);
  }

  lemma RowsAre(x: Session)
    requires x.Possible()
    ensures x.noted && x.ended ==> x.Rows() == Arrived(x)
    ensures |Opening(x)| <= 1 && |Closing(x)| <= 1
    ensures Opening(x) != [] ==> Opening(x)[0] == Gateway.Row(Gateway.ReservedRow, x.p.estimated)
    ensures Closing(x) != [] ==> !Closing(x)[0].kind.ReservedRow?
    ensures Closing(x) != [] && !x.p.Metered() ==> !Gateway.Terminal(Closing(x)[0])
  {
    hide Session.Outcome;
    SessionSettles(x);
  }

  /** The part of the ledger that one run writes. */
  function Part(r: ResId, x: Session): Ledger.Table
    requires x.Possible()
  {
    Ledger.InsertAll(map[], EntriesOf(r, x))
  }

  function Single(es: seq<Ledger.Entry>): Ledger.Table { if es == [] then map[] else map[es[0].key := es[0].row] }

  function OpeningEntry(r: ResId, x: Session): seq<Ledger.Entry> {
    if Opening(x) == [] then [] else [EntryOf(r, x, Opening(x)[0])]
  }

  function ClosingEntry(r: ResId, x: Session): seq<Ledger.Entry>
    requires x.Possible()
  {
    if Closing(x) == [] then [] else [EntryOf(r, x, Closing(x)[0])]
  }

  /** A part is its two entries, under different keys. */
  lemma PartIs(r: ResId, x: Session)
    requires x.Possible() && x.user != ""
    ensures Part(r, x) == Single(OpeningEntry(r, x)) + Single(ClosingEntry(r, x))
    ensures Single(OpeningEntry(r, x)).Keys !! Single(ClosingEntry(r, x)).Keys
  {
    hide Session.Outcome, Ledger.InsertAll, Opening, Closing;
    RowsAre(x);
    var opening, closing := OpeningEntry(r, x), ClosingEntry(r, x);
    assert EntriesOf(r, x) == opening + closing;
    Ledger.InsertConcat(map[], opening, closing);
    FewEntries(map[], opening);
    assert map[] + Single(opening) == Single(opening);
    KeysWithin(r, x);
    FewEntries(Single(opening), closing);
  }

  lemma KeysWithin(r: ResId, x: Session)
    requires x.Possible()
    ensures forall e | e in OpeningEntry(r, x) :: e.key == x.idem + ":reserve" && e.row.user == x.user
    ensures forall e | e in ClosingEntry(r, x) ::
              && (e.key == x.idem + ":commit" || e.key == x.idem + ":release" || e.key == x.idem + ":commit_failed")
              && e.row.user == x.user && e.key != x.idem + ":reserve"
  {
    hide Session.Outcome, Opening, Closing;
    RowsAre(x);
    SuffixesDiffer(x.idem, x.idem);
  }

  lemma FewEntries(t: Ledger.Table, es: seq<Ledger.Entry>)
    requires |es| <= 1 && forall e | e in es :: Ledger.Acceptable(e) && e.key !in t
    ensures Ledger.InsertAll(t, es) == t + Single(es)
  {
    if es != [] {
      assert es[0] in es && es[..0] == [] && es == [es[0]];
    }
  }

  lemma SuffixesDiffer(a: string, b: string)
    ensures a + ":reserve" != b + ":commit" && a + ":reserve" != b + ":release" && a + ":commit" != b + ":release"
    ensures a + ":reserve" != b + ":commit_failed" && a + ":release" != b + ":commit_failed"
    ensures a + ":commit" != b + ":commit_failed"
    ensures a + ":reserve" == b + ":reserve" ==> a == b
    ensures a + ":commit" == b + ":commit" ==> a == b
    ensures a + ":release" == b + ":release" ==> a == b
    ensures a + ":commit_failed" == b + ":commit_failed" ==> a == b
    ensures a + ":reserve" != "" && a + ":commit" != "" && a + ":release" != "" && a + ":commit_failed" != ""
  {
    Ends(a, ":reserve");
    Ends(a, ":commit");
    Ends(a, ":release");
    Ends(a, ":commit_failed");
    Ends(b, ":reserve");
    Ends(b, ":commit");
    Ends(b, ":release");
    Ends(b, ":commit_failed");
  }

  lemma Ends(a: string, suffix: string)
    requires |suffix| >= 7
    ensures |a + suffix| == |a| + |suffix| && (a + suffix)[..|a|] == a
    ensures (a + suffix)[|a + suffix| - 1] == suffix[|suffix| - 1]
    ensures (a + suffix)[|a + suffix| - 5] == suffix[|suffix| - 5]
  {
  }

  // ---- sums over the ledger ----

  /** Credits bought, by the handler that answered the purchase. */
  type Purchases = map<nat, Job>

  function PurchaseRow(job: Job): Ledger.Row
    requires job.TopUp?
  {
    Ledger.Row(job.user, "", Ledger.Purchased, job.credits)
  }

  /** The runs are of users that are known, and a metered one has a reservation id. */
  predicate Proper(sessions: Sessions, bought: Purchases) {
    && (forall r | r in sessions ::
          sessions[r].Possible() && sessions[r].user != "" && (sessions[r].p.Metered() ==> r != ""))
    && (forall i | i in bought :: bought[i].TopUp? && bought[i].user != "")
  }

  /** Idempotency keys are distinct: the clients' among the runs, and minted ones for purchases. */
  ghost predicate Distinct(purchase: nat -> string, sessions: Sessions) {
    && (forall r, q | r in sessions && q in sessions && r != q :: sessions[r].idem != sessions[q].idem)
    && (forall i, j :: purchase(i) == purchase(j) ==> i == j)
    && (forall i :: purchase(i) != "")
    && (forall i, r, suffix | r in sessions && suffix in SUFFIXES :: purchase(i) != sessions[r].idem + suffix)
  }

  ghost predicate FromRun(sessions: Sessions, k: string) {
    exists r | r in sessions :: sessions[r].Possible() && k in Part(r, sessions[r])
  }

  ghost predicate FromPurchase(bought: Purchases, purchase: nat -> string, k: string) {
    exists i | i in bought :: k == purchase(i)
  }

  predicate Recorded(t: Ledger.Table, bought: Purchases, purchase: nat -> string) {
    forall i | i in bought :: bought[i].TopUp? && purchase(i) in t && t[purchase(i)] == PurchaseRow(bought[i])
  }

  /** The table holds what the runs and the purchases wrote, and nothing else. */
  ghost predicate Written(t: Ledger.Table, sessions: Sessions, bought: Purchases, purchase: nat -> string)
    requires Proper(sessions, bought)
  {
    && (forall r | r in sessions :: Within(Part(r, sessions[r]), t))
    && Recorded(t, bought, purchase)
    && (forall k | k in t :: FromRun(sessions, k) || FromPurchase(bought, purchase, k))
  }

  predicate Within(part: Ledger.Table, t: Ledger.Table) { forall k | k in part :: k in t && t[k] == part[k] }

  lemma PartKeys(r: ResId, x: Session, k: string)
    requires x.Possible() && x.user != "" && k in Part(r, x)
    ensures exists suffix | suffix in SUFFIXES :: k == x.idem + suffix
  {
    hide Part, Session.Outcome, Opening, Closing;
    PartIs(r, x);
    KeysWithin(r, x);
    var opening, closing := OpeningEntry(r, x), ClosingEntry(r, x);
    assert ":reserve" in SUFFIXES && ":commit" in SUFFIXES && ":release" in SUFFIXES && ":commit_failed" in SUFFIXES;
    if k in Single(opening) {
      assert opening[0] in opening;
    } else {
      assert closing[0] in closing;
    }
  }

  lemma PartsApart(sessions: Sessions, bought: Purchases, purchase: nat -> string, r: ResId, q: ResId, k: string)
    requires Proper(sessions, bought) && Distinct(purchase, sessions) && r in sessions && k in Part(r, sessions[r])
    ensures q in sessions && q != r ==> k !in Part(q, sessions[q])
    ensures forall i: nat :: k != purchase(i)
  {
    hide Part;
    PartKeys(r, sessions[r], k);
    var suffix :| suffix in SUFFIXES && k == sessions[r].idem + suffix;
    if q in sessions && q != r && k in Part(q, sessions[q]) {
      PartKeys(q, sessions[q], k);
      SuffixesDiffer(sessions[r].idem, sessions[q].idem);
      SuffixesDiffer(sessions[q].idem, sessions[r].idem);
    }
  }

  ghost function PartSum(w: (string, Ledger.Row) -> int): (ResId, Session) -> int {
    (r, x: Session) => if x.Possible() then Total(Part(r, x), w) else 0
  }

  ghost function PurchaseSum(purchase: nat -> string, w: (string, Ledger.Row) -> int): (nat, Job) -> int {
    (i: nat, job: Job) => if job.TopUp? then w(purchase(i), PurchaseRow(job)) else 0
  }

  lemma {:induction false} PurchasesSum(t: Ledger.Table, bought: Purchases, purchase: nat -> string,
      w: (string, Ledger.Row) -> int)
    requires Recorded(t, bought, purchase) && forall i, j :: purchase(i) == purchase(j) ==> i == j
    requires forall k | k in t :: FromPurchase(bought, purchase, k)
    ensures Total(t, w) == Total(bought, PurchaseSum(purchase, w))
    decreases |bought|
  {
    hide FromPurchase, Recorded, Total;
    if bought == map[] {
      NothingBought(t, bought, purchase);
      TotalZero(t, w);
      TotalZero(bought, PurchaseSum(purchase, w));
    } else {
      var i :| i in bought;
      var key := purchase(i);
      WithoutPurchase(t, bought, purchase, i);
      PurchasesSum(t - {key}, bought - {i}, purchase, w);
      TotalRemove(t, w, key);
      TotalRemove(bought, PurchaseSum(purchase, w), i);
    }
  }

  lemma NothingBought(t: Ledger.Table, bought: Purchases, purchase: nat -> string)
    requires bought == map[] && forall k | k in t :: FromPurchase(bought, purchase, k)
    ensures t == map[]
  {
  }

  lemma WithoutPurchase(t: Ledger.Table, bought: Purchases, purchase: nat -> string, i: nat)
    requires Recorded(t, bought, purchase) && (forall i, j :: purchase(i) == purchase(j) ==> i == j) && i in bought
    requires forall k | k in t :: FromPurchase(bought, purchase, k)
    ensures bought[i].TopUp? && purchase(i) in t && t[purchase(i)] == PurchaseRow(bought[i])
    ensures Recorded(t - {purchase(i)}, bought - {i}, purchase)
    ensures forall k | k in t - {purchase(i)} :: FromPurchase(bought - {i}, purchase, k)
  {
    forall k | k in t - {purchase(i)}
      ensures FromPurchase(bought - {i}, purchase, k)
    {
      var j :| j in bought && k == purchase(j);
      assert j in bought - {i};
    }
  }

  lemma WrittenWithout(t: Ledger.Table, sessions: Sessions, bought: Purchases, purchase: nat -> string, r: ResId)
    requires Proper(sessions, bought) && Distinct(purchase, sessions) && Written(t, sessions, bought, purchase)
             && r in sessions
    ensures Proper(sessions - {r}, bought) && Distinct(purchase, sessions - {r})
    ensures Written(t - Part(r, sessions[r]).Keys, sessions - {r}, bought, purchase)
    ensures (map k | k in t && k in Part(r, sessions[r]).Keys :: t[k]) == Part(r, sessions[r])
  {
    hide Part, FromRun, FromPurchase, Distinct, PurchaseRow;
    var part, left := Part(r, sessions[r]), sessions - {r};
    var t' := t - part.Keys;
    assert Within(part, t);
    DistinctWithout(purchase, sessions, r);
    forall q | q in left
      ensures Within(Part(q, left[q]), t')
    {
      assert Within(Part(q, sessions[q]), t);
      forall k | k in Part(q, sessions[q])
        ensures k !in part
      {
        PartsApart(sessions, bought, purchase, q, r, k);
      }
    }
    forall k | k in part
      ensures !FromPurchase(bought, purchase, k)
    {
      PartsApart(sessions, bought, purchase, r, r, k);
      NotPurchased(bought, purchase, k);
    }
    PurchasesLeft(t, bought, purchase, part.Keys);
    forall k | k in t'
      ensures FromRun(left, k) || FromPurchase(bought, purchase, k)
    {
      if FromRun(sessions, k) {
        OtherRun(sessions, k, r);
      }
    }
  }

  lemma DistinctWithout(purchase: nat -> string, sessions: Sessions, r: ResId)
    requires Distinct(purchase, sessions)
    ensures Distinct(purchase, sessions - {r})
  {
  }

  lemma NotPurchased(bought: Purchases, purchase: nat -> string, k: string)
    requires forall i: nat :: k != purchase(i)
    ensures !FromPurchase(bought, purchase, k)
  {
  }

  lemma PurchasesLeft(t: Ledger.Table, bought: Purchases, purchase: nat -> string, keys: set<string>)
    requires Recorded(t, bought, purchase) && forall k | k in keys :: !FromPurchase(bought, purchase, k)
    ensures Recorded(t - keys, bought, purchase)
  {
  }

  lemma OtherRun(sessions: Sessions, k: string, r: ResId)
    requires FromRun(sessions, k) && r in sessions && sessions[r].Possible() && k !in Part(r, sessions[r])
    ensures FromRun(sessions - {r}, k)
  {
    hide Part;
    var q :| q in sessions && sessions[q].Possible() && k in Part(q, sessions[q]);
    assert q in sessions - {r};
  }

  /** Any sum over the ledger is the sum over the runs' parts and the purchases. */
  lemma {:induction false} LedgerSum(t: Ledger.Table, sessions: Sessions, bought: Purchases, purchase: nat -> string,
      w: (string, Ledger.Row) -> int)
    requires Proper(sessions, bought) && Distinct(purchase, sessions) && Written(t, sessions, bought, purchase)
    ensures Total(t, w) == Total(sessions, PartSum(w)) + Total(bought, PurchaseSum(purchase, w))
    decreases |sessions|
  {
    hide Part;
    if sessions == map[] {
      assert forall k | k in t :: FromPurchase(bought, purchase, k);
      PurchasesSum(t, bought, purchase, w);
      TotalZero(sessions, PartSum(w));
    } else {
      hide Total, Written, Distinct;
      var r :| r in sessions;
      var part := Part(r, sessions[r]);
      WrittenWithout(t, sessions, bought, purchase, r);
      TotalSplit(t, w, part.Keys);
      LedgerSum(t - part.Keys, sessions - {r}, bought, purchase, w);
      TotalRemove(sessions, PartSum(w), r);
    }
  }

  // ---- what the ledger says ----

  ghost function Bought(u: UserId): (string, Ledger.Row) -> int {
    (k, row: Ledger.Row) => if row.user == u && row.kind.Purchased? then row.credits else 0
  }

  ghost function Spent(u: UserId): (string, Ledger.Row) -> int {
    (k, row: Ledger.Row) => if row.user == u && row.kind.Committed? then row.credits else 0
  }

  /** A commit or release of the reservation has been recorded. */
  ghost predicate Terminated(t: Ledger.Table, r: ResId) {
    exists k | k in t :: t[k].res == r && (t[k].kind.Committed? || t[k].kind.Released?)
  }

  ghost function Open(u: UserId, t: Ledger.Table): (string, Ledger.Row) -> int {
    (k, row: Ledger.Row) => if row.user == u && row.kind.Reserved? && !Terminated(t, row.res) then row.credits else 0
  }

  /** What the rows of a run say that it costs its user: what was committed, else nothing if it was released, else
      what was reserved. */
  function Stated(x: Session): int
    requires x.Possible()
  {
    var closing := Closing(x);
    if closing != [] && (closing[0].kind.CommittedRow? || closing[0].kind.CommittedUnknownRow?) then closing[0].credits
    else if closing != [] && closing[0].kind.ReleasedRow? then 0
    else if Opening(x) != [] then x.p.estimated
    else 0
  }

  lemma SingleTotal(es: seq<Ledger.Entry>, w: (string, Ledger.Row) -> int)
    requires |es| <= 1
    ensures Total(Single(es), w) == if es == [] then 0 else w(es[0].key, es[0].row)
  {
    hide Total;
    if es == [] {
      TotalZero(Single(es), w);
    } else {
      var e := es[0];
      var m: Ledger.Table := map[];
      TotalZero(m, w);
      assert Single(es) == m[e.key := e.row];
      TotalPut(m, w, e.key, e.row);
    }
  }

  lemma PartTotal(r: ResId, x: Session, w: (string, Ledger.Row) -> int)
    requires x.Possible() && x.user != ""
    ensures var opening, closing := OpeningEntry(r, x), ClosingEntry(r, x);
            Total(Part(r, x), w) == (if opening == [] then 0 else w(opening[0].key, opening[0].row))
                                    + (if closing == [] then 0 else w(closing[0].key, closing[0].row))
  {
    hide Total, Part, OpeningEntry, ClosingEntry, Single;
    var opening, closing := OpeningEntry(r, x), ClosingEntry(r, x);
    PartIs(r, x);
    AtMostOne(r, x);
    TotalSplit(Part(r, x), w, Single(closing).Keys);
    assert (map k | k in Part(r, x) && k in Single(closing).Keys :: Part(r, x)[k]) == Single(closing);
    assert Part(r, x) - Single(closing).Keys == Single(opening);
    SingleTotal(opening, w);
    SingleTotal(closing, w);
  }

  lemma AtMostOne(r: ResId, x: Session)
    requires x.Possible()
    ensures |OpeningEntry(r, x)| <= 1 && |ClosingEntry(r, x)| <= 1
  {
  }

  /** A reservation is terminated on the ledger exactly by its own run's closing row. */
  lemma TerminatedByRun(t: Ledger.Table, sessions: Sessions, bought: Purchases, purchase: nat -> string, r: ResId)
    requires Proper(sessions, bought) && Distinct(purchase, sessions) && Written(t, sessions, bought, purchase)
    requires r in sessions && sessions[r].p.Metered()
    ensures Terminated(t, r) <==>
            var closing := ClosingEntry(r, sessions[r]);
            closing != [] && (closing[0].row.kind.Committed? || closing[0].row.kind.Released?)
  {
    hide Part, Opening, Closing, Session.Outcome, Distinct;
    var closing := ClosingEntry(r, sessions[r]);
    PartIs(r, sessions[r]);
    assert Within(Part(r, sessions[r]), t);
    if closing != [] && (closing[0].row.kind.Committed? || closing[0].row.kind.Released?) {
      RowsOfRun(r, sessions[r]);
      assert closing[0].key in Single(closing) && closing[0].key in t;
    }
    if Terminated(t, r) {
      var k :| k in t && t[k].res == r && (t[k].kind.Committed? || t[k].kind.Released?);
      if !FromPurchase(bought, purchase, k) {
        var q :| q in sessions && k in Part(q, sessions[q]);
        assert Within(Part(q, sessions[q]), t);
        PartIs(q, sessions[q]);
        RowsOfRun(q, sessions[q]);
      }
    }
  }

  lemma RowsOfRun(r: ResId, x: Session)
    requires x.Possible() && x.user != ""
    ensures forall k | k in Single(OpeningEntry(r, x)) :: Single(OpeningEntry(r, x))[k].kind.Reserved?
    ensures forall k | k in Single(ClosingEntry(r, x)) ::
              var row := Single(ClosingEntry(r, x))[k];
              && row == ClosingEntry(r, x)[0].row
              && (row.kind.Committed? || row.kind.Released? ==> row.res == r && x.p.Metered())
  {
    hide Opening, Closing, Session.Outcome;
    RowsAre(x);
  }

  /** One run's share of what the ledger says was spent and is open. */
  lemma PartStated(t: Ledger.Table, r: ResId, x: Session, u: UserId)
    requires x.Possible() && x.user != "" && u != ""
    requires x.p.Metered() ==>
               (Terminated(t, r) <==>
                 var closing := ClosingEntry(r, x);
                 closing != [] && (closing[0].row.kind.Committed? || closing[0].row.kind.Released?))
    ensures Total(Part(r, x), Spent(u)) + Total(Part(r, x), Open(u, t)) == if x.user == u then Stated(x) else 0
    ensures Total(Part(r, x), Bought(u)) == 0
  {
    hide Total, Part, Opening, Closing, Session.Outcome, Terminated;
    PartTotal(r, x, Spent(u));
    PartTotal(r, x, Open(u, t));
    PartTotal(r, x, Bought(u));
    RowsAre(x);
    OpeningIsMetered(x);
  }

  lemma OpeningIsMetered(x: Session)
    ensures Opening(x) != [] ==> x.p.Metered()
  {
  }

  // ---- what the usage service did ----

  function RequestOf(r: ResId, x: Session): Request { Request(r, x.user, x.p.estimated, x.Ttl()) }

  /** All jobs of the usage service that concern reservations are the runs', and were not malformed. */
  ghost predicate AllRouted(sessions: Sessions, s: State) {
    forall i | i in s.jobs ::
      && Routed(sessions, s.jobs[i])
      && (s.jobs[i].TopUp? ==> s.jobs[i].user != "")
      && (s.jobs[i].Reserve? ==> s.jobs[i].req.credits > 0)
  }

  lemma {:induction false} JobsAreRouted(sessions: Sessions, c: Config, start: nat, acts: seq<Action>)
    requires forall a | a in acts && a.Begin? :: Routed(sessions, a.job)
    ensures AllRouted(sessions, Run(c, start, acts))
    decreases |acts|
  {
    if acts != [] {
      hide Routed, Apply, Run, Admissible;
      var before, a := acts[..|acts| - 1], acts[|acts| - 1];
      JobsAreRouted(sessions, c, start, before);
      assert a in acts && acts == before + [a];
      RunOn(c, start, before, a);
      NewJobs(c, Run(c, start, before), a);
    } else {
      assert Run(c, start, acts) == Init(start);
    }
  }

  lemma NewJobs(c: Config, s: State, a: Action)
    ensures forall i | i in Apply(c, s, a).jobs ::
              var job := Apply(c, s, a).jobs[i];
              || (i in s.jobs && s.jobs[i] == job)
              || (a.Begin? && a.job == job && (job.TopUp? ==> job.user != "") && (job.Reserve? ==> job.req.credits > 0))
  {
    hide Exec, OpOf, EventsOf, LeakOf, Leak, Successor, Purge;
  }

  lemma FewCalls(x: Session)
    requires x.Possible()
    ensures |x.Calls()| <= 1
  {
    hide Session.Outcome;
    SessionSettles(x);
  }

  /** A hold of a run is the one that the run asked for. */
  lemma HeldAsAsked(sessions: Sessions, s: State, told: bool, r: ResId, hold: Hold)
    requires AllRouted(sessions, s) && CreatedAnswers(s, told) && Held(r, hold) in s.history
    ensures r in sessions && sessions[r].Possible() && sessions[r].p.Metered()
    ensures hold.user == sessions[r].user && hold.amount == sessions[r].p.estimated > 0
    ensures told ==> exists i :: Told(s, i, Reserve(RequestOf(r, sessions[r])), Created)
  {
    hide Session.Calls, Session.Possible, HoldPlaced;
    assert HoldAsked(s, r, hold, told);
    var i, q :|
      Asked(s, i, Reserve(q)) && q.res == r && HoldFor(hold, q) && (told ==> Told(s, i, Reserve(q), Created));
    assert Routed(sessions, s.jobs[i]);
    assert told ==> Told(s, i, Reserve(RequestOf(r, sessions[r])), Created);
  }

  /** A settlement of a run's hold is the one that the run asked for. */
  lemma ClosedAsAsked(sessions: Sessions, s: State, told: bool, st: Settlement, hold: Hold)
    requires AllRouted(sessions, s) && SettledAnswers(s, told) && Closed(st, hold) in s.history
    ensures st.res in sessions && sessions[st.res].Possible() && sessions[st.res].p.Metered()
    ensures var x := sessions[st.res]; x.Calls() != [] && st == SettlementOf(st.res, x, x.Calls()[0])
    ensures told ==> exists i :: Told(s, i, Reconcile(st), Settled)
  {
    hide Session.Calls, Session.Possible, ClosedBy;
    assert ClosingAsked(s, st, told);
    var i :| Asked(s, i, Reconcile(st)) && (told ==> Told(s, i, Reconcile(st), Settled));
    assert Routed(sessions, s.jobs[i]);
    FewCalls(sessions[st.res]);
  }

  /** What a run's settlement call leaves of the hold. */
  function KeptBy(r: ResId, x: Session): int
    requires x.Possible() && x.Calls() != []
  {
    Kept(SettlementOf(r, x, x.Calls()[0]))
  }

  /** A run costs its user nothing without a hold, the hold until its settlement takes effect, and then what that
      keeps. */
  lemma CostOfRun(sessions: Sessions, s: State, told: bool, r: ResId)
    requires AllRouted(sessions, s) && CreatedAnswers(s, told) && SettledAnswers(s, told) && WellKept(s.history)
    requires r in sessions && sessions[r].Possible()
    ensures var x, h := sessions[r], s.history;
            && (IsHeld(h, r) ==> x.p.Metered() && x.p.estimated > 0)
            && (IsClosed(h, r) ==> IsHeld(h, r) && x.Calls() != [])
            && Cost(h, r) == if !IsHeld(h, r) then 0 else if IsClosed(h, r) then KeptBy(r, x) else x.p.estimated
  {
    hide Cost, WellKept, AllRouted, CreatedAnswers, SettledAnswers, Session.Calls, Session.Possible, Told, SettlementOf;
    CostOf(s.history, r);
    if hold :| Held(r, hold) in s.history {
      HeldAsAsked(sessions, s, told, r, hold);
    }
    if st, hold :| Closed(st, hold) in s.history && st.res == r {
      ClosedAsAsked(sessions, s, told, st, hold);
    }
  }

  // ---- the audit ----

  /** Everything that reaches the ledger from the runs and the recorded purchases. */
  ghost predicate Sent(sessions: Sessions, bought: Purchases, purchase: nat -> string, e: Ledger.Entry)
    requires Proper(sessions, bought)
  {
    || (exists r | r in sessions :: e in EntriesOf(r, sessions[r]))
    || (exists i | i in bought :: e == Ledger.Entry(purchase(i), PurchaseRow(bought[i])))
  }

  lemma PartHolds(r: ResId, x: Session, e: Ledger.Entry)
    requires x.Possible() && x.user != ""
    ensures e in EntriesOf(r, x) <==> e.key in Part(r, x) && Part(r, x)[e.key] == e.row
    ensures e in EntriesOf(r, x) ==> Ledger.Acceptable(e)
  {
    hide Part, Session.Outcome, Opening, Closing;
    RowsAre(x);
    PartIs(r, x);
    KeysWithin(r, x);
    SuffixesDiffer(x.idem, x.idem);
    assert EntriesOf(r, x) == OpeningEntry(r, x) + ClosingEntry(r, x);
    hide EntriesOf, OpeningEntry, ClosingEntry, EntryOf, Single;
    TwoHold(OpeningEntry(r, x), ClosingEntry(r, x), e);
  }

  lemma TwoHold(es: seq<Ledger.Entry>, fs: seq<Ledger.Entry>, e: Ledger.Entry)
    requires |es| <= 1 && |fs| <= 1 && (es != [] && fs != [] ==> es[0].key != fs[0].key)
    ensures var t := Single(es) + Single(fs); e in es + fs <==> e.key in t && t[e.key] == e.row
  {
  }

  /** The keys of all that is sent are distinct. */
  lemma EntriesAreConsistent(sessions: Sessions, bought: Purchases, purchase: nat -> string, d: Ledger.Entry,
      e: Ledger.Entry)
    requires Proper(sessions, bought) && Distinct(purchase, sessions)
    requires Sent(sessions, bought, purchase, d) && Sent(sessions, bought, purchase, e) && d.key == e.key
    ensures d == e && Ledger.Acceptable(d)
  {
    hide Part, EntriesOf, Distinct, Session.Possible;
    if r :| r in sessions && d in EntriesOf(r, sessions[r]) {
      PartHolds(r, sessions[r], d);
      if q :| q in sessions && e in EntriesOf(q, sessions[q]) {
        PartHolds(q, sessions[q], e);
        PartsApart(sessions, bought, purchase, r, q, d.key);
      } else {
        PartsApart(sessions, bought, purchase, r, r, d.key);
      }
    } else if q :| q in sessions && e in EntriesOf(q, sessions[q]) {
      PartHolds(q, sessions[q], e);
      PartsApart(sessions, bought, purchase, q, q, e.key);
    } else {
      PurchasesApart(sessions, bought, purchase, d, e);
    }
  }

  lemma PurchasesApart(sessions: Sessions, bought: Purchases, purchase: nat -> string, d: Ledger.Entry, e: Ledger.Entry)
    requires Proper(sessions, bought) && Distinct(purchase, sessions) && d.key == e.key
    requires exists i | i in bought :: d == Ledger.Entry(purchase(i), PurchaseRow(bought[i]))
    requires exists i | i in bought :: e == Ledger.Entry(purchase(i), PurchaseRow(bought[i]))
    ensures d == e && Ledger.Acceptable(d)
  {
    var i :| i in bought && d == Ledger.Entry(purchase(i), PurchaseRow(bought[i]));
    var j :| j in bought && e == Ledger.Entry(purchase(j), PurchaseRow(bought[j]));
    assert purchase(i) == purchase(j);
  }

  /** Whatever the order and the repetitions of deliveries, the table is what was sent. */
  lemma DeliveredIsWritten(sessions: Sessions, bought: Purchases, purchase: nat -> string, delivered: seq<Ledger.Entry>)
    requires Proper(sessions, bought) && Distinct(purchase, sessions)
    requires forall e :: e in delivered <==> Sent(sessions, bought, purchase, e)
    ensures Written(Ledger.InsertAll(map[], delivered), sessions, bought, purchase)
  {
    hide Part, EntriesOf, Distinct, Ledger.InsertAll;
    forall d, e | d in delivered && e in delivered && d.key == e.key
      ensures d == e && Ledger.Acceptable(d)
    {
      EntriesAreConsistent(sessions, bought, purchase, d, e);
    }
    Ledger.TableIsEntries(delivered);
    var t := Ledger.InsertAll(map[], delivered);
    forall r | r in sessions
      ensures Within(Part(r, sessions[r]), t)
    {
      forall k | k in Part(r, sessions[r])
        ensures k in t && t[k] == Part(r, sessions[r])[k]
      {
        var e := Ledger.Entry(k, Part(r, sessions[r])[k]);
        PartHolds(r, sessions[r], e);
        assert e in delivered;
      }
    }
    forall i | i in bought
      ensures purchase(i) in t && t[purchase(i)] == PurchaseRow(bought[i])
    {
      assert Ledger.Entry(purchase(i), PurchaseRow(bought[i])) in delivered;
    }
    forall k | k in t
      ensures FromRun(sessions, k) || FromPurchase(bought, purchase, k)
    {
      var e := Ledger.Entry(k, t[k]);
      assert e in delivered;
      if r :| r in sessions && e in EntriesOf(r, sessions[r]) {
        PartHolds(r, sessions[r], e);
      }
    }
  }

  ghost function StatedFor(u: UserId): (ResId, Session) -> int {
    (r, x: Session) => if x.Possible() && x.user == u then Stated(x) else 0
  }

  /** What the ledger says of a user is what the rows of the user's runs state, and the user's answered purchases. */
  lemma LedgerStates(t: Ledger.Table, sessions: Sessions, bought: Purchases, purchase: nat -> string, u: UserId)
    requires Proper(sessions, bought) && Distinct(purchase, sessions) && Written(t, sessions, bought, purchase)
             && u != ""
    ensures Total(t, Spent(u)) + Total(t, Open(u, t)) == Total(sessions, StatedFor(u))
    ensures Total(t, Bought(u)) == Total(bought, PurchaseSum(purchase, Bought(u)))
  {
    hide Total, Part, Distinct, Written, Stated, ClosingEntry, Terminated, Session.Possible;
    LedgerSum(t, sessions, bought, purchase, Spent(u));
    LedgerSum(t, sessions, bought, purchase, Open(u, t));
    LedgerSum(t, sessions, bought, purchase, Bought(u));
    forall r | r in sessions
      ensures PartSum(Spent(u))(r, sessions[r]) + PartSum(Open(u, t))(r, sessions[r]) == StatedFor(u)(r, sessions[r])
      ensures PartSum(Bought(u))(r, sessions[r]) == 0
    {
      if sessions[r].p.Metered() {
        TerminatedByRun(t, sessions, bought, purchase, r);
      }
      PartStated(t, r, sessions[r], u);
    }
    TotalsAdd(sessions, PartSum(Spent(u)), PartSum(Open(u, t)), StatedFor(u));
    TotalZero(sessions, PartSum(Bought(u)));
    forall i | i in bought
      ensures PurchaseSum(purchase, Spent(u))(i, bought[i]) == 0 && PurchaseSum(purchase, Open(u, t))(i, bought[i]) == 0
    {
      PurchaseWeights(t, purchase, i, bought[i], u);
    }
    TotalZero(bought, PurchaseSum(purchase, Spent(u)));
    TotalZero(bought, PurchaseSum(purchase, Open(u, t)));
  }

  lemma PurchaseWeights(t: Ledger.Table, purchase: nat -> string, i: nat, job: Job, u: UserId)
    ensures PurchaseSum(purchase, Spent(u))(i, job) == 0 && PurchaseSum(purchase, Open(u, t))(i, job) == 0
    ensures PurchaseSum(purchase, Bought(u))(i, job) == CreditsOf(u)(i, job)
  {
    if job.TopUp? {
      assert Spent(u)(purchase(i), PurchaseRow(job)) == 0 && Open(u, t)(purchase(i), PurchaseRow(job)) == 0;
      assert Bought(u)(purchase(i), PurchaseRow(job)) == if job.user == u then job.credits else 0;
    }
  }

  ghost function CreditsOf(u: UserId): (nat, Job) -> int {
    (i, job: Job) => if job.TopUp? && job.user == u then job.credits else 0
  }

  lemma PurchasesAgree(bought: Purchases, purchase: nat -> string, u: UserId)
    ensures Total(bought, PurchaseSum(purchase, Bought(u))) == Total(bought, CreditsOf(u))
  {
    hide Total, PurchaseSum, CreditsOf;
    forall i | i in bought
      ensures PurchaseSum(purchase, Bought(u))(i, bought[i]) == CreditsOf(u)(i, bought[i])
    {
      PurchaseWeights(map[], purchase, i, bought[i], u);
    }
    TotalSame(bought, PurchaseSum(purchase, Bought(u)), CreditsOf(u));
  }

  function OwnersOf(sessions: Sessions): Owners { map r | r in sessions :: sessions[r].user }

  /** The runs' settlements name their own users, and the history is about the runs' reservations. */
  lemma HistoryIsOwned(sessions: Sessions, s: State, told: bool)
    requires AllRouted(sessions, s) && CreatedAnswers(s, told) && SettledAnswers(s, told) && WellKept(s.history)
    ensures OwnSettlements(s.history)
    ensures forall e | e in s.history :: Owned(OwnersOf(sessions), e)
  {
    hide AllRouted, CreatedAnswers, SettledAnswers, WellKept, Session.Calls, Session.Possible, Told;
    forall e | e in s.history
      ensures Owned(OwnersOf(sessions), e) && (e.Closed? ==> e.st.user == e.hold.user)
    {
      if e.Held? {
        HeldAsAsked(sessions, s, told, e.res, e.hold);
      } else if e.Closed? {
        ClosedWasHeld(s.history, e.st, e.hold);
        HeldAsAsked(sessions, s, told, e.st.res, e.hold);
        ClosedAsAsked(sessions, s, told, e.st, e.hold);
      }
    }
  }

  lemma {:induction false} ClosedWasHeld(h: seq<Event>, st: Settlement, hold: Hold)
    requires WellKept(h) && Closed(st, hold) in h
    ensures Held(st.res, hold) in h
    decreases |h|
  {
    var front := h[..|h| - 1];
    if Closed(st, hold) in front {
      ClosedWasHeld(front, st, hold);
    }
  }

  ghost function CostedFor(u: UserId, h: seq<Event>): (ResId, Session) -> int {
    (r, x: Session) => if x.user == u then Cost(h, r) else 0
  }

  lemma {:induction false} CostsOfRuns(sessions: Sessions, h: seq<Event>, u: UserId)
    ensures Total(OwnersOf(sessions), CostFor(u, h)) == Total(sessions, CostedFor(u, h))
    decreases |sessions|
  {
    hide Total, Cost;
    if sessions == map[] {
      TotalZero(sessions, CostedFor(u, h));
      TotalZero(OwnersOf(sessions), CostFor(u, h));
    } else {
      var r :| r in sessions;
      CostsOfRuns(sessions - {r}, h, u);
      assert OwnersOf(sessions) - {r} == OwnersOf(sessions - {r});
      TotalRemove(sessions, CostedFor(u, h), r);
      TotalRemove(OwnersOf(sessions), CostFor(u, h), r);
    }
  }

  /** What the ledger says that a user has. */
  ghost function LedgerBalance(t: Ledger.Table, u: UserId, grant: int): int {
    grant + Total(t, Bought(u)) - Total(t, Spent(u)) - Total(t, Open(u, t))
  }

  /** The runs and purchases have keys of their own, and the ledger is delivered what arrives of their rows. */
  ghost predicate Audited(sessions: Sessions, bought: Purchases, purchase: nat -> string,
      delivered: seq<Ledger.Entry>)
  {
    && Proper(sessions, bought) && Distinct(purchase, sessions)
    && forall e :: e in delivered <==> Sent(sessions, bought, purchase, e)
  }

  /** By how much the rows of the user's runs overstate what the runs cost. */
  ghost function Misstated(u: UserId, h: seq<Event>): (ResId, Session) -> int {
    (r, x: Session) => if x.Possible() && x.user == u then Stated(x) - Cost(h, r) else 0
  }

  /** The credits that were minted for the user, but that no purchase on the ledger accounts for. */
  ghost function Unrecorded(s: State, u: UserId, bought: Purchases): int {
    Sum(s.history, MintedFor(Only(u))) - Total(bought, CreditsOf(u))
  }

  /** Main result, for every run of the usage service with any faults, lost replies and crashes, and whatever the
      gateway's runs hear, send and lose on the way to the ledger: the balance in Redis is what the ledger says,
      plus what the rows of the user's runs misstate, plus the purchases that are not recorded. Deliveries may come
      in any order and any number of times. */
  lemma GatewayIsAuditable(sessions: Sessions, bought: Purchases, purchase: nat -> string, delivered: seq<Ledger.Entry>,
      c: Config, start: nat, acts: seq<Action>, u: UserId)
    requires (forall a | a in acts && a.Begin? :: Routed(sessions, a.job)) && u != ""
    requires Audited(sessions, bought, purchase, delivered)
    ensures var s := Run(c, start, acts);
            var granted := if u in s.store.balances then c.initialCredits else 0;
            Balance(s.store, u) == LedgerBalance(Ledger.InsertAll(map[], delivered), u, granted)
              + Total(sessions, Misstated(u, s.history)) + Unrecorded(s, u, bought)
  {
    hide Total, Sum, Run, Routed, NoLostReply, Ledger.InsertAll, Proper, Distinct, Sent, Written, WellKept, Cost;
    hide CreatedAnswers, SettledAnswers, PurchasesAnswered, AllRouted, Owned, Bought, Spent, Open, OwnSettlements;
    var s := Run(c, start, acts);
    var t := Ledger.InsertAll(map[], delivered);
    JobsAreRouted(sessions, c, start, acts);
    AnswersAreTrue(c, start, acts, u);
    HistoryIsWellKept(c, start, acts);
    HistoryIsOwned(sessions, s, NoLostReply(acts));
    BalanceByCosts(OwnersOf(sessions), c, start, acts, u);
    CostsOfRuns(sessions, s.history, u);
    DeliveredIsWritten(sessions, bought, purchase, delivered);
    LedgerStates(t, sessions, bought, purchase, u);
    PurchasesAgree(bought, purchase, u);
    RunsArePossible(sessions, bought);
    TotalsAdd(sessions, CostedFor(u, s.history), Misstated(u, s.history), StatedFor(u));
  }

  lemma RunsArePossible(sessions: Sessions, bought: Purchases)
    requires Proper(sessions, bought)
    ensures forall r | r in sessions :: sessions[r].Possible()
  {
  }
}

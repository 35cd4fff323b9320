/** The ledger: a table with one row per idempotency key, the first one delivered. */
module Ledger {
  datatype Kind = Purchased | Reserved | Committed | Released | CommitFailed | Unmetered

  datatype Row = Row(user: string, res: string, kind: Kind, credits: int)

  datatype Entry = Entry(key: string, row: Row)

  type Table = map<string, Row>

  datatype Reply = BadRequest | Recorded(row: Row)

  predicate Acceptable(e: Entry) { e.key != "" && e.row.user != "" }

  function Insert(t: Table, e: Entry): Table {
    if !Acceptable(e) || e.key in t then t else t[e.key := e.row]
  }

  function InsertAll(t: Table, es: seq<Entry>): Table {
    if es == [] then t else Insert(InsertAll(t, es[..|es| - 1]), es[|es| - 1])
  }

  class Server {
    var table: Table

    constructor ()
      ensures table == map[]
    {
      table := map[];
    }

    /** handleEvents: a key already there keeps its row, and the answer shows that row. */
    method HandleEvent(e: Entry) returns (reply: Reply)
      modifies this
      ensures table == Insert(old(table), e)
      ensures reply.BadRequest? <==> e.key == "" || e.row.user == ""
      ensures reply.BadRequest? ==> table == old(table)
      ensures reply.Recorded? ==>
                table == if e.key in old(table) then old(table) else old(table)[e.key := e.row]
      ensures reply.Recorded? ==> e.key in table && reply.row == table[e.key]
    {
      if e.key == "" || e.row.user == "" {
        return BadRequest;
      }
      if e.key !in table {
        table := table[e.key := e.row];
      }
      reply := Recorded(table[e.key]);
    }
  }

  lemma {:induction false} InsertConcat(t: Table, es: seq<Entry>, fs: seq<Entry>)
    ensures InsertAll(t, es + fs) == InsertAll(InsertAll(t, es), fs)
    decreases |fs|
  {
    if fs == [] {
      assert es + fs == es;
    } else {
      InsertConcat(t, es, fs[..|fs| - 1]);
      assert (es + fs)[..|es + fs| - 1] == es + fs[..|fs| - 1];
    }
  }

  /** Rows stay: a key once recorded is recorded with the same row for ever. */
  lemma {:induction false} RowsStay(t: Table, es: seq<Entry>)
    ensures forall k | k in t :: k in InsertAll(t, es) && InsertAll(t, es)[k] == t[k]
    ensures forall e | e in es && Acceptable(e) :: e.key in InsertAll(t, es)
    decreases |es|
  {
    if es != [] {
      RowsStay(t, es[..|es| - 1]);
    }
  }

  /** Delivering events under keys already delivered, any number of times, in any order, with the same row or
      another one, changes nothing. */
  lemma {:induction false} ReplayChangesNothing(t: Table, es: seq<Entry>, again: seq<Entry>)
    requires forall e | e in again && Acceptable(e) :: exists d :: d in es && Acceptable(d) && d.key == e.key
    ensures InsertAll(t, es + again) == InsertAll(t, es)
    decreases |again|
  {
    if again == [] {
      assert es + again == es;
    } else {
      ReplayChangesNothing(t, es, again[..|again| - 1]);
      assert (es + again)[..|es + again| - 1] == es + again[..|again| - 1];
      assert again[|again| - 1] in again;
      RowsStay(t, es);
    }
  }

  /** No two different rows under one key. */
  ghost predicate Consistent(es: seq<Entry>) {
    forall d, e | d in es && e in es && d.key == e.key :: d == e
  }

  lemma {:induction false} TableIsEntries(es: seq<Entry>)
    requires Consistent(es)
    ensures forall e | e in es && Acceptable(e) :: e.key in InsertAll(map[], es) && InsertAll(map[], es)[e.key] == e.row
    ensures forall k | k in InsertAll(map[], es) :: k != "" && Entry(k, InsertAll(map[], es)[k]) in es
    decreases |es|
  {
    if es != [] {
      var front, last := es[..|es| - 1], es[|es| - 1];
      assert forall e | e in front :: e in es;
      assert last in es;
      TableIsEntries(front);
    }
  }

  /** With distinct keys the order of delivery, and repetition, do not matter. */
  lemma DeliveryOrderIsIrrelevant(es: seq<Entry>, fs: seq<Entry>)
    requires Consistent(es) && forall e :: e in es <==> e in fs
    ensures InsertAll(map[], es) == InsertAll(map[], fs)
  {
    TableIsEntries(es);
    TableIsEntries(fs);
    var t, u := InsertAll(map[], es), InsertAll(map[], fs);
    forall k | k in t
      ensures k in u && u[k] == t[k]
    {
      assert Entry(k, t[k]) in fs;
      EntriesAcceptable(es, k);
    }
    forall k | k in u
      ensures k in t
    {
      assert Entry(k, u[k]) in es;
      EntriesAcceptable(fs, k);
    }
  }

  lemma {:induction false} EntriesAcceptable(es: seq<Entry>, k: string)
    requires k in InsertAll(map[], es)
    ensures Acceptable(Entry(k, InsertAll(map[], es)[k]))
    decreases |es|
  {
    if k in InsertAll(map[], es[..|es| - 1]) {
      EntriesAcceptable(es[..|es| - 1], k);
    }
  }
}

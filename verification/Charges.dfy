/** What each kind of run charges, answers and records, in the numbers of the request and of the provider. */
module Charges {
  import opened Options
  import opened Adapter
  import opened Gateway
  import Tokens

  /** The least number of credits that covers the tokens. */
  predicate Worth(p: Settings, tokens: int, credits: int) {
    var per := if p.tokensPerCredit < 1 then 1 else p.tokensPerCredit;
    if tokens <= 0 then credits == 0 else (credits - 1) * per < tokens <= credits * per
  }

  lemma CreditsAreWorth(p: Settings, tokens: int)
    ensures Worth(p, tokens, p.Credits(tokens))
  {
    Tokens.CreditsCover(tokens, p.tokensPerCredit);
  }

  /** The hold covers a token for each byte of input, 32 more, and the whole output, and no credit less would. */
  lemma HoldIsWorth(p: Settings, inputBytes: nat, maxTokens: int)
    requires Holds(p, inputBytes, maxTokens) && inputBytes > 0 && maxTokens > 0
    ensures Worth(p, inputBytes + 32 + maxTokens, p.estimated)
  {
    CreditsAreWorth(p, inputBytes + 32 + maxTokens);
  }

  /** The client stays for the first of these, at least n: the answer to its reservation, that one's ledger event, its
      settlement, its closing ledger event, and the last frame. */
  predicate StaysFor(client: Client, n: nat) { client.Stays? || n <= client.before }

  /** The event that closes a run with a commit. */
  function Kind(accepted: bool, kind: RowKind): RowKind { if accepted then kind else CommitFailedRow }

  /** The ledger events of a metered run: that of the reservation if the client is there for it, and the closing one. */
  predicate Writes(p: Settings, client: Client, rows: seq<Row>, closing: Row) {
    rows == (if StaysFor(client, 2) then [Row(ReservedRow, p.estimated), closing] else [closing])
  }

  lemma RowsWritten(p: Settings, client: Client, row: Row)
    requires p.billing.Platform?
    ensures Writes(p, client, Reservation(p, client) + Recorded(p, client, row), row)
  {
  }

  /** A metered buffered chat: released on failure, else charged what was reported, or its hold if nothing was. */
  lemma BufferedCharge(p: Settings, reply: Buffered, client: Client, accepted: bool)
    requires p.billing.Platform?
    ensures var o := BufferedOutcome(p, reply, client, accepted);
            && o.frames == [] && (o.httpError <==> reply.Failed?) && |o.calls| == 1
            && match reply
               case Failed(_) =>
                 o.calls == [ReleaseCall] && Writes(p, client, o.rows, Row(ReleasedRow, p.estimated))
               case Total(n) =>
                 && o.calls[0].CommitCall?
                 && (if n > 0 then Worth(p, n, o.calls[0].credits) else o.calls[0].credits == p.estimated)
                 && Writes(p, client, o.rows,
                           Row(if !accepted then CommitFailedRow else if n > 0 then CommittedRow
                               else CommittedUnknownRow,
                               o.calls[0].credits))
  {
    if reply.Total? {
      CreditsAreWorth(p, reply.n);
    }
  }

  /** A metered generate whose client stays: released on failure, else charged what was reported; and an HTTP error
      exactly if the upstream failed or the commit was not accepted. */
  lemma GenerateCharge(p: Settings, reply: Buffered, accepted: bool)
    requires p.billing.Platform?
    ensures var o := GenerateOutcome(p, reply, Stays, accepted);
            && o.frames == [] && (o.httpError <==> reply.Failed? || !accepted) && |o.calls| == 1
            && match reply
               case Failed(_) => o.calls == [ReleaseCall] && Writes(p, Stays, o.rows, Row(ReleasedRow, p.estimated))
               case Total(n) =>
                 && o.calls[0].CommitCall? && Worth(p, n, o.calls[0].credits)
                 && Writes(p, Stays, o.rows, Row(Kind(accepted, CommittedRow), o.calls[0].credits))
  {
    if reply.Total? {
      CreditsAreWorth(p, reply.n);
    }
  }

  /** What a generate leaves out when its client leaves: from that point on its calls and events, nothing else. */
  lemma GenerateWithout(p: Settings, reply: Buffered, client: Client, accepted: bool)
    requires p.billing.Platform?
    ensures var o := GenerateOutcome(p, reply, client, accepted);
            var whole := GenerateOutcome(p, reply, Stays, accepted);
            && o.calls == (if StaysFor(client, 3) then whole.calls else [])
            && o.rows == (if StaysFor(client, 4) then whole.rows
                          else if StaysFor(client, 2) then whole.rows[..1] else [])
            && (o.httpError <==> whole.httpError || !StaysFor(client, 3))
  {
  }

  /** A generate with the user's own key: no call, and one event about the tokens if it succeeds. */
  lemma OwnKeyGenerate(p: Settings, reply: Buffered, accepted: bool)
    requires p.billing.Byok?
    ensures var o := GenerateOutcome(p, reply, Stays, accepted);
            && o.calls == [] && (o.httpError <==> reply.Failed?)
            && (reply.Failed? ==> o.rows == [])
            && (reply.Total? ==> |o.rows| == 1 && o.rows[0].kind == ByokRow && Worth(p, reply.n, o.rows[0].credits))
  {
    if reply.Total? {
      CreditsAreWorth(p, reply.n);
    }
  }

  /** The event of a chat that is not metered. */
  predicate OwnEvent(billing: Billing, row: Row) {
    match billing
    case Platform => false
    case Byok => row == Row(ByokRow, 0)
    case Local => row == Row(LocalRow, 0)
    case Mock => row == Row(MockRow, 0)
  }

  /** A chat that is not metered, on either route: no call, and one event of its own kind, whatever happens, as long as
      the client stays until then. */
  lemma UnmeteredChat(p: Settings, up: Upstream, stuck: Option<nat>, reply: Buffered, client: Client, accepted: bool)
    requires !p.billing.Platform?
    ensures var o := ChatOutcome(p, up, stuck, client, accepted);
            o.calls == [] && if StaysFor(client, 3) then |o.rows| == 1 && OwnEvent(p.billing, o.rows[0])
                else o.rows == []
    ensures var o := BufferedOutcome(p, reply, client, accepted);
            o.calls == [] && if StaysFor(client, 3) then |o.rows| == 1 && OwnEvent(p.billing, o.rows[0])
                else o.rows == []
    ensures BufferedOutcome(p, reply, client, accepted).httpError <==> reply.Failed?
  {
    hide Relay, Billable, SawUsage, SawError, Actual, ForwardedAll;
  }

  /** An upstream that refuses, or cannot be reached: an HTTP error, no frame, and the hold is released. */
  lemma RefusedChat(p: Settings, stuck: Option<nat>, client: Client, accepted: bool)
    ensures var o := ChatOutcome(p, Refused, stuck, client, accepted);
            && o.frames == [] && o.httpError
            && (p.billing.Platform? ==>
                  o.calls == [ReleaseCall] && Writes(p, client, o.rows, Row(ReleasedRow, p.estimated)))
  {
    NoFlags(p);
    hide Billable, SawUsage, SawError, Actual;
  }

  /** A metered stream, from what was delivered of its trace to a willing client: charged the reported usage if the
      whole trace came and reports one, released if it failed before its first delta, and charged its hold
      otherwise. */
  lemma StreamCharge(p: Settings, up: Upstream, trace: seq<Event>, cut: nat, k: nat, client: Client, accepted: bool)
    requires p.billing.Platform? && up.Sent? && cut <= |trace| && TraceCut(trace, cut)
    requires k <= |trace| && DeliversUpTo(up, trace, k)
    ensures var o := ChatOutcome(p, up, None, client, accepted);
            var whole := k == |trace| == |up.frames| && !up.broken && !trace[k - 1].Error?;
            && |o.calls| == 1
            && if whole && cut + 1 < |trace| then
                 && o.calls[0].CommitCall? && Worth(p, trace[cut].total.value, o.calls[0].credits)
                 && Writes(p, client, o.rows, Row(Kind(accepted, CommittedRow), o.calls[0].credits))
               else if whole || (k > 0 && cut > 0) then
                 && o.calls[0] == CommitCall(p.estimated)
                 && Writes(p, client, o.rows, Row(Kind(accepted, CommittedUnknownRow), p.estimated))
               else
                 o.calls[0] == ReleaseCall && Writes(p, client, o.rows, Row(ReleasedRow, p.estimated))
  {
    hide Relay, Billable, SawUsage, SawError, Actual, ForwardedAll, DeliversUpTo, Reservation, Recorded, Writes, Worth,
         StaysFor;
    RelaySeesTrace(up.frames, up.broken, trace, k);
    CutShortFails(up, trace, k);
    FlagsOfBeginning(p, trace, cut, k);
    var seen := trace[..k];
    var failed := up.broken || |up.frames| > k || SawError(seen);
    RowsWritten(p, client, SettleChat(p, failed, Billable(seen), SawUsage(seen), Actual(p, seen), accepted).1);
    if cut + 1 < |trace| {
      CreditsAreWorth(p, trace[cut].total.value);
    }
  }

  /** The gateway adds its own error, as the last frame, exactly after a relay that failed once the stream was open, had
      no error in it, and has a client that stays until then. */
  lemma OwnError(p: Settings, frames: seq<Frame>, broken: bool, stuck: Option<nat>, client: Client, accepted: bool)
    ensures var got := ChatOutcome(p, Sent(frames, broken), stuck, client, accepted).frames;
            var r := Relay(frames, broken, stuck);
            var adds := r.failed && r.seen != [] && (forall e | e in r.seen :: !e.Error?) && StaysFor(client, 5);
            |got| == r.written + (if adds then 1 else 0) && (adds ==> got[r.written] == Error("stream_failed"))
  {
    hide Relay, Billable, SawUsage, Actual, ForwardedAll;
    RelayBounds(frames, broken, stuck);
  }

  /** A client that stops reading gets the frames before that, and the gateway counts the one that it could not
      write. */
  lemma {:induction false} StuckRelay(frames: seq<Frame>, broken: bool, n: nat)
    requires n < |frames| && forall i | 0 <= i <= n :: frames[i].Decoded?
    ensures var r := Relay(frames, broken, Some(n));
            r.failed && r.written == n && |r.seen| == n + 1 && forall i | 0 <= i <= n :: r.seen[i] == frames[i].event
    decreases n
  {
    if n > 0 {
      StuckRelay(frames[1..], broken, n - 1);
    }
  }
}

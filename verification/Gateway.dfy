/** The gateway's runs: reserve, relay the upstream, settle, and report to the client and the ledger. */
module Gateway {
  import opened Options
  import opened Adapter
  import Tokens

  datatype Billing = Platform | Byok | Local | Mock

  /** What arrives on the upstream response: decodable events, or bytes that are no event. */
  datatype Frame = Decoded(event: Event) | Garbage

  /** The upstream refuses (or cannot be reached), or sends frames and then ends or breaks off. */
  datatype Upstream = Refused | Sent(frames: seq<Frame>, broken: bool)

  datatype SettleCall = CommitCall(credits: int) | ReleaseCall

  datatype RowKind =
    | ReservedRow | CommittedRow | CommittedUnknownRow | ReleasedRow | CommitFailedRow
    | ByokRow | LocalRow | MockRow

  datatype Row = Row(kind: RowKind, credits: int)

  /** Everything a run does to the outside: frames the client read, an HTTP error instead of a stream,
      settlement calls to the usage service, events for the ledger. */
  datatype Outcome = Outcome(frames: seq<Event>, httpError: bool, calls: seq<SettleCall>, rows: seq<Row>)

  /** The points at which a run still uses the client's own request, in their order: the answer to the reservation, its
      ledger event, the settlement, its ledger event, the last frame. A chat's settlement has a context of its own. */
  const ASKING := 0
  const RESERVING := 1
  const SETTLING := 2
  const RECORDING := 3
  const CLOSING := 4

  /** A client that stays, or is gone from some point on. */
  datatype Client = Stays | Leaves(before: nat) {
    predicate There(point: nat) { Stays? || point < before }
  }

  datatype Settings = Settings(billing: Billing, estimated: int, tokensPerCredit: int) {
    predicate Metered() { billing.Platform? }
    function Credits(tokens: int): (n: int)
      ensures n >= 0
    {
      Tokens.CreditsCover(tokens, tokensPerCredit);
      Tokens.ToCredits(tokens, tokensPerCredit)
    }
  }

  /** A run starts once its reservation, if it needs one, was answered with success, to a client that is still there. */
  predicate Starts(p: Settings, client: Client, reserved: bool) { p.Metered() ==> reserved && client.There(ASKING) }

  /** The event as it is forwarded: credits are the gateway's to decide. */
  function Forwarded(p: Settings, e: Event): Event {
    if !e.Usage? then e
    else if !p.Metered() then e.(credits := 0)
    else if e.total.Some? then e.(credits := p.Credits(e.total.value))
    else e
  }

  function ForwardedAll(p: Settings, es: seq<Event>): (r: seq<Event>)
    ensures |r| == |es|
  {
    seq(|es|, i requires 0 <= i < |es| => Forwarded(p, es[i]))
  }

  // ---- the flags, as functions of the events the relay has seen ----

  predicate Billable(es: seq<Event>) { exists e | e in es :: IsDelta(e) }
  predicate SawUsage(es: seq<Event>) { exists e | e in es :: e.Usage? }
  predicate SawError(es: seq<Event>) { exists e | e in es :: e.Error? }

  /** The credits of the last usage block of a metered run, 0 without one. */
  function Actual(p: Settings, es: seq<Event>): (n: int)
    ensures n >= 0
  {
    if es == [] then 0
    else var e := es[|es| - 1];
         if p.Metered() && e.Usage? && e.total.Some? then p.Credits(e.total.value) else Actual(p, es[..|es| - 1])
  }

  // ---- settlement ----

  /** settleChat and commitChat */
  function SettleChat(p: Settings, failed: bool, billable: bool, sawUsage: bool, actual: int,
      accepted: bool): (seq<SettleCall>, Row) {
    match p.billing
    case Byok => ([], Row(ByokRow, 0))
    case Local => ([], Row(LocalRow, 0))
    case Mock => ([], Row(MockRow, 0))
    case Platform =>
      if !failed && sawUsage then
        ([CommitCall(actual)], Row(if accepted then CommittedRow else CommitFailedRow, actual))
      else if failed && !billable then
        ([ReleaseCall], Row(ReleasedRow, p.estimated))
      else
        ([CommitCall(p.estimated)], Row(if accepted then CommittedUnknownRow else CommitFailedRow, p.estimated))
  }

  predicate Terminal(r: Row) {
    r.kind.CommittedRow? || r.kind.CommittedUnknownRow? || r.kind.ReleasedRow? || r.kind.CommitFailedRow?
  }

  /** How the relay ended: how many frames it took in, how many it wrote, and whether it failed. */
  datatype Relayed = Relayed(seen: seq<Event>, written: nat, failed: bool)

  /** The relay's reading of a body: it stops at the first undecodable frame and at the first write that
      fails (write number stuck), after its flags have taken the event in. */
  function Relay(frames: seq<Frame>, broken: bool, stuck: Option<nat>): Relayed
    decreases |frames|
  {
    if frames == [] then Relayed([], 0, broken)
    else if frames[0].Garbage? then Relayed([], 0, true)
    else if stuck == Some(0) then Relayed([frames[0].event], 0, true)
    else
      var rest := Relay(frames[1..], broken, if stuck.Some? then Some(stuck.value - 1) else None);
      Relayed([frames[0].event] + rest.seen, 1 + rest.written, rest.failed)
  }

  const STREAM_FAILED := Error("stream_failed")

  /** The flags that the relay callback sets, and what it wrote to the client. */
  datatype Flags = Flags(streaming: bool, billable: bool, sawUsage: bool, sawError: bool, actual: int)

  function FlagsOf(p: Settings, seen: seq<Event>): Flags {
    Flags(seen != [], Billable(seen), SawUsage(seen), SawError(seen), Actual(p, seen))
  }

  /** PostSSE with the relay callback: stuck is the number of the client write that fails. */
  method RelayEvents(p: Settings, upstream: seq<Frame>, broken: bool, stuck: Option<nat>)
    returns (flags: Flags, written: seq<Event>, relayFailed: bool)
    ensures var r := Relay(upstream, broken, stuck);
            && flags == FlagsOf(p, r.seen) && relayFailed == r.failed
            && r.written <= |r.seen| && written == ForwardedAll(p, r.seen[..r.written])
  {
    hide Relay, Actual, ForwardedAll, Billable, SawUsage, SawError, SoFar, Tokens.ToCredits;
    var streaming, billableStarted, sawUsage, sawError := false, false, false, false;
    var actualCredits := 0;
    written := [];
    relayFailed := broken;
    ghost var seen: seq<Event> := [];
    NoFlags(p);
    SoFarStart(upstream, broken, stuck);
    var i := 0;
    while i < |upstream|
      invariant 0 <= i <= |upstream| && |seen| == i
      invariant written == ForwardedAll(p, seen)
      invariant Flags(streaming, billableStarted, sawUsage, sawError, actualCredits) == FlagsOf(p, seen)
      invariant SoFar(upstream, broken, stuck, i, seen)
      invariant relayFailed == broken
    {
      if upstream[i].Garbage? {
        relayFailed := true;
        break;
      }
      var event := upstream[i].event;
      FlagsOneMore(p, seen, event);
      match event {
        case TextDelta(_) => billableStarted := true;
        case ToolCallDelta(_) => billableStarted := true;
        case Usage(total, _) =>
          sawUsage := true;
          if !p.Metered() {
            event := event.(credits := 0);
          } else if total.Some? {
            actualCredits := p.Credits(total.value);
            event := event.(credits := actualCredits);
          }
        case Error(_) => sawError := true;
        case _ =>
      }
      SoFarNext(upstream, broken, stuck, i, seen);
      streaming := true;
      seen := seen + [upstream[i].event];
      if stuck == Some(i) {
        relayFailed := true;
        assert seen[..i] == seen[..|seen| - 1];
        break;
      }
      written := written + [event];
      i := i + 1;
    }
    SoFarEnd(upstream, broken, stuck, i, seen, relayFailed);
    flags := Flags(streaming, billableStarted, sawUsage, sawError, actualCredits);
    assert i == |seen| ==> seen[..i] == seen;
  }

  /** handleChat with stream: true, after a successful reservation when the run is metered.
      stuck is the number of the client write that fails, accepted whether the usage service accepts the
      settlement. */
  method StreamChat(p: Settings, up: Upstream, stuck: Option<nat>, client: Client, accepted: bool) returns (o: Outcome)
    ensures o == ChatOutcome(p, up, stuck, client, accepted)
  {
    hide Relay, Actual, ForwardedAll, Billable, SawUsage, SawError, SettleChat;
    NoFlags(p);
    var flags, frames, relayFailed := Flags(false, false, false, false, 0), [], true;
    match up {
      case Refused =>
      case Sent(upstream, broken) => flags, frames, relayFailed := RelayEvents(p, upstream, broken, stuck);
    }
    var (calls, row) :=
      SettleChat(p, relayFailed || flags.sawError, flags.billable, flags.sawUsage, flags.actual, accepted);
    if relayFailed && flags.streaming && !flags.sawError && client.There(CLOSING) {
      frames := frames + [STREAM_FAILED];
    }
    o := Outcome(frames, relayFailed && !flags.streaming, calls, Reservation(p, client) + Recorded(p, client, row));
  }

  /** The relay has taken in the first i frames, seen, and written them all. */
  ghost predicate SoFar(frames: seq<Frame>, broken: bool, stuck: Option<nat>, i: nat, seen: seq<Event>) {
    i <= |frames| && |seen| == i && (stuck.Some? ==> i <= stuck.value) &&
    var rest := Relay(frames[i..], broken, if stuck.Some? then Some(stuck.value - i) else None);
    Relay(frames, broken, stuck) == Relayed(seen + rest.seen, i + rest.written, rest.failed)
  }

  lemma SoFarStart(frames: seq<Frame>, broken: bool, stuck: Option<nat>)
    ensures SoFar(frames, broken, stuck, 0, [])
  {
  }

  lemma SoFarNext(frames: seq<Frame>, broken: bool, stuck: Option<nat>, i: nat, seen: seq<Event>)
    requires SoFar(frames, broken, stuck, i, seen) && i < |frames| && frames[i].Decoded?
    ensures stuck != Some(i) ==> SoFar(frames, broken, stuck, i + 1, seen + [frames[i].event])
    ensures stuck == Some(i) ==>
              Relay(frames, broken, stuck) == Relayed(seen + [frames[i].event], i, true)
              && !SoFar(frames, broken, stuck, i, seen + [frames[i].event])
  {
    var left := if stuck.Some? then Some(stuck.value - i) else None;
    assert frames[i..][1..] == frames[i + 1..];
    if stuck != Some(i) {
      var rest := Relay(frames[i + 1..], broken, if stuck.Some? then Some(stuck.value - (i + 1)) else None);
      assert Relay(frames[i..], broken, left) == Relayed([frames[i].event] + rest.seen, 1 + rest.written, rest.failed);
      assert seen + ([frames[i].event] + rest.seen) == (seen + [frames[i].event]) + rest.seen;
    }
  }

  lemma SoFarEnd(frames: seq<Frame>, broken: bool, stuck: Option<nat>, i: nat, seen: seq<Event>, failed: bool)
    requires SoFar(frames, broken, stuck, i, seen) || (failed && Relay(frames, broken, stuck) == Relayed(seen, i, true))
    requires SoFar(frames, broken, stuck, i, seen) ==>
               (i == |frames| && failed == broken) || (i < |frames| && frames[i].Garbage? && failed)
    ensures Relay(frames, broken, stuck) == Relayed(seen, i, failed)
  {
  }

  lemma NoFlags(p: Settings)
    ensures !Billable([]) && !SawUsage([]) && !SawError([]) && Actual(p, []) == 0 && ForwardedAll(p, []) == []
  {
  }

  /** The ledger event of the reservation. */
  function Reservation(p: Settings, client: Client): seq<Row> {
    if p.Metered() && client.There(RESERVING) then [Row(ReservedRow, p.estimated)] else []
  }

  /** The closing ledger event of a chat: sent for a metered run in any case, else while the client is there. */
  function Recorded(p: Settings, client: Client, row: Row): seq<Row> {
    if p.Metered() || client.There(SETTLING) then [row] else []
  }

  lemma FlagsOneMore(p: Settings, es: seq<Event>, e: Event)
    ensures Billable(es + [e]) == (Billable(es) || IsDelta(e))
    ensures SawUsage(es + [e]) == (SawUsage(es) || e.Usage?)
    ensures SawError(es + [e]) == (SawError(es) || e.Error?)
    ensures ForwardedAll(p, es + [e]) == ForwardedAll(p, es) + [Forwarded(p, e)]
    ensures forall n: nat | n <= |es| :: ForwardedAll(p, es[..n]) == ForwardedAll(p, es)[..n]
    ensures Actual(p, es + [e])
            == if p.Metered() && e.Usage? && e.total.Some? then p.Credits(e.total.value) else Actual(p, es)
  {
  }

  /** The run as its source promises it, from what the relay saw. */
  function ChatOutcome(p: Settings, up: Upstream, stuck: Option<nat>, client: Client, accepted: bool): Outcome {
    var r := if up.Refused? then Relayed([], 0, true) else Relay(up.frames, up.broken, stuck);
    RelayBounds(if up.Refused? then [] else up.frames, up.Refused? || up.broken, stuck);
    var failed := r.failed || SawError(r.seen);
    var (calls, row) := SettleChat(p, failed, Billable(r.seen), SawUsage(r.seen), Actual(p, r.seen), accepted);
    var told := !r.failed || r.seen == [] || SawError(r.seen) || !client.There(CLOSING);
    var closing := if told then [] else [STREAM_FAILED];
    Outcome(ForwardedAll(p, r.seen[..r.written]) + closing, r.failed && r.seen == [], calls,
            Reservation(p, client) + Recorded(p, client, row))
  }

  lemma {:induction false} RelayBounds(frames: seq<Frame>, broken: bool, stuck: Option<nat>)
    ensures var r := Relay(frames, broken, stuck);
            && r.written <= |r.seen| <= r.written + 1
            && (r.written < |r.seen| ==> r.failed && stuck.Some?)
            && (!r.failed ==> !broken && r.written == |r.seen| == |frames|)
    decreases |frames|
  {
    if frames != [] && frames[0].Decoded? && stuck != Some(0) {
      RelayBounds(frames[1..], broken, if stuck.Some? then Some(stuck.value - 1) else None);
    }
  }

  /** bufferedChat: one reply of the adapter, an HTTP error or a total, and the same settlement. */
  method BufferedChat(p: Settings, reply: Buffered, client: Client, accepted: bool) returns (o: Outcome)
    ensures o == BufferedOutcome(p, reply, client, accepted)
  {
    var failed, sawUsage, actual := false, false, 0;
    match reply {
      case Failed(_) => failed := true;
      case Total(n) =>
        if p.Metered() {
          actual := p.Credits(n);
        }
        sawUsage := n > 0;
    }
    var (calls, row) := SettleChat(p, failed, false, sawUsage, actual, accepted);
    o := Outcome([], failed, calls, Reservation(p, client) + Recorded(p, client, row));
  }

  function BufferedOutcome(p: Settings, reply: Buffered, client: Client, accepted: bool): Outcome {
    var actual := if reply.Total? && p.Metered() then p.Credits(reply.n) else 0;
    var (calls, row) := SettleChat(p, reply.Failed?, false, reply.Total? && reply.n > 0, actual, accepted);
    Outcome([], reply.Failed?, calls, Reservation(p, client) + Recorded(p, client, row))
  }

  /** handleGenerate after a successful reservation: commit what was reported, or release on failure.
      Everything but BYOK is metered here, and everything needs the client: once it is gone, calls are not made. */
  method Generate(p: Settings, reply: Buffered, client: Client, accepted: bool) returns (o: Outcome)
    requires p.billing.Platform? || p.billing.Byok?
    ensures o == GenerateOutcome(p, reply, client, accepted)
  {
    var calls: seq<SettleCall> := [];
    var rows := Reservation(p, client);
    if reply.Failed? {
      if p.Metered() {
        if client.There(SETTLING) {
          calls := [ReleaseCall];
        }
        if client.There(RECORDING) {
          rows := rows + [Row(ReleasedRow, p.estimated)];
        }
      }
      return Outcome([], true, calls, rows);
    }
    var actual := p.Credits(reply.n);
    if p.Metered() {
      var committed := false;
      if client.There(SETTLING) {
        calls := [CommitCall(actual)];
        committed := accepted;
      }
      if !committed {
        if client.There(RECORDING) {
          rows := rows + [Row(CommitFailedRow, actual)];
        }
        return Outcome([], true, calls, rows);
      }
    }
    if client.There(RECORDING) {
      rows := rows + [Row(if p.Metered() then CommittedRow else ByokRow, actual)];
    }
    o := Outcome([], false, calls, rows);
  }

  function GenerateOutcome(p: Settings, reply: Buffered, client: Client, accepted: bool): Outcome
    requires p.billing.Platform? || p.billing.Byok?
  {
    var closing :=
      match (p.billing, reply)
      case (Byok, Failed(_)) => []
      case (Byok, Total(n)) => [Row(ByokRow, p.Credits(n))]
      case (_, Failed(_)) => [Row(ReleasedRow, p.estimated)]
      case (_, Total(n)) => [Row(if accepted then CommittedRow else CommitFailedRow, p.Credits(n))];
    var calls :=
      if p.billing.Byok? || !client.There(SETTLING) then []
      else if reply.Failed? then [ReleaseCall] else [CommitCall(p.Credits(reply.n))];
    Outcome([], reply.Failed? || (p.Metered() && !(client.There(SETTLING) && accepted)), calls,
            Reservation(p, client) + if client.There(RECORDING) then closing else [])
  }

  // ---- what every run keeps ----

  /** The terminal ledger events of a run. */
  function Terminals(rows: seq<Row>): seq<Row> {
    if rows == [] then []
    else Terminals(rows[..|rows| - 1]) + (if Terminal(rows[|rows| - 1]) then [rows[|rows| - 1]] else [])
  }

  /** One hold, one settlement call, one terminal ledger event, and both about the same credits. */
  predicate SettledOnce(p: Settings, o: Outcome, accepted: bool) {
    && |Terminals(o.rows)| == 1 && |o.calls| == 1
    && var last := Terminals(o.rows)[0];
       && (o.calls[0].ReleaseCall? <==> last.kind.ReleasedRow?)
       && (o.calls[0].CommitCall? ==> o.calls[0].credits == last.credits)
       && (o.calls[0].ReleaseCall? ==> last.credits == p.estimated)
       && (last.kind.CommitFailedRow? <==> o.calls[0].CommitCall? && !accepted)
  }

  predicate Unsettled(o: Outcome) {
    o.calls == [] && Terminals(o.rows) == [] && forall row | row in o.rows :: !row.kind.ReservedRow?
  }

  /** The ledger event of the reservation, and at most one other, which closes the run. */
  predicate OneClosing(p: Settings, client: Client, rows: seq<Row>) {
    var reserved := Reservation(p, client);
    && reserved <= rows && |rows| <= |reserved| + 1
    && (|rows| > |reserved| ==>
          !rows[|reserved|].kind.ReservedRow? && (!p.Metered() ==> !Terminal(rows[|reserved|])))
  }

  predicate NonNegative(calls: seq<SettleCall>) { forall call | call in calls && call.CommitCall? :: call.credits >= 0 }

  lemma TerminalsOf(reserved: seq<Row>, rows: seq<Row>)
    requires |reserved| <= 1 && |rows| <= 1 && forall row | row in reserved :: row.kind.ReservedRow?
    ensures Terminals(reserved + rows) == if rows != [] && Terminal(rows[0]) then rows else []
  {
    NoTerminals(reserved);
    if rows == [] {
      assert reserved + rows == reserved;
    } else {
      LastTerminal(reserved, rows[0]);
      hide Terminals;
      assert rows == [rows[0]];
    }
  }

  lemma NoTerminals(rows: seq<Row>)
    requires |rows| <= 1 && forall row | row in rows :: row.kind.ReservedRow?
    ensures Terminals(rows) == []
  {
    if rows != [] {
      assert rows[..0] == [] && rows[0] in rows;
    }
  }

  lemma LastTerminal(rows: seq<Row>, row: Row)
    ensures Terminals(rows + [row]) == Terminals(rows) + (if Terminal(row) then [row] else [])
  {
    assert (rows + [row])[..|rows + [row]| - 1] == rows;
  }

  /** Settling a chat, whatever its flags were. */
  lemma ChatSettles(p: Settings, failed: bool, billable: bool, sawUsage: bool, actual: int, client: Client,
      accepted: bool, o: Outcome)
    requires var (calls, row) := SettleChat(p, failed, billable, sawUsage, actual, accepted);
             o.calls == calls && o.rows == Reservation(p, client) + Recorded(p, client, row)
    requires actual >= 0
    ensures p.Metered() ==> SettledOnce(p, o, accepted)
    ensures !p.Metered() ==> Unsettled(o)
    ensures OneClosing(p, client, o.rows) && (p.estimated >= 0 ==> NonNegative(o.calls))
  {
    hide Terminals;
    TerminalsOf(Reservation(p, client),
        Recorded(p, client, SettleChat(p, failed, billable, sawUsage, actual, accepted).1));
  }

  /** For every event stream, break, undecodable frame, stuck client, hangup and refused settlement, a metered chat
      settles once, and an unmetered one never. */
  lemma OneSettlement(p: Settings, up: Upstream, stuck: Option<nat>, client: Client, reply: Buffered, accepted: bool)
    ensures p.Metered() ==> SettledOnce(p, ChatOutcome(p, up, stuck, client, accepted), accepted)
    ensures p.Metered() ==> SettledOnce(p, BufferedOutcome(p, reply, client, accepted), accepted)
    ensures !p.Metered() ==> Unsettled(ChatOutcome(p, up, stuck, client, accepted))
    ensures !p.Metered() ==> Unsettled(BufferedOutcome(p, reply, client, accepted))
    ensures OneClosing(p, client, ChatOutcome(p, up, stuck, client, accepted).rows)
    ensures OneClosing(p, client, BufferedOutcome(p, reply, client, accepted).rows)
    ensures p.estimated >= 0 ==> NonNegative(ChatOutcome(p, up, stuck, client, accepted).calls)
    ensures p.estimated >= 0 ==> NonNegative(BufferedOutcome(p, reply, client, accepted).calls)
  {
    hide Relay, Actual, Billable, SawUsage, SawError, ForwardedAll, SettleChat, SettledOnce, Unsettled, Reservation,
         Recorded, OneClosing, NonNegative;
    var r := if up.Refused? then Relayed([], 0, true) else Relay(up.frames, up.broken, stuck);
    ChatSettles(p, r.failed || SawError(r.seen), Billable(r.seen), SawUsage(r.seen), Actual(p, r.seen), client,
                accepted, ChatOutcome(p, up, stuck, client, accepted));
    ChatSettles(p, reply.Failed?, false, reply.Total? && reply.n > 0,
                if reply.Total? && p.Metered() then p.Credits(reply.n) else 0, client, accepted,
                BufferedOutcome(p, reply, client, accepted));
  }

  /** A metered generate settles at all exactly for a client that stays until the settlement, and with its one
      terminal ledger event exactly for one that stays until that event; an unmetered one never settles. */
  lemma GenerateSettles(p: Settings, reply: Buffered, client: Client, accepted: bool)
    requires p.billing.Platform? || p.billing.Byok?
    ensures p.Metered() ==>
              var o := GenerateOutcome(p, reply, client, accepted);
              && |o.calls| == (if client.There(SETTLING) then 1 else 0)
              && (SettledOnce(p, o, accepted) <==> client.There(RECORDING))
    ensures p.billing.Byok? ==> Unsettled(GenerateOutcome(p, reply, client, accepted))
    ensures OneClosing(p, client, GenerateOutcome(p, reply, client, accepted).rows)
    ensures !client.There(RECORDING) ==> GenerateOutcome(p, reply, client, accepted).rows == Reservation(p, client)
    ensures NonNegative(GenerateOutcome(p, reply, client, accepted).calls)
  {
    hide Terminals;
    GenerateTerminals(p, reply, client, accepted);
  }

  lemma GenerateTerminals(p: Settings, reply: Buffered, client: Client, accepted: bool)
    requires p.billing.Platform? || p.billing.Byok?
    ensures Terminals(GenerateOutcome(p, reply, client, accepted).rows) ==
            if p.billing.Byok? || !client.There(RECORDING) then []
            else if reply.Failed? then [Row(ReleasedRow, p.estimated)]
            else [Row(if accepted then CommittedRow else CommitFailedRow, p.Credits(reply.n))]
  {
    hide Terminals;
    var rows := GenerateOutcome(p, reply, client, accepted).rows;
    var reserved := Reservation(p, client);
    assert rows == reserved + rows[|reserved|..];
    TerminalsOf(reserved, rows[|reserved|..]);
  }

  /** A generate whose client leaves while the reply is on its way: the hold is neither committed nor released, and
      no ledger event says so. A chat settles all the same. */
  lemma AbandonedGenerate(p: Settings, up: Upstream, stuck: Option<nat>, reply: Buffered, accepted: bool)
    requires p.Metered()
    ensures var o := GenerateOutcome(p, reply, Leaves(SETTLING), accepted);
            o.calls == [] && o.rows == [Row(ReservedRow, p.estimated)] && o.httpError
    ensures |ChatOutcome(p, up, stuck, Leaves(SETTLING), accepted).calls| == 1
  {
    hide ChatOutcome;
    OneSettlement(p, up, stuck, Leaves(SETTLING), reply, accepted);
  }

  lemma DeltasForwarded(p: Settings, es: seq<Event>, n: nat)
    requires n <= |es| && !Billable(es)
    ensures forall e | e in ForwardedAll(p, es[..n]) :: !IsDelta(e)
  {
  }

  /** A hold is released only if no text and no tool call reached the client. */
  lemma ReleasedMeansNothingDelivered(p: Settings, up: Upstream, stuck: Option<nat>, client: Client, accepted: bool)
    requires ReleaseCall in ChatOutcome(p, up, stuck, client, accepted).calls
    ensures forall e | e in ChatOutcome(p, up, stuck, client, accepted).frames :: !IsDelta(e)
  {
    hide Relay, Actual, SawUsage, SawError, ForwardedAll, Billable;
    var r := if up.Refused? then Relayed([], 0, true) else Relay(up.frames, up.broken, stuck);
    RelayBounds(if up.Refused? then [] else up.frames, up.Refused? || up.broken, stuck);
    DeltasForwarded(p, r.seen, r.written);
  }

  /** The two events differ at most in the credits of a usage event. */
  predicate SameButCredits(e: Event, f: Event) {
    if e.Usage? then f.Usage? && f.total == e.total else e == f
  }

  lemma {:induction false} RelaySeesFrames(frames: seq<Frame>, broken: bool, stuck: Option<nat>, i: nat)
    requires i < |Relay(frames, broken, stuck).seen|
    ensures i < |frames| && frames[i] == Decoded(Relay(frames, broken, stuck).seen[i])
    ensures stuck.Some? ==> Relay(frames, broken, stuck).written <= stuck.value
    decreases |frames|
  {
    if frames != [] && frames[0].Decoded? && stuck != Some(0) {
      var left := if stuck.Some? then Some(stuck.value - 1) else None;
      if i > 0 {
        RelaySeesFrames(frames[1..], broken, left, i - 1);
      } else if 0 < |Relay(frames[1..], broken, left).seen| {
        RelaySeesFrames(frames[1..], broken, left, 0);
      } else {
        RelayBounds(frames[1..], broken, left);
      }
    }
  }

  /** The client gets the upstream's events, in order and without a gap, with nothing changed but credits;
      the gateway adds at most one frame, its own error, at the end. */
  lemma RelayIsFaithful(p: Settings, frames: seq<Frame>, broken: bool, stuck: Option<nat>, client: Client,
      accepted: bool)
    ensures var got := ChatOutcome(p, Sent(frames, broken), stuck, client, accepted).frames;
            var n := Relay(frames, broken, stuck).written;
            && n <= |got| <= n + 1 && n <= |frames| && (|got| == n + 1 ==> got[n] == STREAM_FAILED)
            && (forall i | 0 <= i < n ::
                  && frames[i].Decoded? && SameButCredits(frames[i].event, got[i])
                  && (got[i].Usage? && !p.Metered() ==> got[i].credits == 0))
  {
    hide Relay, Actual, Billable, SawUsage, SawError, SettleChat, ForwardedAll, Forwarded, Reservation, Recorded;
    var r := Relay(frames, broken, stuck);
    RelayBounds(frames, broken, stuck);
    forall i | 0 <= i < r.written
      ensures i < |frames| && frames[i] == Decoded(r.seen[i])
      ensures ForwardedAll(p, r.seen[..r.written])[i] == Forwarded(p, r.seen[i])
    {
      RelaySeesFrames(frames, broken, stuck, i);
      ForwardedAt(p, r.seen[..r.written], i);
    }
    if r.written > 0 {
      RelaySeesFrames(frames, broken, stuck, r.written - 1);
    }
    forall e: Event
      ensures SameButCredits(e, Forwarded(p, e))
      ensures Forwarded(p, e).Usage? && !p.Metered() ==> Forwarded(p, e).credits == 0
    {
      ForwardedDiffers(p, e);
    }
  }

  lemma ForwardedAt(p: Settings, es: seq<Event>, i: nat)
    requires i < |es|
    ensures ForwardedAll(p, es)[i] == Forwarded(p, es[i])
  {
  }

  lemma ForwardedDiffers(p: Settings, e: Event)
    ensures SameButCredits(e, Forwarded(p, e))
    ensures Forwarded(p, e).Usage? && !p.Metered() ==> Forwarded(p, e).credits == 0
  {
  }

  /** The last usage frame of a list. */
  function LastUsage(es: seq<Event>): (r: Option<Event>)
    ensures r.Some? ==> r.value.Usage?
  {
    if es == [] then None
    else if es[|es| - 1].Usage? then Some(es[|es| - 1])
    else LastUsage(es[..|es| - 1])
  }

  /** The last usage frame the client gets is the last usage event, and if that one carries a usage block, its
      credits are what the relay will commit. */
  lemma {:induction false} LastUsageForwarded(p: Settings, es: seq<Event>)
    requires p.Metered()
    ensures SawUsage(es) <==> LastUsage(es).Some?
    ensures SawUsage(es) ==> LastUsage(ForwardedAll(p, es)) == Some(Forwarded(p, LastUsage(es).value))
    ensures SawUsage(es) && LastUsage(es).value.total.Some? ==>
            Actual(p, es) == p.Credits(LastUsage(es).value.total.value)
    decreases |es|
  {
    if es != [] {
      var front, e := es[..|es| - 1], es[|es| - 1];
      assert es == front + [e];
      FlagsOneMore(p, front, e);
      LastUsageForwarded(p, front);
      assert ForwardedAll(p, es)[..|es| - 1] == ForwardedAll(p, front);
    }
  }

  /** A commit reported as the provider's own usage is what the client's last usage frame showed, exactly when
      the last usage event carried a usage block, or happened to name the amount itself. */
  lemma ReportedCommitIsShown(p: Settings, frames: seq<Frame>, broken: bool, stuck: Option<nat>, client: Client)
    requires p.Metered()
    ensures var o := ChatOutcome(p, Sent(frames, broken), stuck, client, true);
            var seen := Relay(frames, broken, stuck).seen; var last := LastUsage(seen);
            (exists row | row in o.rows :: row.kind.CommittedRow?) ==>
              last.Some? && LastUsage(o.frames).Some?
              && (o.calls == [CommitCall(LastUsage(o.frames).value.credits)] <==>
                    last.value.total.Some? || last.value.credits == Actual(p, seen))
  {
    hide Relay, Actual, ForwardedAll, SawUsage, Billable, SawError, LastUsage;
    var r := Relay(frames, broken, stuck);
    RelayBounds(frames, broken, stuck);
    LastUsageForwarded(p, r.seen);
    assert r.written == |r.seen| ==> r.seen[..r.written] == r.seen;
    assert ForwardedAll(p, r.seen) + [] == ForwardedAll(p, r.seen);
  }

  /** Without the usage block it can fail: the commit is 0 while the frame shows the upstream's number. */
  lemma BlocklessUsageIsNotShown(p: Settings, n: int)
    requires p.Metered() && n != 0
    ensures var o := ChatOutcome(p, Sent([Decoded(Usage(None, n))], false), None, Stays, true);
            o.rows[1].kind.CommittedRow? && o.calls == [CommitCall(0)] && o.frames == [Usage(None, n)]
  {
    var event := Usage(None, n);
    NoFlags(p);
    FlagsOneMore(p, [], event);
    RelaySeesTrace([Decoded(event)], false, [event], 1);
    assert [] + [event] == [event] && [event][..1] == [event];
    assert ForwardedAll(p, []) + [event] == [event];
  }

  // ---- composed with the adapter ----

  /** The upstream sends a beginning of the trace, whole events first; if it is cut short, the relay is
      told so, by a transport error or by the undecodable rest of an event. */
  ghost predicate Delivers(up: Upstream, trace: seq<Event>) {
    up.Sent? && exists k :: 0 <= k <= |trace| && DeliversUpTo(up, trace, k)
  }

  ghost predicate DeliversUpTo(up: Upstream, trace: seq<Event>, k: nat)
    requires up.Sent? && k <= |trace|
  {
    && k <= |up.frames| <= k + 1
    && (forall i | 0 <= i < k :: up.frames[i] == Decoded(trace[i]))
    && (|up.frames| == k + 1 ==> up.frames[k].Garbage?)
    && (k < |trace| ==> up.broken || |up.frames| == k + 1)
  }

  lemma {:induction false} RelaySeesTrace(frames: seq<Frame>, broken: bool, trace: seq<Event>, k: nat)
    requires k <= |trace| && DeliversUpTo(Sent(frames, broken), trace, k)
    ensures Relay(frames, broken, None) == Relayed(trace[..k], k, broken || |frames| > k)
    decreases k
  {
    if k > 0 {
      RelaySeesTrace(frames[1..], broken, trace[1..], k - 1);
      assert trace[..k] == [trace[0]] + trace[1..][..k - 1];
    }
  }

  /** The relay's view of a stuck client is a beginning of its view of a willing one. */
  lemma {:induction false} StuckSeesLess(frames: seq<Frame>, broken: bool, stuck: Option<nat>)
    ensures Relay(frames, broken, stuck).seen <= Relay(frames, broken, None).seen
    decreases |frames|
  {
    if frames != [] && frames[0].Decoded? && stuck != Some(0) {
      StuckSeesLess(frames[1..], broken, if stuck.Some? then Some(stuck.value - 1) else None);
    }
  }

  lemma ForwardedLast(p: Settings, es: seq<Event>)
    requires es != []
    ensures ForwardedAll(p, es) != [] && ForwardedAll(p, es)[|es| - 1] == Forwarded(p, es[|es| - 1])
  {
  }

  /** While the client stays, every opened stream ends in done or error; and in an error whenever the relay failed,
      be it that the upstream broke off or that it sent a frame that is no event. */
  lemma StreamsEndProperly(p: Settings, up: Upstream, trace: seq<Event>, accepted: bool)
    requires Trace(trace) && Delivers(up, trace)
    ensures var o := ChatOutcome(p, up, None, Stays, accepted);
            && (!o.httpError && o.frames != [] ==> o.frames[|o.frames| - 1].Done? || o.frames[|o.frames| - 1].Error?)
            && (o.httpError <==> o.frames == [])
            && (Relay(up.frames, up.broken, None).failed && !o.httpError ==> o.frames[|o.frames| - 1].Error?)
  {
    hide Actual, SawUsage, SawError, Billable, ForwardedAll, Forwarded, Relay, SettleChat, Reservation, Recorded;
    var k :| 0 <= k <= |trace| && DeliversUpTo(up, trace, k);
    var cut :| 0 <= cut <= |trace| && TraceCut(trace, cut);
    RelaySeesTrace(up.frames, up.broken, trace, k);
    CutShortFails(up, trace, k);
    FlagsOfBeginning(p, trace, cut, k);
    LastOfTrace(trace, cut);
    hide DeliversUpTo, TraceCut;
    var seen := trace[..k];
    assert seen[..k] == seen;
    if k > 0 {
      ForwardedLast(p, seen);
      ForwardedDiffers(p, seen[k - 1]);
    }
  }

  lemma LastOfTrace(trace: seq<Event>, cut: nat)
    requires cut <= |trace| && TraceCut(trace, cut)
    ensures trace != [] && (trace[|trace| - 1].Done? || trace[|trace| - 1].Error?)
  {
  }

  /** What the last event of a beginning of a trace, and the beginning's length, say about its flags. */
  lemma {:induction false} FlagsOfBeginning(p: Settings, trace: seq<Event>, cut: nat, k: nat)
    requires cut <= |trace| && TraceCut(trace, cut) && k <= |trace|
    ensures Billable(trace[..k]) <==> k > 0 && cut > 0
    ensures SawError(trace[..k]) <==> k == |trace| && trace[k - 1].Error?
    ensures SawUsage(trace[..k]) <==> cut < k && cut + 1 < |trace|
    ensures p.Metered() && cut < k && cut + 1 < |trace| ==> Actual(p, trace[..k]) == p.Credits(trace[cut].total.value)
    decreases k
  {
    hide Billable, SawUsage, SawError, Actual;
    if k == 0 {
      assert trace[..0] == [];
      NoFlags(p);
    } else {
      assert trace[..k] == trace[..k - 1] + [trace[k - 1]];
      FlagsOneMore(p, trace[..k - 1], trace[k - 1]);
      FlagsOfBeginning(p, trace, cut, k - 1);
    }
  }

  /** The charge of a metered stream, from what the upstream delivered to a client that stays: the reported
      usage if the whole trace came and reports one, else the whole hold, but nothing if the stream
      failed before its first delta. */
  lemma ChargeOfDelivery(p: Settings, up: Upstream, trace: seq<Event>, cut: nat, k: nat, client: Client,
      accepted: bool)
    requires p.Metered() && up.Sent? && cut <= |trace| && TraceCut(trace, cut)
    requires k <= |trace| && DeliversUpTo(up, trace, k)
    ensures var whole := k == |trace| == |up.frames| && !up.broken && !trace[k - 1].Error?;
            ChatOutcome(p, up, None, client, accepted).calls ==
            if whole && cut + 1 < |trace| then [CommitCall(p.Credits(trace[cut].total.value))]
            else if whole || (k > 0 && cut > 0) then [CommitCall(p.estimated)]
            else [ReleaseCall]
  {
    hide Billable, SawUsage, SawError, Actual, ForwardedAll, Relay, DeliversUpTo;
    RelaySeesTrace(up.frames, up.broken, trace, k);
    CutShortFails(up, trace, k);
    FlagsOfBeginning(p, trace, cut, k);
  }

  lemma CutShortFails(up: Upstream, trace: seq<Event>, k: nat)
    requires up.Sent? && k <= |trace| && DeliversUpTo(up, trace, k)
    ensures k <= |up.frames| && (k < |trace| ==> up.broken || |up.frames| > k)
  {
  }

  /** What a hold for a request is worth. */
  predicate Holds(p: Settings, inputBytes: nat, maxTokens: int) {
    p.estimated == p.Credits(Tokens.Ceiling(inputBytes, maxTokens))
  }

  lemma {:induction false} ActualInRange(p: Settings, es: seq<Event>, lo: int, hi: int)
    requires p.Metered() && SawUsage(es)
    requires forall e | e in es && e.Usage? :: e.total.Some? && lo <= p.Credits(e.total.value) <= hi
    ensures lo <= Actual(p, es) <= hi
    decreases |es|
  {
    var front, e := es[..|es| - 1], es[|es| - 1];
    assert es == front + [e];
    FlagsOneMore(p, front, e);
    assert e in es;
    if !e.Usage? {
      assert forall x | x in front :: x in es;
      ActualInRange(p, front, lo, hi);
    }
  }

  /** Usage is only reported with a positive total, as the adapter does. */
  ghost predicate Positive(trace: seq<Event>) {
    forall e | e in trace && e.Usage? :: e.total.Some? && e.total.value > 0
  }

  /** However the stream is delivered, a run that is not released is charged at least 1 if usage is only reported with
      a positive total; and if the provider stays within the ceiling, at most its hold. */
  lemma StreamChargeInRange(p: Settings, inputBytes: nat, maxTokens: int, up: Upstream, stuck: Option<nat>,
      client: Client, accepted: bool, trace: seq<Event>)
    requires p.Metered() && inputBytes > 0 && maxTokens > 0 && Holds(p, inputBytes, maxTokens)
    requires Trace(trace) && (up.Refused? || Delivers(up, trace))
    ensures var o := ChatOutcome(p, up, stuck, client, accepted);
            o.calls != [ReleaseCall] ==>
              |o.calls| == 1 && o.calls[0].CommitCall? && o.calls[0].credits >= if Positive(trace) then 1 else 0
    ensures (forall e | e in trace && e.Usage? :: e.total.value <= inputBytes + 32 + maxTokens) ==>
              forall x | x in ChatOutcome(p, up, stuck, client, accepted).calls && x.CommitCall? ::
                  x.credits <= p.estimated
  {
    hide Relay, Actual, SawUsage, SawError, Billable, ForwardedAll, Positive;
    Tokens.CreditsCover(Tokens.Ceiling(inputBytes, maxTokens), p.tokensPerCredit);
    RelayBounds(if up.Refused? then [] else up.frames, up.Refused? || up.broken, stuck);
    if up.Sent? {
      var k :| 0 <= k <= |trace| && DeliversUpTo(up, trace, k);
      RelaySeesTrace(up.frames, up.broken, trace, k);
      StuckSeesLess(up.frames, up.broken, stuck);
      var seen := Relay(up.frames, up.broken, stuck).seen;
      if SawUsage(seen) {
        SeenChargeInRange(p, inputBytes, maxTokens, trace, seen);
      }
    }
  }

  lemma SeenChargeInRange(p: Settings, inputBytes: nat, maxTokens: int, trace: seq<Event>, seen: seq<Event>)
    requires p.Metered() && Trace(trace) && seen <= trace && SawUsage(seen)
    requires inputBytes > 0 && maxTokens > 0 && Holds(p, inputBytes, maxTokens)
    ensures Actual(p, seen) >= if Positive(trace) then 1 else 0
    ensures (forall e | e in trace && e.Usage? :: e.total.value <= inputBytes + 32 + maxTokens) ==>
            Actual(p, seen) <= p.estimated
  {
    var cut :| 0 <= cut <= |trace| && TraceCut(trace, cut);
    var e :| e in seen && e.Usage?;
    assert e == trace[cut];
    assert forall x | x in seen && x.Usage? :: x == e;
    Tokens.CreditsCover(e.total.value, p.tokensPerCredit);
    ActualInRange(p, seen, p.Credits(e.total.value), p.Credits(e.total.value));
    if e.total.value <= Tokens.Ceiling(inputBytes, maxTokens) {
      Tokens.CreditsMonotone(e.total.value, Tokens.Ceiling(inputBytes, maxTokens), p.tokensPerCredit);
    }
  }

  /** A stream that is delivered whole is free of charge exactly when it reports a usage that is not positive. */
  lemma ZeroUsageIsFree(p: Settings, trace: seq<Event>, cut: nat, client: Client, accepted: bool)
    requires p.Metered() && p.estimated >= 1 && cut <= |trace| && TraceCut(trace, cut) && !trace[|trace| - 1].Error?
    ensures var up := Sent(seq(|trace|, i requires 0 <= i < |trace| => Decoded(trace[i])), false);
            ChatOutcome(p, up, None, client, accepted).calls == [CommitCall(0)] <==>
            cut + 1 < |trace| && trace[cut].total.value <= 0
  {
    hide ChatOutcome;
    var up := Sent(seq(|trace|, i requires 0 <= i < |trace| => Decoded(trace[i])), false);
    ChargeOfDelivery(p, up, trace, cut, |trace|, client, accepted);
    if cut + 1 < |trace| {
      Tokens.CreditsCover(trace[cut].total.value, p.tokensPerCredit);
    }
  }

  /** The two routes without a stream, within the ceiling: commits never exceed the hold, and a buffered chat that is
      not released is charged at least 1. */
  lemma BufferedWithinHold(p: Settings, inputBytes: nat, maxTokens: int, reply: Buffered, client: Client,
      accepted: bool)
    requires p.Metered() && inputBytes > 0 && Holds(p, inputBytes, maxTokens)
    requires reply.Total? ==> reply.n <= inputBytes + 32 + maxTokens
    ensures var o := BufferedOutcome(p, reply, client, accepted);
            o.calls == [ReleaseCall] || exists n :: 1 <= n <= p.estimated && o.calls == [CommitCall(n)]
    ensures forall x | x in GenerateOutcome(p, reply, client, accepted).calls && x.CommitCall? ::
            x.credits <= p.estimated
  {
    Tokens.CreditsCover(Tokens.Ceiling(inputBytes, maxTokens), p.tokensPerCredit);
    if reply.Total? {
      Tokens.CreditsMonotone(reply.n, Tokens.Ceiling(inputBytes, maxTokens), p.tokensPerCredit);
      Tokens.CreditsCover(reply.n, p.tokensPerCredit);
    }
    var calls := BufferedOutcome(p, reply, client, accepted).calls;
    assert calls != [ReleaseCall] ==> calls == [CommitCall(calls[0].credits)];
  }

  /** For an error-free stream delivered whole, both routes settle alike. */
  lemma StreamAndBufferedAgree(p: Settings, items: seq<Item>, es: seq<Event>, frames: seq<Frame>, n: int,
      client: Client, accepted: bool)
    requires Clean(items) && Streamed(items, es) && Reports(es, n)
    requires |frames| == |es| && forall i | 0 <= i < |es| :: frames[i] == Decoded(es[i])
    ensures ChatOutcome(p, Sent(frames, false), None, client, accepted).calls
            == BufferedOutcome(p, Total(n), client, accepted).calls
  {
    hide Relay, ForwardedAll, Streamed, Reports;
    RelaySeesTrace(frames, false, es, |es|);
    assert es[..|es|] == es;
    UsageOnce(p, items, es, n);
  }

  /** A clean stream's one usage event, if any, is both its first and its last. */
  lemma UsageOnce(p: Settings, items: seq<Item>, es: seq<Event>, n: int)
    requires Clean(items) && Streamed(items, es) && Reports(es, n)
    ensures !SawError(es)
    ensures SawUsage(es) <==> n > 0
    ensures SawUsage(es) && p.Metered() ==> Actual(p, es) == p.Credits(n)
  {
    hide Actual, Body, LastTotal, LastFinish, Reports;
    var body, done := Body(items), Adapter.Event.Done(Normalized(LastFinish(items)));
    BodyIsDeltas(items);
    if LastTotal(items) > 0 {
      var usage := Usage(Some(LastTotal(items)), 0);
      assert es == body + [usage] + [done];
      FlagsOneMore(p, body + [usage], done);
      FlagsOneMore(p, body, usage);
      assert forall i | 0 <= i < |body| :: es[i] == body[i] && body[i] in body;
      ReportsOnce(es, n, |body|);
    } else {
      assert es == body + [done];
      FlagsOneMore(p, body, done);
      NoReport(es, n);
    }
  }

  lemma ReportsOnce(es: seq<Event>, n: int, k: nat)
    requires Reports(es, n) && k < |es| && es[k].Usage? && es[k].total.Some?
    requires forall j | 0 <= j < k :: !es[j].Usage?
    ensures n == es[k].total.value
  {
    assert es[k] in es;
  }

  lemma NoReport(es: seq<Event>, n: int)
    requires Reports(es, n) && forall e | e in es :: !e.Usage?
    ensures n == 0
  {
  }

  /** What the gateway meets when it asks for a stream and is answered. */
  function Meets(served: Served): Upstream {
    match served
    case Stream(events) => Sent(seq(|events|, i requires 0 <= i < |events| => Decoded(events[i])), false)
    case _ => Refused
  }

  /** From the provider to the settlement: the hold is released exactly when the stream could not be opened, or
      something raised before any text or tool call; the client and the usage blocks make no difference. */
  lemma ReleasedWithoutDelta(p: Settings, o: Opened, served: Served, client: Client, accepted: bool)
    requires p.Metered() && Serves(o, served)
    ensures ReleaseCall in ChatOutcome(p, Meets(served), None, client, accepted).calls <==>
            o.Unopened? || RaisesFirst(o.items)
  {
    hide ChatOutcome, Body, LastTotal, LastFinish, FirstRaise, RaisesFirst;
    match served {
      case HttpError(code) => RefusedReleases(p, client, accepted);
      case Stream(es) =>
        var cut := |Body(o.items)|;
        RaisesWithoutDelta(o.items);
        StreamFollowsGrammar(o.items, es);
        BodyIsDeltas(o.items);
        CutAfterBody(o.items, es);
        assert DeliversUpTo(Meets(served), es, |es|);
        ChargeOfDelivery(p, Meets(served), es, cut, |es|, client, accepted);
    }
  }

  lemma CutAfterBody(items: seq<Item>, es: seq<Event>)
    requires Streamed(items, es)
    ensures |Body(items)| < |es| && TraceCut(es, |Body(items)|)
    ensures es[|es| - 1].Error? <==> !Clean(items)
  {
    hide Body, LastTotal, LastFinish, FirstRaise, Clean;
    BodyIsDeltas(items);
    assert forall i | 0 <= i < |Body(items)| :: es[i] == Body(items)[i] && Body(items)[i] in Body(items);
  }

  lemma RefusedReleases(p: Settings, client: Client, accepted: bool)
    requires p.Metered()
    ensures ChatOutcome(p, Refused, None, client, accepted).calls == [ReleaseCall]
  {
    NoFlags(p);
    hide Billable, SawUsage, SawError, Actual, ForwardedAll;
  }
}

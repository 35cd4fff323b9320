/** The adapter that turns a provider's chunks into the event stream, and folds it for buffered calls. */
module Adapter {
  import opened Options

  datatype ToolDelta = ToolDelta(index: int, id: string, name: string, arguments: string)

  datatype Event =
    | TextDelta(text: string)
    | ToolCallDelta(call: ToolDelta)
    | Usage(total: Option<int>, credits: int)
    | Done(reason: string)
    | Error(code: string)
    | Other

  predicate IsDelta(e: Event) { e.TextDelta? || e.ToolCallDelta? }

  /** A provider's usage block; a missing or zero total is prompt plus completion. */
  datatype RawUsage = RawUsage(prompt: int, completion: int, total: int) {
    function Total(): int { if total != 0 then total else prompt + completion }
  }

  /** One chunk, or the point where reading or decoding one raises, after some of its deltas went out. */
  datatype Item =
    | Chunk(usage: Option<RawUsage>, content: string, calls: seq<ToolDelta>, finish: string)
    | Raise(content: string, calls: seq<ToolDelta>, code: string)

  function CallEvents(calls: seq<ToolDelta>): seq<Event> {
    seq(|calls|, i requires 0 <= i < |calls| => ToolCallDelta(calls[i]))
  }

  /** The deltas of one chunk: its text, if any, then its tool calls. */
  function Deltas(content: string, calls: seq<ToolDelta>): seq<Event> {
    (if content == "" then [] else [TextDelta(content)]) + CallEvents(calls)
  }

  function Normalized(finish: string): string {
    if finish == "tool_calls" then "tool_calls"
    else if finish == "length" || finish == "max_tokens" then "length"
    else "stop"
  }

  /** The deltas that go out before the stream ends or raises. */
  function Body(items: seq<Item>): seq<Event> {
    if items == [] then []
    else if items[0].Raise? then Deltas(items[0].content, items[0].calls)
    else Deltas(items[0].content, items[0].calls) + Body(items[1..])
  }

  /** The last finish reason given, "stop" without one. */
  function LastFinish(items: seq<Item>): string {
    if items == [] then "stop"
    else if items[|items| - 1].Chunk? && items[|items| - 1].finish != "" then items[|items| - 1].finish
    else LastFinish(items[..|items| - 1])
  }

  /** What follows the deltas of a stream in which nothing raised. */
  function Ending(items: seq<Item>): seq<Event> {
    (if LastTotal(items) > 0 then [Usage(Some(LastTotal(items)), 0)] else []) + [Done(Normalized(LastFinish(items)))]
  }

  predicate Clean(items: seq<Item>) { forall item | item in items :: item.Chunk? }

  /** The total of the last usage block, 0 without one. */
  function LastTotal(items: seq<Item>): int {
    if items == [] then 0
    else if items[|items| - 1].Chunk? && items[|items| - 1].usage.Some? then items[|items| - 1].usage.value.Total()
    else LastTotal(items[..|items| - 1])
  }

  function FirstRaise(items: seq<Item>): string
    requires !Clean(items)
  {
    if items[0].Raise? then items[0].code else FirstRaise(items[1..])
  }

  /** stream_events */
  method StreamEvents(items: seq<Item>) returns (events: seq<Event>)
    ensures !Clean(items) ==> events == Body(items) + [Error(FirstRaise(items))]
    ensures Clean(items) ==> events == Body(items) + Ending(items)
  {
    hide Body, LastTotal, LastFinish, Deltas, FirstRaise, Normalized, RawUsage.Total;
    NothingRead();
    events := [];
    var total := 0;
    var finish := "stop";
    var i := 0;
    while i < |items|
      invariant 0 <= i <= |items| && Clean(items[..i])
      invariant events == Body(items[..i]) && total == LastTotal(items[..i]) && finish == LastFinish(items[..i])
    {
      var item := items[i];
      assert items[..i + 1] == items[..i] + [item];
      OneItem(items[..i], item);
      events := events + Deltas(item.content, item.calls);
      if item.Raise? {
        BodyStops(items, i);
        events := events + [Error(item.code)];
        return;
      }
      if item.usage.Some? {
        total := item.usage.value.Total();
      }
      if item.finish != "" {
        finish := item.finish;
      }
      i := i + 1;
    }
    assert items[..i] == items;
    if total > 0 {
      events := events + [Usage(Some(total), 0)];
    }
    events := events + [Done(Normalized(finish))];
  }

  lemma NothingRead()
    ensures Body([]) == [] && LastTotal([]) == 0 && LastFinish([]) == "stop"
  {
  }

  /** What one more chunk adds. */
  lemma OneItem(items: seq<Item>, item: Item)
    requires Clean(items)
    ensures Body(items + [item]) == Body(items) + Deltas(item.content, item.calls)
    ensures LastTotal(items + [item]) ==
            if item.Chunk? && item.usage.Some? then item.usage.value.Total() else LastTotal(items)
    ensures LastFinish(items + [item]) == if item.Chunk? && item.finish != "" then item.finish else LastFinish(items)
  {
    BodyConcat(items, [item]);
    assert (items + [item])[..|items|] == items;
  }

  lemma {:induction false} BodyConcat(xs: seq<Item>, ys: seq<Item>)
    requires Clean(xs)
    ensures Body(xs + ys) == Body(xs) + Body(ys)
    decreases |xs|
  {
    if xs == [] {
      assert xs + ys == ys;
    } else {
      BodyConcat(xs[1..], ys);
      assert (xs + ys)[1..] == xs[1..] + ys && (xs + ys)[0] == xs[0];
      assert xs[0] in xs;
    }
  }

  /** Nothing after the first exception matters. */
  lemma {:induction false} BodyStops(items: seq<Item>, i: nat)
    requires i < |items| && Clean(items[..i]) && items[i].Raise?
    ensures !Clean(items) && FirstRaise(items) == items[i].code
    ensures Body(items) == Body(items[..i]) + Deltas(items[i].content, items[i].calls)
    decreases i
  {
    hide Deltas;
    assert items[i] in items;
    if i > 0 {
      assert items[0] == items[..i][0] && items[0] in items[..i];
      assert items[1..][..i - 1] == items[..i][1..];
      BodyStops(items[1..], i - 1);
      assert Body(items[..i]) == Deltas(items[0].content, items[0].calls) + Body(items[1..][..i - 1]);
    }
  }

  /** delta* (usage? done | error), with a total in a usage event. */
  ghost predicate Trace(es: seq<Event>) {
    exists k :: 0 <= k <= |es| && TraceCut(es, k)
  }

  ghost predicate TraceCut(es: seq<Event>, k: nat)
    requires k <= |es|
  {
    && (forall i | 0 <= i < k :: IsDelta(es[i]))
    && match |es| - k
       case 1 => es[k].Done? || es[k].Error?
       case 2 => es[k].Usage? && es[k].total.Some? && es[k + 1].Done?
       case _ => false
  }

  lemma {:induction false} BodyIsDeltas(items: seq<Item>)
    ensures forall e | e in Body(items) :: IsDelta(e)
    decreases |items|
  {
    if items != [] {
      BodyIsDeltas(items[1..]);
    }
  }

  /** What stream_events may return, as its contract says. */
  ghost predicate Streamed(items: seq<Item>, es: seq<Event>) {
    if Clean(items) then es == Body(items) + Ending(items)
    else es == Body(items) + [Error(FirstRaise(items))]
  }

  /** Every stream follows the grammar; it ends in an error exactly when something raised, and reports
      usage exactly when nothing did and the last usage block was positive. */
  lemma StreamFollowsGrammar(items: seq<Item>, es: seq<Event>)
    requires Streamed(items, es)
    ensures Trace(es)
    ensures (exists e :: e in es && e.Error?) <==> !Clean(items)
    ensures forall n :: (exists e :: e in es && e.Usage? && e.total == Some(n)) <==>
            Clean(items) && n == LastTotal(items) > 0
  {
    BodyIsDeltas(items);
    var k := |Body(items)|;
    assert TraceCut(es, k);
    if Clean(items) {
      if LastTotal(items) > 0 {
        assert es[k] in es;
      }
    } else {
      assert es[k] in es;
    }
  }

  // ---- what a stream carries, in the provider's own chunks ----

  /** All text of the events, and all their tool deltas, in order. */
  function Said(es: seq<Event>): string {
    if es == [] then "" else Said(es[..|es| - 1]) + (if es[|es| - 1].TextDelta? then es[|es| - 1].text else "")
  }

  function Called(es: seq<Event>): seq<ToolDelta> {
    if es == [] then []
    else Called(es[..|es| - 1]) + (if es[|es| - 1].ToolCallDelta? then [es[|es| - 1].call] else [])
  }

  /** All contents of the chunks, and all their tool calls, in order. */
  function Contents(items: seq<Item>): string {
    if items == [] then "" else Contents(items[..|items| - 1]) + items[|items| - 1].content
  }

  function Calls(items: seq<Item>): seq<ToolDelta> {
    if items == [] then [] else Calls(items[..|items| - 1]) + items[|items| - 1].calls
  }

  /** The first n items are those up to the first one that raises, with it, or all if none does. */
  predicate UpToRaise(items: seq<Item>, n: nat) {
    && n <= |items| && (forall j | 0 <= j < n - 1 :: items[j].Chunk?)
    && (n < |items| ==> n > 0 && items[n - 1].Raise?)
  }

  lemma {:induction false} CarriesConcat(es: seq<Event>, fs: seq<Event>)
    ensures Said(es + fs) == Said(es) + Said(fs) && Called(es + fs) == Called(es) + Called(fs)
    decreases |fs|
  {
    if fs == [] {
      assert es + fs == es;
    } else {
      assert (es + fs)[..|es + fs| - 1] == es + fs[..|fs| - 1];
      CarriesConcat(es, fs[..|fs| - 1]);
    }
  }

  lemma {:induction false} CallsCarry(calls: seq<ToolDelta>)
    ensures Said(CallEvents(calls)) == "" && Called(CallEvents(calls)) == calls
    decreases |calls|
  {
    if calls != [] {
      var front := calls[..|calls| - 1];
      CallsCarry(front);
      assert CallEvents(calls)[..|calls| - 1] == CallEvents(front);
      assert calls == front + [calls[|calls| - 1]];
    }
  }

  lemma DeltasCarry(content: string, calls: seq<ToolDelta>)
    ensures Said(Deltas(content, calls)) == content && Called(Deltas(content, calls)) == calls
  {
    hide CallEvents;
    var text := if content == "" then [] else [TextDelta(content)];
    CallsCarry(calls);
    CarriesConcat(text, CallEvents(calls));
    if content != "" {
      assert text[..0] == [];
    }
  }

  lemma {:induction false} BeginningCarries(items: seq<Item>, n: nat, k: nat)
    requires UpToRaise(items, n) && k <= n
    ensures Said(Body(items[..k])) == Contents(items[..k]) && Called(Body(items[..k])) == Calls(items[..k])
    decreases k
  {
    if k > 0 {
      hide Body, Deltas, Said, Called;
      var item := items[k - 1];
      BeginningCarries(items, n, k - 1);
      assert items[..k] == items[..k - 1] + [item] && items[..k][..k - 1] == items[..k - 1];
      OneItem(items[..k - 1], item);
      DeltasCarry(item.content, item.calls);
      CarriesConcat(Body(items[..k - 1]), Deltas(item.content, item.calls));
    }
  }

  /** The deltas of all items are those of the items up to the first raise. */
  lemma BodyIsBeginning(items: seq<Item>, n: nat)
    requires UpToRaise(items, n)
    ensures Body(items) == Body(items[..n])
  {
    hide Body, Deltas;
    if n == |items| {
      assert items[..n] == items;
    } else {
      BodyStops(items, n - 1);
      assert items[..n] == items[..n - 1] + [items[n - 1]];
      OneItem(items[..n - 1], items[n - 1]);
    }
  }

  lemma EndingSaysNothing(es: seq<Event>)
    requires |es| <= 2 && forall e | e in es :: !IsDelta(e)
    ensures Said(es) == "" && Called(es) == []
  {
    if |es| == 2 {
      assert es[..1][..0] == [] && es[0] in es && es[1] in es && es[..1][0] == es[0];
    } else if |es| == 1 {
      assert es[..0] == [] && es[0] in es;
    }
  }

  /** The texts of a stream, put together, are the contents of the provider's chunks up to the first one that
      raises, and its tool deltas are these chunks' calls, in their order; no text event is empty. */
  lemma StreamCarries(items: seq<Item>, es: seq<Event>, n: nat)
    requires Streamed(items, es) && UpToRaise(items, n)
    ensures Said(es) == Contents(items[..n]) && Called(es) == Calls(items[..n])
    ensures forall e | e in es && e.TextDelta? :: e.text != ""
  {
    hide Body, Said, Called, LastTotal, LastFinish, FirstRaise, Normalized;
    var ending := if Clean(items) then Ending(items) else [Error(FirstRaise(items))];
    BodyIsBeginning(items, n);
    BeginningCarries(items, n, n);
    EndingSaysNothing(ending);
    CarriesConcat(Body(items), ending);
    TextsAreFull(items);
  }

  lemma {:induction false} TextsAreFull(items: seq<Item>)
    ensures forall e | e in Body(items) && e.TextDelta? :: e.text != ""
    decreases |items|
  {
    if items != [] {
      TextsAreFull(items[1..]);
    }
  }

  /** Where a chunk's events stand: behind those of the chunks before it come its text, if it has any, and then its tool
      calls, each in one event. */
  lemma ChunkInPlace(items: seq<Item>, es: seq<Event>, n: nat, k: nat) returns (at: nat)
    requires Streamed(items, es) && UpToRaise(items, n) && k < n
    ensures var text := if items[k].content == "" then 0 else 1;
            && at + text + |items[k].calls| <= |es|
            && Said(es[..at]) == Contents(items[..k]) && Called(es[..at]) == Calls(items[..k])
            && (items[k].content != "" ==> es[at] == TextDelta(items[k].content))
            && forall j | 0 <= j < |items[k].calls| :: es[at + text + j] == ToolCallDelta(items[k].calls[j])
  {
    hide Body, Said, Called, Deltas, Streamed, Contents, Calls;
    var before, own := Body(items[..k]), Deltas(items[k].content, items[k].calls);
    at := |before|;
    BeginningCarries(items, n, k);
    var rest := ChunkWithin(items, es, n, k);
    Between(before, own, rest);
    DeltasInOrder(items[k].content, items[k].calls);
  }

  /** A stream is what the chunks before this one give, what this one gives, and a rest. */
  lemma ChunkWithin(items: seq<Item>, es: seq<Event>, n: nat, k: nat) returns (rest: seq<Event>)
    requires Streamed(items, es) && UpToRaise(items, n) && k < n
    ensures es == Body(items[..k]) + Deltas(items[k].content, items[k].calls) + rest
  {
    hide Body, Deltas, LastTotal, LastFinish, FirstRaise, Normalized;
    assert items == items[..k] + items[k..];
    BodyConcat(items[..k], items[k..]);
    var behind := FirstOfBody(items[k..]);
    rest := behind + if Clean(items) then Ending(items) else [Error(FirstRaise(items))];
  }

  lemma Between(before: seq<Event>, own: seq<Event>, rest: seq<Event>)
    ensures var es := before + own + rest;
            es[..|before|] == before && forall j | 0 <= j < |own| :: es[|before| + j] == own[j]
  {
  }

  lemma DeltasInOrder(content: string, calls: seq<ToolDelta>)
    ensures var own := Deltas(content, calls); var text := if content == "" then 0 else 1;
            && |own| == text + |calls| && (content != "" ==> own[0] == TextDelta(content))
            && forall j | 0 <= j < |calls| :: own[text + j] == ToolCallDelta(calls[j])
  {
  }

  lemma FirstOfBody(items: seq<Item>) returns (rest: seq<Event>)
    requires items != []
    ensures Body(items) == Deltas(items[0].content, items[0].calls) + rest
  {
    rest := if items[0].Raise? then [] else Body(items[1..]);
  }

  /** The finish reason that was given last; "" if none was. */
  predicate FinishedWith(items: seq<Item>, finish: string) {
    || (finish == "" && forall j | 0 <= j < |items| && items[j].Chunk? :: items[j].finish == "")
    || (finish != "" && exists k | 0 <= k < |items| ::
          items[k].Chunk? && items[k].finish == finish
          && forall j | k < j < |items| && items[j].Chunk? :: items[j].finish == "")
  }

  /** The tokens of the usage block that was given last, 0 without one: its total, or else prompt and completion. */
  predicate Counted(items: seq<Item>, tokens: int) {
    || (tokens == 0 && forall j | 0 <= j < |items| && items[j].Chunk? :: items[j].usage.None?)
    || (exists k | 0 <= k < |items| ::
          && items[k].Chunk? && items[k].usage.Some?
          && (forall j | k < j < |items| && items[j].Chunk? :: items[j].usage.None?)
          && var raw := items[k].usage.value;
             tokens == if raw.total != 0 then raw.total else raw.prompt + raw.completion)
  }

  lemma {:induction false} LastFinishIs(items: seq<Item>)
    ensures var f := LastFinish(items); FinishedWith(items, f) || (f == "stop" && FinishedWith(items, ""))
    decreases |items|
  {
    if items != [] {
      LastFinishIs(items[..|items| - 1]);
    }
  }

  lemma {:induction false} LastTotalIs(items: seq<Item>)
    ensures Counted(items, LastTotal(items))
    decreases |items|
  {
    hide Counted;
    if items == [] {
      NothingCounted();
    } else {
      LastTotalIs(items[..|items| - 1]);
      CountedOneMore(items[..|items| - 1], items[|items| - 1], LastTotal(items[..|items| - 1]));
      assert items == items[..|items| - 1] + [items[|items| - 1]];
    }
  }

  lemma NothingCounted()
    ensures Counted([], 0)
  {
  }

  lemma CountedOneMore(items: seq<Item>, item: Item, tokens: int)
    requires Counted(items, tokens)
    ensures Counted(items + [item], if item.Chunk? && item.usage.Some? then item.usage.value.Total() else tokens)
  {
    var more := items + [item];
    if item.Chunk? && item.usage.Some? {
      assert more[|items|] == item;
    } else if !(tokens == 0 && forall j | 0 <= j < |items| && items[j].Chunk? :: items[j].usage.None?) {
      var k :| && 0 <= k < |items| && items[k].Chunk? && items[k].usage.Some?
               && (forall j | k < j < |items| && items[j].Chunk? :: items[j].usage.None?)
               && var raw := items[k].usage.value;
                  tokens == if raw.total != 0 then raw.total else raw.prompt + raw.completion;
      assert more[k] == items[k];
    }
  }

  /** How a stream in which nothing raised ends: with the usage of the last block if that counts any tokens, and with
      done, for the reason given last. */
  lemma StreamEnds(items: seq<Item>, es: seq<Event>, tokens: int, finish: string)
    requires Clean(items) && Streamed(items, es) && Counted(items, tokens) && FinishedWith(items, finish)
    ensures var reason := if finish == "tool_calls" then "tool_calls"
                          else if finish == "length" || finish == "max_tokens" then "length" else "stop";
            && es != [] && es[|es| - 1] == Done(reason)
            && (tokens > 0 ==> |es| >= 2 && es[|es| - 2] == Usage(Some(tokens), 0))
            && (tokens <= 0 ==> forall e | e in es :: !e.Usage?)
  {
    hide Body, LastTotal, LastFinish;
    BodyIsDeltas(items);
    LastFinishIs(items);
    LastTotalIs(items);
    OneTotal(items, tokens, LastTotal(items));
    if LastFinish(items) == "stop" && FinishedWith(items, "") {
      OneFinish(items, finish, "");
    } else {
      OneFinish(items, finish, LastFinish(items));
    }
  }

  lemma OneTotal(items: seq<Item>, x: int, y: int)
    requires Counted(items, x) && Counted(items, y)
    ensures x == y
  {
  }

  lemma OneFinish(items: seq<Item>, x: string, y: string)
    requires FinishedWith(items, x) && FinishedWith(items, y)
    ensures x == y
  {
  }

  /** The error of a stream is that of the first item that raises. */
  lemma StreamFails(items: seq<Item>, es: seq<Event>, k: nat)
    requires Streamed(items, es) && k < |items| && items[k].Raise? && forall j | 0 <= j < k :: items[j].Chunk?
    ensures es != [] && es[|es| - 1] == Error(items[k].code)
  {
    hide Body;
    BodyStops(items, k);
  }

  /** How opening the provider's stream goes: it, or reading its first chunk, raises; or there are chunks to come. */
  datatype Opened = Unopened(code: string) | Chunks(items: seq<Item>)

  /** What the caller of an upstream gets: nothing, an HTTP error, or a stream. */
  datatype Served = Nothing | HttpError(code: string) | Stream(events: seq<Event>)

  /** _prepared_events, and the answer of chat to a streaming request: the stream is only promised once its first
      chunk has been read. */
  method ServeStream(o: Opened) returns (served: Served)
    ensures Serves(o, served)
  {
    match o {
      case Unopened(code) => served := HttpError(code);
      case Chunks(items) =>
        var events := StreamEvents(items);
        served := Stream(events);
    }
  }

  ghost predicate Serves(o: Opened, served: Served) {
    match o
    case Unopened(code) => served == HttpError(code)
    case Chunks(items) => served.Stream? && Streamed(items, served.events)
  }

  /** What a buffered call gets from the same stream: an HTTP error, or the total of the first usage event. */
  datatype Buffered = Failed(code: string) | Total(n: int)

  /** n is what the first usage event says, 0 if it says nothing or there is none. */
  ghost predicate Reports(es: seq<Event>, n: int) {
    || (n == 0 && forall e | e in es :: !e.Usage?)
    || exists k | 0 <= k < |es| :: ReportsAt(es, n, k)
  }

  ghost predicate ReportsAt(es: seq<Event>, n: int, k: nat)
    requires k < |es|
  {
    && es[k].Usage? && (forall j | 0 <= j < k :: !es[j].Usage?)
    && n == match es[k].total case Some(t) => t case None => 0
  }

  /** The aggregation of usage and failure in chat. */
  method Buffer(es: seq<Event>) returns (r: Buffered)
    ensures r.Failed? <==> exists e :: e in es && e.Error?
    ensures r.Failed? ==> exists k :: 0 <= k < |es| && es[k] == Error(r.code) && forall j | 0 <= j < k :: !es[j].Error?
    ensures r.Total? ==> Reports(es, r.n)
  {
    var i := 0;
    while i < |es|
      invariant 0 <= i <= |es|
      invariant forall e | e in es[..i] :: !e.Error?
    {
      if es[i].Error? {
        assert forall j | 0 <= j < i :: es[j] in es[..i];
        return Failed(es[i].code);
      }
      i := i + 1;
    }
    assert es[..i] == es;
    i := 0;
    while i < |es|
      invariant 0 <= i <= |es|
      invariant forall j | 0 <= j < i :: !es[j].Usage?
    {
      if es[i].Usage? {
        assert es[i].total.Some? ==> ReportsAt(es, es[i].total.value, i);
        assert es[i].total.None? ==> ReportsAt(es, 0, i);
        return Total(if es[i].total.Some? then es[i].total.value else 0);
      }
      i := i + 1;
    }
    r := Total(0);
  }

  /** Something raises, and neither that item nor one before it carries text or tool calls. */
  ghost predicate RaisesFirst(items: seq<Item>) {
    exists k | 0 <= k < |items| :: RaisesFirstAt(items, k)
  }

  ghost predicate RaisesFirstAt(items: seq<Item>, k: nat)
    requires k < |items|
  {
    items[k].Raise? && forall j | 0 <= j <= k :: items[j].content == "" && items[j].calls == []
  }

  lemma NothingRaises()
    ensures !RaisesFirst([]) && Clean([])
  {
  }

  lemma RaisesNow(items: seq<Item>)
    requires items != [] && items[0].Raise? && items[0].content == "" && items[0].calls == []
    ensures RaisesFirst(items)
  {
    assert RaisesFirstAt(items, 0);
  }

  lemma RaisesLater(items: seq<Item>)
    requires items != [] && items[0].content == "" && items[0].calls == [] && RaisesFirst(items[1..])
    ensures RaisesFirst(items)
  {
    var rest := items[1..];
    var k :| 0 <= k < |rest| && RaisesFirstAt(rest, k);
    assert items[k + 1] == rest[k];
    forall j | 0 <= j <= k + 1
      ensures items[j].content == "" && items[j].calls == []
    {
      assert j > 0 ==> items[j] == rest[j - 1];
    }
    assert RaisesFirstAt(items, k + 1);
  }

  lemma RaisesBegin(items: seq<Item>)
    requires RaisesFirst(items)
    ensures items != [] && items[0].content == "" && items[0].calls == []
    ensures items[0].Raise? || RaisesFirst(items[1..])
  {
    var k :| 0 <= k < |items| && RaisesFirstAt(items, k);
    if k > 0 {
      assert RaisesFirstAt(items[1..], k - 1);
    }
  }

  lemma FirstOfClean(items: seq<Item>)
    requires items != []
    ensures Clean(items) <==> items[0].Chunk? && Clean(items[1..])
  {
    assert items == [items[0]] + items[1..];
  }

  lemma EmptyBody(items: seq<Item>)
    requires items != []
    ensures Body(items) == [] <==>
            items[0].content == "" && items[0].calls == [] && (items[0].Raise? || Body(items[1..]) == [])
  {
    hide Deltas;
    DeltasInOrder(items[0].content, items[0].calls);
  }

  lemma {:induction false} RaisesWithoutDelta(items: seq<Item>)
    ensures !Clean(items) && Body(items) == [] <==> RaisesFirst(items)
    decreases |items|
  {
    hide RaisesFirst, Body, Clean;
    if items == [] {
      NothingRaises();
    } else {
      RaisesWithoutDelta(items[1..]);
      FirstOfClean(items);
      EmptyBody(items);
      if RaisesFirst(items) {
        RaisesBegin(items);
      } else if items[0].content == "" && items[0].calls == [] {
        if items[0].Raise? {
          RaisesNow(items);
        } else if RaisesFirst(items[1..]) {
          RaisesLater(items);
        }
      }
    }
  }
}

/** What a buffered response says, in the words of the stream's own deltas. */
module Responses {
  import opened Options
  import opened Adapter
  import opened Aggregation

  function IdOf(d: ToolDelta): string { d.id }

  function NameOf(d: ToolDelta): string { d.name }

  /** The value is the last one that a delta of this index gives for the field, "" if none does. */
  ghost predicate LastGiven(es: seq<Event>, index: int, field: ToolDelta -> string, value: string) {
    || (value == "" && NoneGiven(es, 0, index, field))
    || (value != "" && exists k | 0 <= k < |es| ::
          && es[k].ToolCallDelta? && es[k].call.index == index && field(es[k].call) == value
          && NoneGiven(es, k + 1, index, field))
  }

  ghost predicate NoneGiven(es: seq<Event>, start: nat, index: int, field: ToolDelta -> string) {
    forall j | start <= j < |es| && es[j].ToolCallDelta? && es[j].call.index == index :: field(es[j].call) == ""
  }

  /** What an event brings to the arguments of this index. */
  function Piece(e: Event, index: int): string {
    if e.ToolCallDelta? && e.call.index == index then e.call.arguments else ""
  }

  /** The arguments that the deltas of this index bring, put together. */
  function ArgumentsAt(es: seq<Event>, index: int): string {
    if es == [] then "" else Piece(es[0], index) + ArgumentsAt(es[1..], index)
  }

  lemma NextGiven(es: seq<Event>, e: Event, index: int, field: ToolDelta -> string, value: string)
    requires LastGiven(es, index, field, value)
    ensures LastGiven(es + [e], index, field,
                      if e.ToolCallDelta? && e.call.index == index && field(e.call) != "" then field(e.call) else value)
  {
    if e.ToolCallDelta? && e.call.index == index && field(e.call) != "" {
      assert (es + [e])[|es|] == e;
    } else if value != "" {
      var k :| 0 <= k < |es| && es[k].ToolCallDelta? && es[k].call.index == index && field(es[k].call) == value
               && NoneGiven(es, k + 1, index, field);
      assert (es + [e])[k] == es[k];
    }
  }

  lemma FirstArguments(e: Event, es: seq<Event>, index: int)
    ensures ArgumentsAt([e] + es, index) == Piece(e, index) + ArgumentsAt(es, index)
  {
    assert ([e] + es)[1..] == es;
  }

  lemma NoArguments(index: int)
    ensures ArgumentsAt([], index) == ""
  {
  }

  lemma {:induction false} NextArguments(es: seq<Event>, e: Event, index: int)
    ensures ArgumentsAt(es + [e], index) == ArgumentsAt(es, index) + Piece(e, index)
    decreases |es|
  {
    hide ArgumentsAt, Piece;
    if es == [] {
      NoArguments(index);
      FirstArguments(e, [], index);
      assert [e] + [] == [] + [e];
    } else {
      var rest := es[1..];
      NextArguments(rest, e, index);
      FirstArguments(es[0], rest, index);
      FirstArguments(es[0], rest + [e], index);
      assert es == [es[0]] + rest && es + [e] == [es[0]] + (rest + [e]);
    }
  }

  lemma NothingSays(index: int)
    ensures var c := Folded(CallsAt([], index));
            && LastGiven([], index, IdOf, c.id) && LastGiven([], index, NameOf, c.name)
            && c.arguments == ArgumentsAt([], index)
  {
  }

  /** What the deltas of an index fold to: id and name as given last, and all arguments. */
  lemma {:induction false} FoldSays(es: seq<Event>, index: int)
    ensures var c := Folded(CallsAt(es, index));
            && LastGiven(es, index, IdOf, c.id) && LastGiven(es, index, NameOf, c.name)
            && c.arguments == ArgumentsAt(es, index)
    decreases |es|
  {
    hide LastGiven, Folded, CallsAt, ArgumentsAt;
    if es == [] {
      NothingSays(index);
    } else {
      var front, e := es[..|es| - 1], es[|es| - 1];
      var c := Folded(CallsAt(front, index));
      assert es == front + [e];
      FoldSays(front, index);
      OneMore(front, e);
      NextGiven(front, e, index, IdOf, c.id);
      NextGiven(front, e, index, NameOf, c.name);
      NextArguments(front, e, index);
      if e.ToolCallDelta? && e.call.index == index {
        FoldOneMore(CallsAt(front, index), e.call);
      } else {
        assert CallsAt(front, index) + [] == CallsAt(front, index);
      }
    }
  }

  /** The indexes of the stream's tool deltas, in strictly increasing order. */
  ghost predicate Order(es: seq<Event>, order: seq<int>) {
    && (forall m, n | 0 <= m < n < |order| :: order[m] < order[n])
    && forall i :: i in order <==> exists e :: e in es && e.ToolCallDelta? && e.call.index == i
  }

  /** The part is the tool call of this index; its arguments are left to the reader of the raw ones. */
  ghost predicate IsCall(es: seq<Event>, index: int, part: Part) {
    part.CallPart? && LastGiven(es, index, IdOf, part.id) && LastGiven(es, index, NameOf, part.name)
  }

  /** All the text in one part if there is any, then one part for each tool call in the order of their indexes. */
  ghost predicate Assembled(es: seq<Event>, order: seq<int>, parts: seq<Part>) {
    && Order(es, order) && |parts| == (if Said(es) == "" then 0 else 1) + |order|
    && (Said(es) != "" ==> parts[0] == TextPart(Said(es)))
    && forall n | 0 <= n < |order| :: IsCall(es, order[n], parts[|parts| - |order| + n])
  }

  lemma IndexesInOrder(es: seq<Event>)
    ensures Order(es, Ascending(Indexes(es)))
  {
    var order := Ascending(Indexes(es));
    forall i
      ensures i in order <==> exists e :: e in es && e.ToolCallDelta? && e.call.index == i
    {
      assert i in order <==> i in Indexes(es);
    }
  }

  lemma PartsAssembled(es: seq<Event>, arguments: string -> Arguments)
    ensures Assembled(es, Ascending(Indexes(es)), PartsOf(Collection(es), arguments))
  {
    hide Said, CallsAt, Folded, Indexes, Ascending, Sorts, PartsOf, Order, LastGiven;
    var order, parts := Ascending(Indexes(es)), PartsOf(Collection(es), arguments);
    IndexesInOrder(es);
    PartsInOrder(es, arguments);
    forall n | 0 <= n < |order|
      ensures IsCall(es, order[n], parts[|parts| - |order| + n])
    {
      FoldSays(es, order[n]);
    }
  }

  /** The arguments of the part with this number. */
  lemma ArgumentsOfPart(es: seq<Event>, arguments: string -> Arguments, n: nat)
    requires var order, parts := Ascending(Indexes(es)), PartsOf(Collection(es), arguments);
             n < |order| && Assembled(es, order, parts)
    ensures var order, parts := Ascending(Indexes(es)), PartsOf(Collection(es), arguments);
            PartFor(es, order, parts, n).arguments == arguments(ArgumentsAt(es, order[n]))
  {
    hide Said, CallsAt, Folded, Indexes, Ascending, Sorts, PartsOf, Order, LastGiven, ArgumentsAt;
    FoldSays(es, Ascending(Indexes(es))[n]);
    PartsInOrder(es, arguments);
  }

  /** The part of the n-th tool call. */
  ghost function PartFor(es: seq<Event>, order: seq<int>, parts: seq<Part>, n: nat): (part: Part)
    requires Assembled(es, order, parts) && n < |order|
    ensures part.CallPart?
  {
    assert IsCall(es, order[n], parts[|parts| - |order| + n]);
    parts[|parts| - |order| + n]
  }

  /** The Go service leaves arguments out that did not come. */
  ghost predicate GoReads(parse: Parser, raw: string, read: Arguments) {
    if raw == "" then read == Absent else parse(raw).Some? && read == Parsed(parse(raw).value)
  }

  /** The adapter reads them as an empty object, and keeps what is not JSON as it came. */
  ghost predicate PythonReads(parse: Parser, raw: string, read: Arguments) {
    var value := parse(if raw == "" then "{}" else raw);
    read == if value.Some? then Parsed(value.value) else Raw(raw)
  }

  /** A response of the Go service, and one of the adapter, that says what the stream said. */
  ghost predicate GoSays(es: seq<Event>, parse: Parser, order: seq<int>, parts: seq<Part>) {
    Assembled(es, order, parts) && forall n | 0 <= n < |order| ::
        GoReads(parse, ArgumentsAt(es, order[n]), PartFor(es, order, parts, n).arguments)
  }

  ghost predicate PythonSays(es: seq<Event>, parse: Parser, order: seq<int>, parts: seq<Part>) {
    Assembled(es, order, parts) && forall n | 0 <= n < |order| ::
        PythonReads(parse, ArgumentsAt(es, order[n]), PartFor(es, order, parts, n).arguments)
  }

  /** Some tool call has arguments that are not JSON. */
  ghost predicate Malformed(es: seq<Event>, parse: Parser) {
    exists i :: ArgumentsAt(es, i) != "" && parse(ArgumentsAt(es, i)).None?
  }

  lemma OnlyCalledHaveArguments(es: seq<Event>, index: int)
    requires index !in Indexes(es)
    ensures ArgumentsAt(es, index) == ""
  {
    hide Folded, CallsAt, ArgumentsAt, LastGiven;
    FoldSays(es, index);
    NoCalls(es, index);
    NothingFolds();
  }

  lemma UnparseableIsMalformed(es: seq<Event>, parse: Parser)
    ensures Unparseable(Collection(es), parse) <==> Malformed(es, parse)
  {
    hide ArgumentsAt, Folded, CallsAt, LastGiven, Said;
    forall i
      ensures i in Indexes(es) ==> Collection(es).calls[i].arguments == ArgumentsAt(es, i)
      ensures i !in Indexes(es) ==> ArgumentsAt(es, i) == ""
    {
      FoldSays(es, i);
      if i !in Indexes(es) {
        OnlyCalledHaveArguments(es, i);
      }
    }
    if i :| ArgumentsAt(es, i) != "" && parse(ArgumentsAt(es, i)).None? {
      NotParsed(Collection(es), parse, i);
    }
  }

  /** The response of the Go service: a failure exactly if the provider's call broke off, an error event came, or the
      arguments of a tool call are not JSON; otherwise what the stream said. */
  lemma GoAnswers(es: seq<Event>, broke: bool, parse: Parser)
    ensures var r := GoResponse(es, broke, parse);
            && (r.Failure? <==> broke || (exists e :: e in es && e.Error?) || Malformed(es, parse))
            && (r.Parts? ==> exists order :: GoSays(es, parse, order, r.parts))
  {
    hide Collection, Unparseable, Malformed, PartsOf, GoReads, GoArguments;
    UnparseableIsMalformed(es, parse);
    if !Malformed(es, parse) {
      GoPartsSay(es, parse);
    }
  }

  lemma GoPartsSay(es: seq<Event>, parse: Parser)
    requires !Malformed(es, parse)
    ensures GoSays(es, parse, Ascending(Indexes(es)), PartsOf(Collection(es), GoValue(parse)))
  {
    hide Collection, PartsOf, ArgumentsAt, Ascending, Indexes, Assembled;
    var order, parts := Ascending(Indexes(es)), PartsOf(Collection(es), GoValue(parse));
    PartsAssembled(es, GoValue(parse));
    forall n | 0 <= n < |order|
      ensures GoReads(parse, ArgumentsAt(es, order[n]), PartFor(es, order, parts, n).arguments)
    {
      ArgumentsOfPart(es, GoValue(parse), n);
      assert ArgumentsAt(es, order[n]) == "" || parse(ArgumentsAt(es, order[n])).Some?;
    }
  }

  /** The response of the adapter: a failure exactly on an error event; otherwise what the stream said. */
  lemma PythonAnswers(es: seq<Event>, parse: Parser)
    ensures var r := PythonResponse(es, parse);
            && (r.Failure? <==> exists e :: e in es && e.Error?)
            && (r.Parts? ==> exists order :: PythonSays(es, parse, order, r.parts))
  {
    hide Collection, PartsOf, ArgumentsAt, Ascending, Indexes, Assembled;
    var order, parts := Ascending(Indexes(es)), PartsOf(Collection(es), PythonValue(parse));
    PartsAssembled(es, PythonValue(parse));
    forall n | 0 <= n < |order|
      ensures PythonReads(parse, ArgumentsAt(es, order[n]), PartFor(es, order, parts, n).arguments)
    {
      ArgumentsOfPart(es, PythonValue(parse), n);
    }
    assert PythonSays(es, parse, order, parts);
  }

  lemma ReadersAgree(parse: Parser, raw: string)
    requires raw != "" && parse(raw).Some?
    ensures GoValue(parse)(raw) == PythonValue(parse)(raw)
  {
  }

  /** Where the arguments of every tool call are given and well formed, the two aggregators answer alike. */
  lemma AggregatorsAgree(es: seq<Event>, parse: Parser)
    requires forall e | e in es && e.ToolCallDelta? ::
               var raw := ArgumentsAt(es, e.call.index); raw != "" && parse(raw).Some?
    ensures GoResponse(es, false, parse) == PythonResponse(es, parse)
  {
    hide Said, CallsAt, Folded, Ascending, ArgumentsAt, Aggregation.Failed, TextParts, GoValue, PythonValue,
         Unparseable, LastGiven;
    var c, order := Collection(es), Ascending(Indexes(es));
    SortedAreKeys(order, Indexes(es));
    UnparseableIsMalformed(es, parse);
    WellFormed(es, parse);
    forall n | 0 <= n < |order|
      ensures ToPart(c.calls[order[n]], GoValue(parse)) == ToPart(c.calls[order[n]], PythonValue(parse))
    {
      FoldSays(es, order[n]);
      ReadersAgree(parse, ArgumentsAt(es, order[n]));
    }
    assert c.calls.Keys == Indexes(es);
    assert PartsOf(c, GoValue(parse)) == PartsOf(c, PythonValue(parse));
  }

  lemma WellFormed(es: seq<Event>, parse: Parser)
    requires forall e | e in es && e.ToolCallDelta? :: parse(ArgumentsAt(es, e.call.index)).Some?
    ensures !Malformed(es, parse)
  {
    hide ArgumentsAt;
    forall i | i !in Indexes(es)
      ensures ArgumentsAt(es, i) == ""
    {
      OnlyCalledHaveArguments(es, i);
    }
  }
}

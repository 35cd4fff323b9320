/** Folding a delta stream into one response: the concatenated text, then one part per tool call. */
module Aggregation {
  import opened Options
  import opened Adapter
  import Schema

  /** A tool call while its deltas come in: the last id and name that were not empty, and the arguments so far. */
  datatype Call = Call(id: string, name: string, arguments: string)

  const NO_CALL := Call("", "", "")

  datatype Arguments = Absent | Parsed(value: Schema.Json) | Raw(text: string)

  datatype Part = TextPart(text: string) | CallPart(id: string, name: string, arguments: Arguments)

  datatype Response = Failure | Parts(parts: seq<Part>)

  function Update(c: Call, d: ToolDelta): Call {
    Call(if d.id != "" then d.id else c.id, if d.name != "" then d.name else c.name, c.arguments + d.arguments)
  }

  // ---- the specification, by projections of the stream ----

  predicate IsCallAt(e: Event, index: int) { e.ToolCallDelta? && e.call.index == index }

  /** The deltas of one tool call, in order. */
  function CallsAt(es: seq<Event>, index: int): seq<ToolDelta> {
    if es == [] then []
    else CallsAt(es[..|es| - 1], index) + (if IsCallAt(es[|es| - 1], index) then [es[|es| - 1].call] else [])
  }

  function Folded(ds: seq<ToolDelta>): Call {
    if ds == [] then NO_CALL else Update(Folded(ds[..|ds| - 1]), ds[|ds| - 1])
  }

  /** The text, and what every index folds to. */
  datatype Collected = Collected(text: string, calls: map<int, Call>)

  function Indexes(es: seq<Event>): set<int> { set e | e in es && e.ToolCallDelta? :: e.call.index }

  function Collection(es: seq<Event>): Collected {
    Collected(Said(es), map i | i in Indexes(es) :: Folded(CallsAt(es, i)))
  }

  predicate Increasing(xs: seq<int>) { forall i, j | 0 <= i < j < |xs| :: xs[i] < xs[j] }

  /** The keys in increasing order. */
  ghost predicate Sorts(xs: seq<int>, keys: set<int>) { Increasing(xs) && forall k :: k in xs <==> k in keys }

  lemma SortedAreKeys(xs: seq<int>, keys: set<int>)
    requires Sorts(xs, keys)
    ensures forall j | 0 <= j < |xs| :: xs[j] in keys
  {
    assert forall j | 0 <= j < |xs| :: xs[j] in xs;
  }

  lemma {:induction false} OneOrder(xs: seq<int>, ys: seq<int>, keys: set<int>)
    requires Sorts(xs, keys) && Sorts(ys, keys)
    ensures xs == ys
    decreases |xs|
  {
    assert ys != [] ==> ys[0] in ys && ys[0] in xs;
    if xs == [] {
    } else {
      var m := xs[|xs| - 1];
      assert m in keys && m in ys;
      var n := ys[|ys| - 1];
      assert n in keys && n in xs;
      assert m == n;
      SortsFront(xs, keys);
      SortsFront(ys, keys);
      OneOrder(xs[..|xs| - 1], ys[..|ys| - 1], keys - {m});
    }
  }

  lemma SortsFront(xs: seq<int>, keys: set<int>)
    requires Sorts(xs, keys) && xs != []
    ensures Sorts(xs[..|xs| - 1], keys - {xs[|xs| - 1]})
  {
  }

  // ---- the two aggregators ----

  /** The loop over the events that both aggregators share: a builder for the text, one entry per index. */
  method Collect(es: seq<Event>) returns (c: Collected)
    ensures c == Collection(es)
  {
    hide Said, Indexes, CallsAt, Folded, Update;
    NothingCollected();
    var text := "";
    var calls: map<int, Call> := map[];
    var n := 0;
    while n < |es|
      invariant 0 <= n <= |es|
      invariant Collected(text, calls) == Collection(es[..n])
    {
      CollectOneMore(es[..n], es[n]);
      assert es[..n] + [es[n]] == es[..n + 1];
      match es[n] {
        case TextDelta(t) => text := text + t;
        case ToolCallDelta(d) =>
          if d.index !in calls {
            calls := calls[d.index := NO_CALL];
          }
          calls := calls[d.index := Update(calls[d.index], d)];
        case _ =>
      }
      n := n + 1;
    }
    assert es[..n] == es;
    c := Collected(text, calls);
  }

  lemma NothingCollected()
    ensures Collection([]) == Collected("", map[])
  {
  }

  lemma OneMore(es: seq<Event>, e: Event)
    ensures Said(es + [e]) == Said(es) + (if e.TextDelta? then e.text else "")
    ensures forall i :: CallsAt(es + [e], i) == CallsAt(es, i) + (if IsCallAt(e, i) then [e.call] else [])
  {
  }

  lemma OneMoreIndex(es: seq<Event>, e: Event)
    ensures Indexes(es + [e]) == Indexes(es) + (if e.ToolCallDelta? then {e.call.index} else {})
  {
  }

  lemma FoldOneMore(ds: seq<ToolDelta>, d: ToolDelta)
    ensures Folded(ds + [d]) == Update(Folded(ds), d)
  {
  }

  /** What one event does to the collection. */
  lemma CollectOneMore(es: seq<Event>, e: Event)
    ensures var c := Collection(es); var c' := Collection(es + [e]);
            && c'.text == c.text + (if e.TextDelta? then e.text else "")
            && c'.calls == if !e.ToolCallDelta? then c.calls
                           else var i := e.call.index;
                                c.calls[i := Update(if i in c.calls then c.calls[i] else NO_CALL, e.call)]
  {
    hide Said, CallsAt, Folded, Indexes, Update;
    OneMore(es, e);
    OneMoreIndex(es, e);
    if e.ToolCallDelta? {
      var i := e.call.index;
      FoldOneMore(CallsAt(es, i), e.call);
      if i !in Indexes(es) {
        NoCalls(es, i);
        assert Folded([]) == NO_CALL by { NothingFolds(); }
      }
    }
    assert forall i | i in Indexes(es) && !IsCallAt(e, i) ::
           CallsAt(es + [e], i) == CallsAt(es, i) + [] == CallsAt(es, i);
  }

  lemma NothingFolds()
    ensures Folded([]) == NO_CALL
  {
  }

  lemma {:induction false} NoCalls(es: seq<Event>, index: int)
    requires index !in Indexes(es)
    ensures CallsAt(es, index) == []
    decreases |es|
  {
    if es != [] {
      assert es[|es| - 1] in es;
      assert forall e | e in es[..|es| - 1] :: e in es;
      NoCalls(es[..|es| - 1], index);
    }
  }

  method Pick<T>(s: set<T>) returns (t: T)
    requires |s| > 0
    ensures t in s
  {
    t :| t in s;
  }

  /** sort.Ints over the keys of the map */
  method SortedKeys(calls: map<int, Call>) returns (xs: seq<int>)
    ensures Sorts(xs, calls.Keys)
  {
    xs := [];
    var left := calls.Keys;
    while |left| > 0
      invariant left <= calls.Keys && Sorts(xs, calls.Keys - left)
      decreases |left|
    {
      var k := Pick(left);
      var at := 0;
      while at < |xs| && xs[at] < k
        invariant 0 <= at <= |xs| && forall j | 0 <= j < at :: xs[j] < k
      {
        at := at + 1;
      }
      InsertSorts(xs, calls.Keys - left, at, k);
      xs := xs[..at] + [k] + xs[at..];
      left := left - {k};
      assert calls.Keys - left == calls.Keys - (left + {k}) + {k};
    }
  }

  lemma InsertSorts(xs: seq<int>, keys: set<int>, at: nat, k: int)
    requires Sorts(xs, keys) && k !in keys && at <= |xs|
    requires (forall j | 0 <= j < at :: xs[j] < k) && (at < |xs| ==> k <= xs[at])
    ensures Sorts(xs[..at] + [k] + xs[at..], keys + {k})
  {
  }

  /** Parses tool arguments. */
  type Parser = string -> Option<Schema.Json>

  function GoArguments(parse: Parser, raw: string): Option<Arguments> {
    if raw == "" then Some(Absent)
    else match parse(raw)
         case Some(v) => Some(Parsed(v))
         case None => None
  }

  function PythonArguments(parse: Parser, raw: string): Arguments {
    match parse(if raw == "" then "{}" else raw)
    case Some(v) => Parsed(v)
    case None => Raw(raw)
  }

  function TextParts(text: string): seq<Part> { if text == "" then [] else [TextPart(text)] }

  lemma SortsPush(xs: seq<int>, keys: set<int>, m: int)
    requires m in keys && Sorts(xs, keys - {m}) && forall k | k in keys :: k <= m
    ensures Sorts(xs + [m], keys)
  {
    SortedAreKeys(xs, keys - {m});
    assert forall j | 0 <= j < |xs| :: xs[j] < m;
    forall k | k in keys
      ensures k in xs + [m]
    {
      if k != m {
        assert k in keys - {m};
      }
    }
  }

  ghost function Ascending(keys: set<int>): (xs: seq<int>)
    ensures Sorts(xs, keys)
  {
    if |keys| == 0 then [] else
    var m := Greatest(keys);
    var front := Ascending(keys - {m});
    SortsPush(front, keys, m);
    front + [m]
  }

  ghost function Member<T>(s: set<T>): (t: T)
    requires |s| > 0
    ensures t in s
  {
    var t :| t in s;
    t
  }

  ghost function Greatest(keys: set<int>): (m: int)
    requires |keys| > 0
    ensures m in keys && forall k | k in keys :: k <= m
  {
    var k := Member(keys);
    var rest := keys - {k};
    assert forall j | j in keys :: j == k || j in rest;
    if |rest| == 0 then k else
    var m := Greatest(rest);
    if k > m then k else m
  }

  /** Some tool call's arguments are not JSON. */
  ghost predicate Unparseable(c: Collected, parse: Parser) {
    exists i | i in c.calls :: GoArguments(parse, c.calls[i].arguments).None?
  }

  /** The parts of one response: the text, if any, then one part per index in increasing order. */
  ghost function PartsOf(c: Collected, arguments: string -> Arguments): seq<Part> {
    var order := Ascending(c.calls.Keys);
    TextParts(c.text) + seq(|order|, n requires 0 <= n < |order| => ToPart(c.calls[order[n]], arguments))
  }

  function ToPart(c: Call, arguments: string -> Arguments): Part { CallPart(c.id, c.name, arguments(c.arguments)) }

  ghost predicate Failed(es: seq<Event>) { exists e | e in es :: e.Error? }

  function GoValue(parse: Parser): string -> Arguments {
    raw => match GoArguments(parse, raw) case Some(a) => a case None => Absent
  }

  function PythonValue(parse: Parser): string -> Arguments { raw => PythonArguments(parse, raw) }

  /** What the two aggregators answer. */
  ghost function GoResponse(es: seq<Event>, broke: bool, parse: Parser): Response {
    if broke || Failed(es) || Unparseable(Collection(es), parse) then Failure
    else Parts(PartsOf(Collection(es), GoValue(parse)))
  }

  ghost function PythonResponse(es: seq<Event>, parse: Parser): Response {
    if Failed(es) then Failure else Parts(PartsOf(Collection(es), PythonValue(parse)))
  }

  method AnyError(es: seq<Event>) returns (failed: bool)
    ensures failed == Failed(es)
  {
    failed := false;
    for n := 0 to |es|
      invariant failed == Failed(es[..n])
    {
      assert es[..n + 1] == es[..n] + [es[n]];
      failed := failed || es[n].Error?;
    }
    assert es[..|es|] == es;
  }

  lemma NotParsed(c: Collected, parse: Parser, i: int)
    requires i in c.calls && GoArguments(parse, c.calls[i].arguments).None?
    ensures Unparseable(c, parse)
  {
  }

  /** bufferChat, from the events of its provider, whose call may break off with an error, to the response */
  method BufferChat(es: seq<Event>, broke: bool, parse: Parser) returns (r: Response)
    ensures r == GoResponse(es, broke, parse)
  {
    hide Collection, Failed, GoArguments, Ascending, Increasing, TextParts;
    var c := Collect(es);
    var failed := AnyError(es);
    if broke {
      return Failure;
    }
    if failed {
      return Failure;
    }
    var parts := TextParts(c.text);
    var order := SortedKeys(c.calls);
    OneOrder(order, Ascending(c.calls.Keys), c.calls.Keys);
    SortedAreKeys(order, c.calls.Keys);
    var n := 0;
    while n < |order|
      invariant 0 <= n <= |order|
      invariant forall j | 0 <= j < n :: GoArguments(parse, c.calls[order[j]].arguments).Some?
      invariant parts == TextParts(c.text) + seq(n, j requires 0 <= j < n => ToPart(c.calls[order[j]], GoValue(parse)))
    {
      var call := c.calls[order[n]];
      var arguments := GoArguments(parse, call.arguments);
      if arguments.None? {
        NotParsed(c, parse, order[n]);
        return Failure;
      }
      parts := parts + [CallPart(call.id, call.name, arguments.value)];
      n := n + 1;
    }
    forall i | i in c.calls
      ensures GoArguments(parse, c.calls[i].arguments).Some?
    {
      assert i in order;
    }
    r := Parts(parts);
  }

  /** chat of the adapter, for a buffered request */
  method Chat(es: seq<Event>, parse: Parser) returns (r: Response)
    ensures r == PythonResponse(es, parse)
  {
    hide Collection, Failed, PythonArguments, Ascending, Increasing, TextParts;
    var failed := AnyError(es);
    if failed {
      return Failure;
    }
    var c := Collect(es);
    var parts := TextParts(c.text);
    var order := SortedKeys(c.calls);
    OneOrder(order, Ascending(c.calls.Keys), c.calls.Keys);
    SortedAreKeys(order, c.calls.Keys);
    var n := 0;
    while n < |order|
      invariant 0 <= n <= |order|
      invariant parts == TextParts(c.text)
                + seq(n, j requires 0 <= j < n => ToPart(c.calls[order[j]], PythonValue(parse)))
    {
      var call := c.calls[order[n]];
      parts := parts + [CallPart(call.id, call.name, PythonArguments(parse, call.arguments))];
      n := n + 1;
    }
    r := Parts(parts);
  }

  // ---- the response does not depend on how the stream was scheduled ----

  /** The same text, and for every tool call the same deltas, each in order. */
  ghost predicate SameProjections(es: seq<Event>, fs: seq<Event>) {
    Said(es) == Said(fs) && forall i :: CallsAt(es, i) == CallsAt(fs, i)
  }

  lemma {:induction false} IndexesAreCalled(es: seq<Event>, index: int)
    ensures index in Indexes(es) <==> CallsAt(es, index) != []
    decreases |es|
  {
    if es != [] {
      var front := es[..|es| - 1];
      assert es == front + [es[|es| - 1]];
      OneMoreIndex(front, es[|es| - 1]);
      IndexesAreCalled(front, index);
    }
  }

  /** Any interleaving of the text and of the tool calls gives the same response. */
  lemma AnyInterleaving(es: seq<Event>, fs: seq<Event>)
    requires SameProjections(es, fs)
    ensures Collection(es) == Collection(fs)
  {
    forall i
      ensures i in Indexes(es) <==> i in Indexes(fs)
    {
      IndexesAreCalled(es, i);
      IndexesAreCalled(fs, i);
    }
  }

  lemma {:induction false} ProjectConcat(es: seq<Event>, fs: seq<Event>, index: int)
    ensures Said(es + fs) == Said(es) + Said(fs)
    ensures CallsAt(es + fs, index) == CallsAt(es, index) + CallsAt(fs, index)
    decreases |fs|
  {
    if fs == [] {
      assert es + fs == es;
    } else {
      assert (es + fs)[..|es + fs| - 1] == es + fs[..|fs| - 1];
      ProjectConcat(es, fs[..|fs| - 1], index);
    }
  }

  /** Events that are neither both text nor of the same tool call may change places. */
  lemma NeighboursCommute(before: seq<Event>, d: Event, e: Event, after: seq<Event>)
    requires !(d.TextDelta? && e.TextDelta?)
    requires !(d.ToolCallDelta? && e.ToolCallDelta? && d.call.index == e.call.index)
    ensures SameProjections(before + [d, e] + after, before + [e, d] + after)
  {
    hide Said, CallsAt;
    PairProjects(before, d, e, after, 0);
    PairProjects(before, e, d, after, 0);
    forall i
      ensures CallsAt(before + [d, e] + after, i) == CallsAt(before + [e, d] + after, i)
    {
      PairProjects(before, d, e, after, i);
      PairProjects(before, e, d, after, i);
    }
  }

  function TextOf(e: Event): string { if e.TextDelta? then e.text else "" }

  function CallOf(e: Event, index: int): seq<ToolDelta> { if IsCallAt(e, index) then [e.call] else [] }

  lemma PairProjects(before: seq<Event>, d: Event, e: Event, after: seq<Event>, i: int)
    ensures CallsAt(before + [d, e] + after, i)
            == CallsAt(before, i) + (CallOf(d, i) + CallOf(e, i)) + CallsAt(after, i)
    ensures Said(before + [d, e] + after) == Said(before) + (TextOf(d) + TextOf(e)) + Said(after)
  {
    hide Said, CallsAt;
    ProjectConcat(before + [d, e], after, i);
    ProjectConcat(before, [d, e], i);
    OneMore([], d);
    OneMore([d], e);
    assert [] + [d] == [d] && [d] + [e] == [d, e];
    assert Said([]) == "" && CallsAt([], i) == [] by { NothingProjects(i); }
  }

  lemma NothingProjects(i: int)
    ensures Said([]) == "" && CallsAt([], i) == []
  {
  }

  /** A fragment of text may arrive in two pieces. */
  lemma TextSplits(before: seq<Event>, x: string, y: string, after: seq<Event>)
    ensures Collection(before + [TextDelta(x + y)] + after) == Collection(before + [TextDelta(x), TextDelta(y)] + after)
  {
    var es, fs := before + [TextDelta(x + y)] + after, before + [TextDelta(x), TextDelta(y)] + after;
    forall i
      ensures CallsAt(es, i) == CallsAt(fs, i) && Said(es) == Said(fs)
    {
      PairProjects(before, TextDelta(x), TextDelta(y), after, i);
      OneProjects(before, TextDelta(x + y), after, i);
      assert Said(before) + (x + y) + Said(after) == Said(fs);
    }
    AnyInterleaving(es, fs);
  }

  lemma OneProjects(before: seq<Event>, e: Event, after: seq<Event>, i: int)
    ensures CallsAt(before + [e] + after, i) == CallsAt(before, i) + CallOf(e, i) + CallsAt(after, i)
    ensures Said(before + [e] + after) == Said(before) + TextOf(e) + Said(after)
  {
    hide Said, CallsAt;
    ProjectConcat(before + [e], after, i);
    OneMore(before, e);
  }

  lemma {:induction false} FoldContinues(xs: seq<ToolDelta>, ys: seq<ToolDelta>, zs: seq<ToolDelta>)
    requires Folded(xs) == Folded(ys)
    ensures Folded(xs + zs) == Folded(ys + zs)
    decreases |zs|
  {
    if zs == [] {
      assert xs + zs == xs && ys + zs == ys;
    } else {
      var front, z := zs[..|zs| - 1], zs[|zs| - 1];
      FoldContinues(xs, ys, front);
      assert xs + zs == (xs + front) + [z] && ys + zs == (ys + front) + [z];
      FoldOneMore(xs + front, z);
      FoldOneMore(ys + front, z);
    }
  }

  /** A fragment of a tool call may arrive in two pieces, the second without id and name, or with the same. */
  lemma CallSplits(before: seq<Event>, d: ToolDelta, x: string, y: string, again: bool, after: seq<Event>)
    requires d.arguments == x + y
    ensures var first := d.(arguments := x);
            var second := if again then d.(arguments := y) else ToolDelta(d.index, "", "", y);
            Collection(before + [ToolCallDelta(d)] + after)
            == Collection(before + [ToolCallDelta(first), ToolCallDelta(second)] + after)
  {
    hide Said, CallsAt, Indexes, Folded;
    var first, second := d.(arguments := x), if again then d.(arguments := y) else ToolDelta(d.index, "", "", y);
    var es, fs := before + [ToolCallDelta(d)] + after, before + [ToolCallDelta(first), ToolCallDelta(second)] + after;
    forall i
      ensures i in Indexes(es) <==> i in Indexes(fs)
      ensures Folded(CallsAt(es, i)) == Folded(CallsAt(fs, i)) && Said(es) == Said(fs)
    {
      SplitProjects(before, d, first, second, after, i);
    }
    var c, c' := Collection(es).calls, Collection(fs).calls;
    assert forall i :: i in c <==> i in c';
    assert forall i | i in c :: c[i] == c'[i];
  }

  lemma SplitProjects(before: seq<Event>, d: ToolDelta, first: ToolDelta, second: ToolDelta, after: seq<Event>, i: int)
    requires d.arguments == first.arguments + second.arguments
    requires first.index == second.index == d.index && first.id == d.id && first.name == d.name
    requires (second.id == "" && second.name == "") || (second.id == d.id && second.name == d.name)
    ensures var es := before + [ToolCallDelta(d)] + after;
            var fs := before + [ToolCallDelta(first), ToolCallDelta(second)] + after;
            && (i in Indexes(es) <==> i in Indexes(fs))
            && Folded(CallsAt(es, i)) == Folded(CallsAt(fs, i)) && Said(es) == Said(fs)
  {
    hide Said, CallsAt, Indexes, Folded;
    var es, fs := before + [ToolCallDelta(d)] + after, before + [ToolCallDelta(first), ToolCallDelta(second)] + after;
    OneProjects(before, ToolCallDelta(d), after, i);
    PairProjects(before, ToolCallDelta(first), ToolCallDelta(second), after, i);
    IndexesAreCalled(es, i);
    IndexesAreCalled(fs, i);
    if i == d.index {
      SplitFolds(CallsAt(before, i), d, first, second);
      FoldContinues(CallsAt(before, i) + [d], CallsAt(before, i) + [first, second], CallsAt(after, i));
      assert [first] + [second] == [first, second];
    }
  }

  lemma SplitFolds(ds: seq<ToolDelta>, d: ToolDelta, first: ToolDelta, second: ToolDelta)
    requires d.arguments == first.arguments + second.arguments
    requires first.id == d.id && first.name == d.name
    requires (second.id == "" && second.name == "") || (second.id == d.id && second.name == d.name)
    ensures Folded(ds + [d]) == Folded(ds + [first, second])
  {
    hide Folded;
    FoldOneMore(ds, d);
    FoldOneMore(ds, first);
    FoldOneMore(ds + [first], second);
    assert ds + [first, second] == (ds + [first]) + [second];
    assert Folded(ds).arguments + (first.arguments + second.arguments)
           == (Folded(ds).arguments + first.arguments) + second.arguments;
  }

  lemma PartsCount(c: Collected, arguments: string -> Arguments)
    ensures var order := Ascending(c.calls.Keys); var parts := PartsOf(c, arguments);
            && |parts| == (if c.text == "" then 0 else 1) + |order|
            && (c.text != "" ==> parts[0] == TextPart(c.text))
  {
    hide Ascending, ToPart;
  }

  lemma PartAt(c: Collected, arguments: string -> Arguments, n: nat)
    requires n < |Ascending(c.calls.Keys)|
    ensures var order := Ascending(c.calls.Keys); var parts := PartsOf(c, arguments);
            && |order| <= |parts| && order[n] in c.calls
            && parts[|parts| - |order| + n] == ToPart(c.calls[order[n]], arguments)
  {
    hide Ascending, ToPart, TextParts;
    SortedAreKeys(Ascending(c.calls.Keys), c.calls.Keys);
  }

  /** The parts of any response: one text part with all the text, first, if there is any text; then exactly one
      part per tool index, in strictly increasing order of the index, each with the whole of its arguments. */
  lemma PartsInOrder(es: seq<Event>, arguments: string -> Arguments)
    ensures var order := Ascending(Indexes(es)); var parts := PartsOf(Collection(es), arguments);
            && Sorts(order, Indexes(es)) && |order| == |Indexes(es)|
            && |parts| == (if Said(es) == "" then 0 else 1) + |order|
            && (Said(es) != "" ==> parts[0] == TextPart(Said(es)))
            && forall n | 0 <= n < |order| ::
                 parts[|parts| - |order| + n] == ToPart(Folded(CallsAt(es, order[n])), arguments)
  {
    hide Said, CallsAt, Folded, ToPart, Indexes, Ascending, Sorts, PartsOf;
    var c, order := Collection(es), Ascending(Indexes(es));
    assert c.calls.Keys == Indexes(es);
    SortsCount(order, Indexes(es));
    PartsCount(c, arguments);
    forall n | 0 <= n < |order|
      ensures PartsOf(c, arguments)[|PartsOf(c, arguments)| - |order| + n]
              == ToPart(Folded(CallsAt(es, order[n])), arguments)
    {
      PartAt(c, arguments, n);
    }
  }

  lemma {:induction false} SortsCount(xs: seq<int>, keys: set<int>)
    requires Sorts(xs, keys)
    ensures |xs| == |keys|
    decreases |xs|
  {
    assert |keys| > 0 ==> var k: int := Member(keys); k in keys && k in xs;
    if xs != [] {
      assert xs[|xs| - 1] in xs;
      SortsFront(xs, keys);
      SortsCount(xs[..|xs| - 1], keys - {xs[|xs| - 1]});
    }
  }
}

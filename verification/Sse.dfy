/** Server-sent events as the services frame and read them; one character per byte. */
module Sse {
  const MAX_FRAME_BYTES := 0x10_0000

  predicate IsSpace(ch: char) {
    ch == ' ' || ch == '\t' || ch == '\n' || ch == '\r' || ch == '\U{0B}' || ch == '\U{0C}'
  }

  function TrimLeft(s: string): string {
    if s != "" && IsSpace(s[0]) then TrimLeft(s[1..]) else s
  }

  function TrimRight(s: string): string {
    if s != "" && IsSpace(s[|s| - 1]) then TrimRight(s[..|s| - 1]) else s
  }

  function Trim(s: string): string { TrimRight(TrimLeft(s)) }

  const FIELD := "data:"

  /** The payload of a line, if it carries one. */
  function Payload(line: string): seq<string> {
    var l := Trim(line);
    if !(FIELD <= l) then [] else
    var p := Trim(l[|FIELD|..]);
    if p == "" then [] else [p]
  }

  /** The length of the first line, without its newline. */
  function LineLength(s: string): (n: nat)
    ensures n <= |s| && '\n' !in s[..n] && (n < |s| ==> s[n] == '\n')
  {
    if s == "" || s[0] == '\n' then 0 else
    var n := LineLength(s[1..]);
    assert s[..n + 1] == [s[0]] + s[1..][..n];
    n + 1
  }

  /** What a reader passes on, and whether it gave up on a line that does not fit its buffer. */
  datatype Parsed = Parsed(payloads: seq<string>, tooLong: bool)

  function Parse(s: string): Parsed
    decreases |s|
  {
    if s == "" then Parsed([], false) else
    var n := LineLength(s);
    if n >= MAX_FRAME_BYTES then Parsed([], true) else
    var rest := Parse(if n < |s| then s[n + 1..] else "");
    Parsed(Payload(s[..n]) + rest.payloads, rest.tooLong)
  }

  /** The reading loop of PostSSE. */
  method Read(body: string) returns (payloads: seq<string>, tooLong: bool)
    ensures Parsed(payloads, tooLong) == Parse(body)
  {
    hide Payload, LineLength, Parse;
    NothingParsed();
    payloads := [];
    var left := body;
    while left != ""
      invariant Parse(body) == Parsed(payloads + Parse(left).payloads, Parse(left).tooLong)
      decreases |left|
    {
      var n := LineLength(left);
      ParseOnce(left);
      if n >= MAX_FRAME_BYTES {
        return payloads, true;
      }
      payloads := payloads + Payload(left[..n]);
      left := if n < |left| then left[n + 1..] else "";
    }
    tooLong := false;
  }

  lemma ParseOnce(s: string)
    requires s != ""
    ensures var n := LineLength(s); var rest := Parse(if n < |s| then s[n + 1..] else "");
            Parse(s) == if n >= MAX_FRAME_BYTES then Parsed([], true)
                else Parsed(Payload(s[..n]) + rest.payloads, rest.tooLong)
  {
    hide Payload, LineLength;
  }

  // ---- the writer ----

  function Frame(p: string): string { "data: " + p + "\n\n" }

  function Frames(ps: seq<string>): string {
    if ps == [] then "" else Frame(ps[0]) + Frames(ps[1..])
  }

  /** Space, tab, newline, carriage return, vertical tab and form feed. */
  predicate White(ch: char) { ch in {' ', '\t', '\n', '\r', '\U{0B}', '\U{0C}'} }

  /** A payload that fits a frame: not empty, on one line, without white space around it. */
  predicate Sendable(p: string) {
    p != "" && '\n' !in p && !White(p[0]) && !White(p[|p| - 1]) && |p| + 6 < 1_048_576
  }

  lemma {:induction false} LineLengthAt(s: string, n: nat)
    requires n <= |s| && '\n' !in s[..n] && (n < |s| ==> s[n] == '\n')
    ensures LineLength(s) == n
  {
  }

  /** Reading one line, with or without its newline, and then the rest. */
  lemma ParseLine(line: string, rest: string)
    requires '\n' !in line && |line| < MAX_FRAME_BYTES
    ensures Parse(line + "\n" + rest) == Parsed(Payload(line) + Parse(rest).payloads, Parse(rest).tooLong)
    ensures line != "" ==> Parse(line) == Parsed(Payload(line), false)
  {
    var s := line + "\n" + rest;
    assert s[..|line|] == line && s[|line| + 1..] == rest;
    LineLengthAt(s, |line|);
    assert line[..|line|] == line;
    LineLengthAt(line, |line|);
    assert Payload(line) + [] == Payload(line);
  }

  lemma {:induction false} TrimRightAfter(s: string, t: string)
    requires s != "" && !IsSpace(s[|s| - 1])
    ensures TrimRight(s + t) == s + TrimRight(t)
    decreases |t|
  {
    if t == "" {
      assert s + t == s;
    } else if IsSpace(t[|t| - 1]) {
      assert (s + t)[..|s + t| - 1] == s + t[..|t| - 1];
      TrimRightAfter(s, t[..|t| - 1]);
    } else {
    }
  }

  lemma {:induction false} TrimRightIsPrefix(s: string)
    ensures TrimRight(s) <= s
    ensures TrimRight(s) == "" || !IsSpace(TrimRight(s)[|TrimRight(s)| - 1])
    ensures s != "" && !IsSpace(s[0]) ==> TrimRight(s) != ""
    decreases |s|
  {
    if s != "" && IsSpace(s[|s| - 1]) {
      TrimRightIsPrefix(s[..|s| - 1]);
    }
  }

  /** What a data line with a beginning of a payload, possibly all of it, passes on. */
  lemma PayloadOfLine(t: string)
    requires t == "" || !IsSpace(t[0])
    ensures Payload("data: " + t) == if t == "" then [] else [TrimRight(t)]
  {
    hide TrimRight, TrimLeft;
    var line := "data: " + t;
    TrimLine(t);
    TrimOneSpace();
    if t == "" {
      assert Trim(line)[|FIELD|..] == "";
    } else {
      TrimRightIsPrefix(t);
      assert TrimRight(t)[0] == t[0];
      assert Trim(line)[|FIELD|..] == " " + TrimRight(t);
      TrimValue(TrimRight(t));
    }
  }

  lemma TrimLine(t: string)
    requires t == "" || !IsSpace(t[0])
    ensures Trim("data: " + t) == FIELD + (if t == "" then "" else " " + TrimRight(t))
  {
    hide TrimRight, TrimLeft;
    var line := "data: " + t;
    assert line[0] == 'd' && FIELD[|FIELD| - 1] == ':' && !IsSpace('d') && !IsSpace(':');
    hide IsSpace;
    StartsWhole(line);
    assert line == FIELD + (" " + t);
    TrimRightAfter(FIELD, " " + t);
    if t == "" {
      TrimOneSpace();
    } else {
      TrimRightSpaced(t);
    }
  }

  lemma StartsWhole(s: string)
    requires s != "" && !IsSpace(s[0])
    ensures TrimLeft(s) == s
  {
  }

  lemma TrimOneSpace()
    ensures TrimRight(" " + "") == "" && TrimLeft("") == "" && TrimRight("") == ""
  {
  }

  lemma TrimValue(t: string)
    requires t != "" && !IsSpace(t[0]) && !IsSpace(t[|t| - 1])
    ensures Trim(" " + t) == t
  {
    assert (" " + t)[1..] == t;
    StartsWhole(t);
  }

  lemma {:induction false} TrimRightSpaced(t: string)
    requires t != "" && !IsSpace(t[0])
    ensures TrimRight(" " + t) == " " + TrimRight(t)
    decreases |t|
  {
    if IsSpace(t[|t| - 1]) {
      assert (" " + t)[..|" " + t| - 1] == " " + t[..|t| - 1];
      TrimRightSpaced(t[..|t| - 1]);
    }
  }

  lemma ParseFrame(p: string, rest: string)
    requires Sendable(p)
    ensures Parse(Frame(p) + rest) == Parsed([p] + Parse(rest).payloads, Parse(rest).tooLong)
  {
    hide Parse, Payload;
    PayloadOfLine(p);
    ParseLine("", rest);
    ParseLine("data: " + p, "\n" + rest);
    assert Frame(p) + rest == "data: " + p + "\n" + ("\n" + rest);
    assert "" + "\n" + rest == "\n" + rest;
    assert Payload("") == [] by { BlankLine(); }
  }

  lemma BlankLine()
    ensures Payload("") == []
  {
  }

  /** Reading what was written gives it back. */
  lemma {:induction false} RoundTrip(ps: seq<string>)
    requires forall p | p in ps :: Sendable(p)
    ensures Parse(Frames(ps)) == Parsed(ps, false)
    decreases |ps|
  {
    hide Parse;
    if ps == [] {
      assert Parse("") == Parsed([], false) by { NothingParsed(); }
    } else {
      RoundTrip(ps[1..]);
      ParseFrame(ps[0], Frames(ps[1..]));
    }
  }

  lemma NothingParsed()
    ensures Parse("") == Parsed([], false)
  {
  }

  /** A list of payloads of which the reader got the first m, and possibly a piece of the next. */
  ghost predicate Beginning(got: seq<string>, ps: seq<string>, m: nat) {
    && m <= |ps|
    && (got == ps[..m] || (m < |ps| && |got| == m + 1 && got[..m] == ps[..m] && got[m] != "" && got[m] < ps[m]))
  }

  lemma CutFrame(p: string, j: nat)
    requires Sendable(p) && j < |Frame(p)|
    ensures var got := Parse(Frame(p)[..j]);
            !got.tooLong && exists m: nat :: Beginning(got.payloads, [p], m)
  {
    assert p != "";
    hide Parse, Payload, TrimRight, Sendable;
    if j <= 6 {
      assert Frame(p)[..j] == "data: "[..j];
      ShortCut(j);
      assert Beginning([], [p], 0);
    } else if j - 6 < |p| {
      assert Frame(p)[..j] == "data: " + p[..j - 6];
      CutPayload(p, p[..j - 6], false);
      assert Beginning([TrimRight(p[..j - 6])], [p], 0);
    } else {
      assert Frame(p)[..j] == if j == 6 + |p| then "data: " + p else "data: " + p + "\n" + "";
      CutPayload(p, p, j > 6 + |p|);
      assert Beginning([p], [p], 1);
    }
  }

  /** A frame cut inside its payload, or behind it. */
  lemma CutPayload(p: string, t: string, ended: bool)
    requires Sendable(p) && t <= p && t != ""
    ensures Parse(if ended then "data: " + t + "\n" + "" else "data: " + t) == Parsed([TrimRight(t)], false)
    ensures TrimRight(t) != "" && TrimRight(t) <= t && TrimRight(p) == p
  {
    hide Parse, Payload;
    NothingParsed();
    PayloadOfLine(t);
    TrimRightIsPrefix(t);
    assert '\n' !in t by { assert forall i | 0 <= i < |t| :: t[i] == p[i]; }
    ParseLine("data: " + t, "");
  }

  lemma ShortCut(j: nat)
    requires j <= 6
    ensures Parse("data: "[..j]) == Parsed([], false)
  {
    hide Parse;
    var line := "data: "[..j];
    NothingParsed();
    ParseLine(line, "");
    if j == 6 {
      PayloadOfLine("");
      assert line == "data: " + "";
    } else {
      assert j > 0 ==> !IsSpace(line[j - 1]);
    }
  }

  /** Whatever the byte at which the stream breaks, the reader has the payloads in order, and at most one
      proper piece of the next. */
  lemma {:induction false} CutStream(ps: seq<string>, j: nat)
    requires forall p | p in ps :: Sendable(p)
    requires j <= |Frames(ps)|
    ensures var got := Parse(Frames(ps)[..j]);
            !got.tooLong && exists m: nat :: Beginning(got.payloads, ps, m)
    decreases |ps|
  {
    hide Parse;
    if ps == [] {
      NothingParsed();
      assert Beginning([], ps, 0);
    } else if j < |Frame(ps[0])| {
      assert Frames(ps)[..j] == Frame(ps[0])[..j];
      CutFrame(ps[0], j);
      var got := Parse(Frames(ps)[..j]).payloads;
      var m: nat :| Beginning(got, [ps[0]], m);
      assert Beginning(got, ps, m);
    } else {
      var tail := Frames(ps[1..])[..j - |Frame(ps[0])|];
      assert Frames(ps)[..j] == Frame(ps[0]) + tail;
      CutStream(ps[1..], j - |Frame(ps[0])|);
      ParseFrame(ps[0], tail);
      var got := Parse(tail).payloads;
      var m: nat :| Beginning(got, ps[1..], m);
      assert ps[..m + 1] == [ps[0]] + ps[1..][..m];
      assert ([ps[0]] + got)[..|got| + 1] == [ps[0]] + got;
      if got != ps[1..][..m] {
        assert ([ps[0]] + got)[..m + 1] == [ps[0]] + got[..m];
      }
      assert Beginning([ps[0]] + got, ps, m + 1);
    }
  }

  // ---- other lines ----

  predicate Blank(s: string) { forall i | 0 <= i < |s| :: White(s[i]) }

  /** Text without white space around it. */
  predicate Bare(s: string) { s != "" ==> !White(s[0]) && !White(s[|s| - 1]) }

  lemma {:induction false} TrimLeftBlank(a: string, t: string)
    requires Blank(a) && (t != "" ==> !White(t[0]))
    ensures TrimLeft(a + t) == t
    decreases |a|
  {
    if a == "" {
      assert a + t == t;
    } else {
      assert (a + t)[0] == a[0] && (a + t)[1..] == a[1..] + t;
      TrimLeftBlank(a[1..], t);
    }
  }

  lemma {:induction false} TrimRightBlank(t: string, b: string)
    requires Blank(b) && (t != "" ==> !White(t[|t| - 1]))
    ensures TrimRight(t + b) == t
    decreases |b|
  {
    if b == "" {
      assert t + b == t;
    } else {
      assert (t + b)[|t + b| - 1] == b[|b| - 1] && (t + b)[..|t + b| - 1] == t + b[..|b| - 1];
      TrimRightBlank(t, b[..|b| - 1]);
    }
  }

  lemma TrimStrips(a: string, t: string, b: string)
    requires Blank(a) && Bare(t) && Blank(b)
    ensures Trim(a + t + b) == t
  {
    hide TrimLeft, TrimRight, White;
    if t == "" {
      BlankConcat(a, b);
      TrimLeftBlank(a + b, "");
      assert a + t + b == (a + b) + "";
      TrimRightBlank("", "");
      assert "" + "" == "";
    } else {
      assert a + t + b == a + (t + b) && (t + b)[0] == t[0];
      TrimLeftBlank(a, t + b);
      TrimRightBlank(t, b);
    }
  }

  lemma BlankConcat(a: string, b: string)
    requires Blank(a) && Blank(b)
    ensures Blank(a + b)
  {
  }

  /** White space around a data line, and around its payload, does not count; a payload of nothing else is skipped. */
  lemma PayloadInside(a: string, b: string, p: string, d: string)
    requires Blank(a) && Blank(b) && Bare(p) && Blank(d)
    ensures Payload(a + "data:" + b + p + d) == if p == "" then [] else [p]
  {
    hide Trim, White;
    var l := if p == "" then "data:" else "data:" + b + p;
    assert !White('d') && !White(':') by { NotWhite(); }
    if p == "" {
      BlankConcat(b, d);
      TrimStrips(a, l, b + d);
      assert a + "data:" + b + p + d == a + l + (b + d);
      TrimStrips("", "", "");
      assert l[|FIELD|..] == "" + "" + "";
    } else {
      TrimStrips(a, l, d);
      assert a + "data:" + b + p + d == a + l + d;
      TrimStrips(b, p, "");
      assert l[|FIELD|..] == b + p + "";
    }
  }

  lemma NotWhite()
    ensures !White('d') && !White(':')
  {
  }

  /** Other fields, comments and blank lines carry nothing. */
  lemma OtherLines(a: string, l: string, b: string)
    requires Blank(a) && Bare(l) && Blank(b) && !("data:" <= l)
    ensures Payload(a + l + b) == []
  {
    hide Trim;
    TrimStrips(a, l, b);
  }

  /** What follows written frames is read as if it stood alone. */
  lemma {:induction false} ParseAfter(ps: seq<string>, s: string)
    requires forall p | p in ps :: Sendable(p)
    ensures Parse(Frames(ps) + s) == Parsed(ps + Parse(s).payloads, Parse(s).tooLong)
    decreases |ps|
  {
    hide Parse, Sendable, Frame;
    if ps == [] {
      assert Frames(ps) + s == s && ps + Parse(s).payloads == Parse(s).payloads;
    } else {
      ParseAfter(ps[1..], s);
      ParseFrame(ps[0], Frames(ps[1..]) + s);
      assert Frames(ps) + s == Frame(ps[0]) + (Frames(ps[1..]) + s);
      assert ps == [ps[0]] + ps[1..];
      assert [ps[0]] + (ps[1..] + Parse(s).payloads) == [ps[0]] + ps[1..] + Parse(s).payloads;
    }
  }

  lemma GivesUp(line: string, rest: string)
    requires '\n' !in line && |line| >= 1_048_576
    ensures Parse(line + "\n" + rest) == Parsed([], true)
  {
    var s := line + "\n" + rest;
    assert s[..|line|] == line;
    LineLengthAt(s, |line|);
  }

  /** A line, without its newline, is read if it is shorter than a mebibyte; at any other the reader gives up, and
      passes on what came before. */
  lemma LongLine(ps: seq<string>, line: string, rest: string)
    requires (forall p | p in ps :: Sendable(p)) && '\n' !in line
    ensures Parse(Frames(ps) + (line + "\n" + rest)) ==
            if |line| >= 1_048_576 then Parsed(ps, true)
            else Parsed(ps + (Payload(line) + Parse(rest).payloads), Parse(rest).tooLong)
  {
    hide Parse, Payload, Frames;
    ParseAfter(ps, line + "\n" + rest);
    if |line| >= 1_048_576 {
      GivesUp(line, rest);
      assert ps + [] == ps;
    } else {
      ParseLine(line, rest);
    }
  }
}

/** From bytes to the gateway's relay: an event stream cut at any byte is a delivery the relay's results
    are about. */
module Wire {
  import opened Options
  import opened Adapter
  import Gateway
  import Sse

  function Encoded(enc: Event -> string, trace: seq<Event>): seq<string> {
    seq(|trace|, i requires 0 <= i < |trace| => enc(trace[i]))
  }

  function Decoded(dec: string -> Option<Event>, payloads: seq<string>): seq<Gateway.Frame> {
    seq(|payloads|, i requires 0 <= i < |payloads| =>
      match dec(payloads[i])
      case Some(e) => Gateway.Decoded(e)
      case None => Gateway.Garbage)
  }

  /** The events are sent one to a line, and a piece of one, as of any JSON object, is no event. */
  ghost predicate Codec(enc: Event -> string, dec: string -> Option<Event>, trace: seq<Event>) {
    forall e | e in trace ::
      && Sse.Sendable(enc(e)) && dec(enc(e)) == Some(e)
      && forall q: string | q < enc(e) && q != "" :: dec(q).None?
  }

  /** A body that ends early is reported as broken by the transport; wherever it ends, what the relay is
      given is a beginning of the trace, with at most one undecodable frame after it. */
  lemma BytesDeliver(enc: Event -> string, dec: string -> Option<Event>, trace: seq<Event>, j: nat)
    requires Codec(enc, dec, trace) && j <= |Sse.Frames(Encoded(enc, trace))|
    ensures var sent := Sse.Frames(Encoded(enc, trace));
            Gateway.Delivers(Gateway.Sent(Decoded(dec, Sse.Parse(sent[..j]).payloads), j < |sent|), trace)
  {
    var ps := Encoded(enc, trace);
    forall p | p in ps
      ensures Sse.Sendable(p)
    {
      var i :| 0 <= i < |ps| && ps[i] == p;
      assert trace[i] in trace;
    }
    var sent := Sse.Frames(ps);
    var got := Sse.Parse(sent[..j]).payloads;
    Sse.CutStream(ps, j);
    var m: nat :| Sse.Beginning(got, ps, m);
    if j == |sent| {
      assert sent[..j] == sent;
      Sse.RoundTrip(ps);
      DecodesBeginning(enc, dec, trace, got, |ps|, false);
    } else {
      DecodesBeginning(enc, dec, trace, got, m, true);
    }
  }

  lemma DecodesBeginning(enc: Event -> string, dec: string -> Option<Event>, trace: seq<Event>, got: seq<string>,
      m: nat, broken: bool)
    requires Codec(enc, dec, trace) && Sse.Beginning(got, Encoded(enc, trace), m)
    requires m < |trace| ==> broken
    ensures Gateway.Delivers(Gateway.Sent(Decoded(dec, got), broken), trace)
  {
    var up := Gateway.Sent(Decoded(dec, got), broken);
    var ps := Encoded(enc, trace);
    forall i | 0 <= i < m
      ensures up.frames[i] == Gateway.Decoded(trace[i])
    {
      assert trace[i] in trace;
      assert got[i] == got[..m][i] == ps[..m][i] == ps[i];
    }
    if |got| == m + 1 {
      assert trace[m] in trace;
      assert got[m] < enc(trace[m]);
    }
    assert Gateway.DeliversUpTo(up, trace, m);
  }
}

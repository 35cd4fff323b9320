/** The stream writer of the Go proxy: frames for what a provider emits, opened at the first event. */
module Llmproxy {
  import opened Options
  import opened Adapter
  import Gateway

  /** How the provider's call ends, once it has emitted its events: normally, because the client left, or with
      an error. */
  datatype Ending = Finished | HungUp | Failed(code: string)

  /** streamChat */
  method StreamChat(emitted: seq<Event>, ending: Ending) returns (served: Served)
    ensures served == ServedFor(emitted, ending)
  {
    var streaming := false;
    var body: seq<Event> := [];
    for n := 0 to |emitted|
      invariant body == emitted[..n] && (streaming <==> n > 0)
    {
      streaming := true;
      body := body + [emitted[n]];
    }
    assert emitted[..|emitted|] == emitted;
    match ending {
      case Finished =>
        if !streaming {
          body := body + [Done("stop")];
        }
        return Stream(body);
      case HungUp =>
        return if streaming then Stream(body) else Nothing;
      case Failed(code) =>
        if !streaming {
          return HttpError(code);
        }
        return Stream(body + [Error(code)]);
    }
  }

  function ServedFor(emitted: seq<Event>, ending: Ending): Served {
    match ending
    case Finished => Stream(if emitted == [] then [Done("stop")] else emitted)
    case HungUp => if emitted == [] then Nothing else Stream(emitted)
    case Failed(code) => if emitted == [] then HttpError(code) else Stream(emitted + [Error(code)])
  }

  /** A provider emits a whole trace, or nothing at all, and then ends normally; or it fails among its deltas. */
  ghost predicate Provides(emitted: seq<Event>, ending: Ending) {
    match ending
    case Finished => emitted == [] || Trace(emitted)
    case _ => forall e | e in emitted :: IsDelta(e)
  }

  /** Whoever is served a stream to its end is served a trace, in error exactly when the provider failed after
      output; a failure before any output is an HTTP error, with which nothing was billable. Nothing is added for a
      client that has left. */
  lemma ServesTraces(emitted: seq<Event>, ending: Ending)
    requires Provides(emitted, ending)
    ensures var served := ServedFor(emitted, ending);
            && (ending.HungUp? ==> served == if emitted == [] then Nothing else Stream(emitted))
            && (!ending.HungUp? ==> !served.Nothing?)
            && (served.HttpError? <==> ending.Failed? && emitted == [])
            && (served.HttpError? ==> served.code == ending.code)
            && (served.Stream? && !ending.HungUp? ==> Trace(served.events) && emitted <= served.events)
            && (ending.Failed? && emitted != [] ==> served.events == emitted + [Error(ending.code)])
            && (ending.Finished? ==> served.events == if emitted == [] then [Done("stop")] else emitted)
  {
    if ending.Finished? {
      if emitted == [] {
        assert TraceCut([Done("stop")], 0);
      }
    } else if ending.Failed? && emitted != [] {
      assert TraceCut(emitted + [Error(ending.code)], |emitted|);
    }
  }

  /** What the gateway makes of it: the hold is released exactly when the provider failed before any output. */
  lemma ReleasedWithoutOutput(p: Gateway.Settings, emitted: seq<Event>, ending: Ending, client: Gateway.Client,
      accepted: bool)
    requires p.Metered() && Provides(emitted, ending) && !ending.HungUp?
    requires ending.Finished? ==> forall e | e in emitted :: !e.Error?
    ensures var up := Gateway.Meets(ServedFor(emitted, ending));
            Gateway.ReleaseCall in Gateway.ChatOutcome(p, up, None, client, accepted).calls <==>
            ending.Failed? && emitted == []
  {
    hide Gateway.Relay, Gateway.Actual, Gateway.ForwardedAll, Gateway.Billable, Gateway.SawUsage, Gateway.SawError;
    var served := ServedFor(emitted, ending);
    ServesTraces(emitted, ending);
    if served.Stream? {
      var es := served.events;
      var up := Gateway.Meets(served);
      var cut :| 0 <= cut <= |es| && TraceCut(es, cut);
      assert Gateway.DeliversUpTo(up, es, |es|);
      Gateway.ChargeOfDelivery(p, up, es, cut, |es|, client, accepted);
      if ending.Finished? {
        assert es[|es| - 1] in emitted || emitted == [];
      } else {
        assert IsDelta(es[0]) by { assert es[0] == emitted[0] && emitted[0] in emitted; }
        assert cut > 0;
      }
    } else {
      Gateway.NoFlags(p);
    }
  }
}

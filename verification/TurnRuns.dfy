/**
 * The two halves of a turn together: what runTurn publishes while the gate runs (TurnGate) is the log that
 * the turn's streams follow (Turn), under every interleaving of both.
 */
module TurnRuns {

  import G = TurnGate
  import T = Turn

  /** An event as the streams carry it. */
  function Wire(e: G.Event): T.Event {
    match e
    case Conversation => T.Event("conversation", "")
    case Interim(text) => T.Event("interim", text)
    case Done => T.Event("done", "")
    case Stopped => T.Event("stopped", "")
    case Error => T.Event("error", "")
  }

  function Wires(log: seq<G.Event>): (events: seq<T.Event>)
    ensures |events| == |log| && forall k :: 0 <= k < |log| ==> events[k] == Wire(log[k])
  {
    seq(|log|, k requires 0 <= k < |log| => Wire(log[k]))
  }

  /** The calls to publish and end by which a turn takes a step of its own. */
  function Calls(t: G.Turn, step: G.Step): seq<T.Step> {
    match (step, t.phase)
    case (Begin(_), Admitted) => if t.first then [T.DoPublish(Wire(G.Conversation))] else []
    case (Emit(_, text), Answering) => [T.DoPublish(Wire(G.Interim(text)))]
    case (Tell(_), Removed(ok)) => [T.DoPublish(Wire(G.Ending(t, ok)))]
    case (Close(_), Told(_)) => [T.DoEnd]
    case _ => []
  }

  /** All calls that a run of the gate makes on one turn, in order. */
  ghost function Script(steps: seq<G.Step>, id: G.TurnId): seq<T.Step> {
    if steps == [] then []
    else
      var before, step := steps[..|steps| - 1], steps[|steps| - 1];
      var g := G.Run(before);
      Script(before, id) + if G.IsOwn(step) && step.id == id && id in g.all then Calls(g.all[id], step) else []
  }

  /** The calls of a run of the turn's log: all its steps but those of its followers. */
  function Own(steps: seq<T.Step>): seq<T.Step> {
    if steps == [] then []
    else
      var last := steps[|steps| - 1];
      Own(steps[..|steps| - 1]) + if last.DoPublish? || last.DoEnd? then [last] else []
  }

  function Applied(log: T.Log, calls: seq<T.Step>): T.Log {
    if calls == [] then log
    else
      var before := Applied(log, calls[..|calls| - 1]);
      match calls[|calls| - 1]
      case DoPublish(e) => T.Publish(before, e)
      case DoEnd => T.End(before)
      case _ => before
  }

  lemma {:induction false} AppliedConcat(log: T.Log, a: seq<T.Step>, b: seq<T.Step>)
    ensures Applied(log, a + b) == Applied(Applied(log, a), b)
  {
    hide T.Publish, T.End;
    if b == [] {
      assert a + b == a;
    } else {
      assert (a + b)[..|a + b| - 1] == a + b[..|b| - 1];
      AppliedConcat(log, a, b[..|b| - 1]);
    }
  }

  /** Followers leave the log alone. */
  lemma {:induction false} LogIsOwn(steps: seq<T.Step>)
    ensures T.Run(steps).log == Applied(T.NEW_LOG, Own(steps))
  {
    hide T.Publish, T.End, T.Move;
    if steps != [] {
      var before, last := steps[..|steps| - 1], steps[|steps| - 1];
      LogIsOwn(before);
      if last.DoPublish? || last.DoEnd? {
        AppliedConcat(T.NEW_LOG, Own(before), [last]);
        AppliedOne(T.Run(before).log, last);
      } else {
        assert Own(steps) == Own(before);
      }
    }
  }

  /** The log on the streams is the turn's own log, over exactly when the turn is, and never crashed. */
  ghost predicate Matches(log: T.Log, t: G.Turn) {
    T.LogInv(log) && !log.crashed && log.events == Wires(t.log) && (log.over <==> t.phase.Over?)
  }

  lemma {:induction false} WiresSnoc(log: seq<G.Event>, e: G.Event)
    ensures Wires(log + [e]) == Wires(log) + [Wire(e)]
  {
  }

  lemma {:induction false} AppliedOne(log: T.Log, call: T.Step)
    ensures Applied(log, [call]) == match call
      case DoPublish(e) => T.Publish(log, e)
      case DoEnd => T.End(log)
      case _ => log
  {
    assert [call][..0] == [];
  }

  lemma {:induction false} CallsMatch(log: T.Log, t: G.Turn, step: G.Step)
    requires Matches(log, t) && G.IsOwn(step)
    ensures Matches(Applied(log, Calls(t, step)), G.Advance(t, step))
  {
    hide T.Publish, T.End, T.LogInv, Wires, Wire, G.Ending;
    var calls := Calls(t, step);
    if calls != [] {
      AppliedOne(log, calls[0]);
      if calls[0].DoPublish? {
        var u := G.Advance(t, step);
        WiresSnoc(t.log, u.log[|u.log| - 1]);
        PublishMatches(log, calls[0].e);
        assert u.log == t.log + [u.log[|u.log| - 1]];
      } else {
        T.LogKeeps(log, T.Event("", ""));
      }
    }
  }

  lemma {:induction false} PublishMatches(log: T.Log, e: T.Event)
    requires T.LogInv(log) && !log.over
    ensures var u := T.Publish(log, e);
      T.LogInv(u) && u.crashed == log.crashed && u.events == log.events + [e] && !u.over
  {
  }

  lemma {:induction false} ScriptMatches(steps: seq<G.Step>, id: G.TurnId)
    requires id in G.Run(steps).all
    ensures Matches(Applied(T.NEW_LOG, Script(steps, id)), G.Run(steps).all[id])
  {
    hide Matches, G.Next, Calls, Applied;
    var before, step := steps[..|steps| - 1], steps[|steps| - 1];
    var g := G.Run(before);
    var log := Applied(T.NEW_LOG, Script(before, id));
    StepOfTurn(g, step, id);
    if id in g.all {
      ScriptMatches(before, id);
      if G.IsOwn(step) && step.id == id {
        AppliedConcat(T.NEW_LOG, Script(before, id), Calls(g.all[id], step));
        CallsMatch(log, g.all[id], step);
      } else {
        SameMatches(log, g.all[id], G.Run(steps).all[id]);
        assert Script(before, id) + [] == Script(before, id);
      }
    } else {
      NoScript(before, id);
      assert Script(steps, id) == [];
      NewMatches(G.Run(steps).all[id]);
    }
  }

  /** A step on one turn: its own advance, its admission, or a mark that others put on it. */
  lemma {:induction false} StepOfTurn(g: G.Gate, step: G.Step, id: G.TurnId)
    requires id in G.Next(g, step).all
    ensures var u := G.Next(g, step).all[id];
      if id !in g.all then u.phase.Admitted? && u.log == []
      else if G.IsOwn(step) && step.id == id then u == G.Advance(g.all[id], step)
      else u.log == g.all[id].log && (u.phase.Over? <==> g.all[id].phase.Over?)
  {
    hide G.Judge, G.Mine, G.Advance;
  }

  lemma {:induction false} SameMatches(log: T.Log, t: G.Turn, u: G.Turn)
    requires Matches(log, t) && u.log == t.log && (u.phase.Over? <==> t.phase.Over?)
    ensures Matches(log, u)
  {
  }

  lemma {:induction false} NewMatches(t: G.Turn)
    requires t.phase.Admitted? && t.log == []
    ensures Matches(Applied(T.NEW_LOG, []), t)
  {
  }

  lemma {:induction false} NoScript(steps: seq<G.Step>, id: G.TurnId)
    requires id !in G.Run(steps).all
    ensures Script(steps, id) == []
  {
    if steps != [] {
      if id in G.Run(steps[..|steps| - 1]).all {
        TurnsStay(G.Run(steps[..|steps| - 1]), steps[|steps| - 1], id);
      }
      hide G.Next, Calls;
      NoScript(steps[..|steps| - 1], id);
    }
  }

  lemma {:induction false} TurnsStay(g: G.Gate, step: G.Step, id: G.TurnId)
    requires id in g.all
    ensures id in G.Next(g, step).all
  {
    hide G.Judge, G.Mine, G.Advance;
  }

  /** In every run of the gate, and every interleaving of a turn's streams with the calls it makes: no wake
      channel is closed twice; a stream has delivered a prefix of the turn's log; and one that finished has
      delivered all of it, of which the last event alone is final. */
  lemma {:induction false} StreamsHearOneEnding(steps: seq<G.Step>, id: G.TurnId, run: seq<T.Step>, follower: nat)
    requires id in G.Run(steps).all && Own(run) == Script(steps, id)
    ensures var (t, log) := (G.Run(steps).all[id], T.Run(run).log);
      && !log.crashed && log.events == Wires(t.log) && (log.over <==> t.phase.Over?)
      && (follower in T.Run(run).followers ==>
            var f := T.Run(run).followers[follower];
            && f.got <= Wires(t.log)
            && (f.phase == T.Finished ==>
                  && t.phase.Over? && f.got == Wires(t.log)
                  && t.log != [] && G.IsTerminal(t.log[|t.log| - 1])
                  && forall k :: 0 <= k < |t.log| - 1 ==> !G.IsTerminal(t.log[k])))
  {
    hide G.Run, T.Run, Script, Own, G.IsTerminal;
    LogIsOwn(run);
    ScriptMatches(steps, id);
    if follower in T.Run(run).followers {
      T.ReplayIsFaithful(run, follower);
      if T.Run(run).followers[follower].phase == T.Finished {
        G.OneEnding(steps, id);
      }
    }
  }
}

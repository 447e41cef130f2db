/**
 * One running turn of Bora and its streams (boraTurn in bora.go): an append-only log whose wake channel
 * is closed and replaced at each event, and any number of followers that replay the log and then wait.
 * Each step below is one critical section, one channel operation, or one branch of a select.
 */
module Turn {

  datatype Event = Event(name: string, text: string)

  /** Channels are numbered in the order they are made; closing a closed one crashes the process. */
  datatype Log = Log(events: seq<Event>, wake: nat, closed: set<nat>, over: bool, crashed: bool)

  const NEW_LOG := Log([], 0, {}, false, false)

  function CloseWake(t: Log): Log {
    if t.wake in t.closed then t.(crashed := true) else t.(closed := t.closed + {t.wake})
  }

  function Publish(t: Log, e: Event): Log {
    if t.over then t else CloseWake(t.(events := t.events + [e])).(wake := t.wake + 1)
  }

  function End(t: Log): Log {
    CloseWake(t.(over := true))
  }

  /** Where a follower is: about to look under the lock, sending what it saw, waiting on the wake
      channel it saw, or gone, because the turn ended or because its context did. */
  datatype Phase = Looking | Sending | Waiting | Finished | Quit

  datatype Follower = Follower(phase: Phase, sent: nat, batch: seq<Event>, index: nat, wake: nat, over: bool,
                               got: seq<Event>, cancelled: bool)

  const NEW_FOLLOWER := Follower(Looking, 0, [], 0, 0, false, [], false)

  datatype State = State(log: Log, followers: map<nat, Follower>)

  datatype Step =
    | DoPublish(e: Event) | DoEnd | Join(id: nat)
    | Look(id: nat) | Send(id: nat) | Finish(id: nat) | Wake(id: nat) | Cancel(id: nat) | Leave(id: nat)

  /** The follower's own moves, given the log it shares. */
  function Move(t: Log, f: Follower, step: Step): Follower {
    match step
    case Look(_) =>
      if f.phase == Looking && f.sent <= |t.events|
      then f.(phase := Sending, batch := t.events[f.sent..], index := 0, wake := t.wake, over := t.over)
      else f
    case Send(_) =>
      if f.phase == Sending && f.index < |f.batch|
      then f.(got := f.got + [f.batch[f.index]], index := f.index + 1)
      else f
    case Finish(_) =>
      if f.phase == Sending && f.index >= |f.batch|
      then if f.over then f.(phase := Finished) else f.(phase := Waiting, sent := f.sent + |f.batch|, index := 0)
      else f
    case Wake(_) =>
      if f.phase == Waiting && f.wake in t.closed then f.(phase := Looking) else f
    case Cancel(_) => f.(cancelled := true)
    case Leave(_) =>
      if f.cancelled && (f.phase == Waiting || (f.phase == Sending && f.index < |f.batch|)) then f.(phase := Quit) else f
    case _ => f
  }

  /** A step that cannot happen now leaves the state alone, so every sequence of steps is a run. */
  function Next(s: State, step: Step): State {
    match step
    case DoPublish(e) => s.(log := Publish(s.log, e))
    case DoEnd => s.(log := End(s.log))
    case Join(id) => if id in s.followers then s else s.(followers := s.followers[id := NEW_FOLLOWER])
    case _ =>
      if step.id in s.followers then s.(followers := s.followers[step.id := Move(s.log, s.followers[step.id], step)]) else s
  }

  function Run(steps: seq<Step>): State {
    if steps == [] then State(NEW_LOG, map[])
    else Next(Run(steps[..|steps| - 1]), steps[|steps| - 1])
  }

  // ---- Invariants --------------------------------------------------------------------------------

  /** One wake channel per event, each closed by the event after which it was replaced. */
  ghost predicate LogInv(t: Log) {
    && t.wake == |t.events|
    && forall c: nat :: c in t.closed <==> c < t.wake || (t.over && c == t.wake)
  }

  ghost predicate FollowerInv(t: Log, f: Follower) {
    && f.sent + f.index <= |t.events|
    && (f.phase == Finished ==> t.over && f.got == t.events)
    && (f.phase == Quit ==> f.cancelled && f.got <= t.events)
    && (f.phase == Looking || f.phase == Waiting ==> f.got == t.events[..f.sent])
    && (f.phase == Waiting ==> f.sent == f.wake && !f.over)
    && (f.phase == Sending ==>
          && f.index <= |f.batch| && f.sent + |f.batch| == f.wake <= |t.events|
          && f.batch == t.events[f.sent..f.wake]
          && f.got == t.events[..f.sent + f.index]
          && (f.over ==> t.over && f.wake == |t.events|))
  }

  ghost predicate Inv(s: State) {
    LogInv(s.log) && forall id :: id in s.followers ==> FollowerInv(s.log, s.followers[id])
  }

  lemma LogKeeps(t: Log, e: Event)
    requires LogInv(t)
    ensures LogInv(Publish(t, e)) && Publish(t, e).crashed == t.crashed
    ensures t.events <= Publish(t, e).events && (t.over ==> Publish(t, e) == t)
    ensures LogInv(End(t)) && End(t).events == t.events && End(t).over
    ensures End(t).crashed <==> t.crashed || t.over
  {
  }

  lemma FollowerKeeps(t: Log, u: Log, f: Follower)
    requires LogInv(t) && LogInv(u) && FollowerInv(t, f)
    requires t.events <= u.events && (t.over ==> u.over && u.events == t.events)
    ensures FollowerInv(u, f)
  {
    assert f.sent <= |t.events|;
    assert u.events[..f.sent] == t.events[..f.sent];
    if f.phase == Sending {
      assert u.events[f.sent..f.wake] == t.events[f.sent..f.wake];
      assert u.events[..f.sent + f.index] == t.events[..f.sent + f.index];
    }
  }

  lemma {:induction false} LookKeeps(t: Log, f: Follower, id: nat)
    requires LogInv(t) && FollowerInv(t, f)
    ensures FollowerInv(t, Move(t, f, Look(id)))
  {
    assert |t.events| == t.wake;
    assert t.events[f.sent..] == t.events[f.sent..|t.events|];
  }

  lemma {:induction false} SendKeeps(t: Log, f: Follower, id: nat)
    requires FollowerInv(t, f)
    ensures FollowerInv(t, Move(t, f, Send(id)))
  {
    if f.phase == Sending && f.index < |f.batch| {
      assert f.batch[f.index] == t.events[f.sent + f.index];
      assert t.events[..f.sent + f.index + 1] == t.events[..f.sent + f.index] + [t.events[f.sent + f.index]];
    }
  }

  lemma {:induction false} FinishKeeps(t: Log, f: Follower, id: nat)
    requires LogInv(t) && FollowerInv(t, f)
    ensures FollowerInv(t, Move(t, f, Finish(id)))
  {
    assert t.events[..|t.events|] == t.events;
  }

  lemma {:induction false} MoveKeeps(t: Log, f: Follower, step: Step)
    requires LogInv(t) && FollowerInv(t, f)
    ensures FollowerInv(t, Move(t, f, step))
  {
    match step {
      case Look(id) => LookKeeps(t, f, id);
      case Send(id) => SendKeeps(t, f, id);
      case Finish(id) => FinishKeeps(t, f, id);
      case _ =>
    }
  }

  lemma NextKeeps(s: State, step: Step)
    requires Inv(s)
    ensures Inv(Next(s, step))
    ensures s.log.events <= Next(s, step).log.events
    ensures s.log.over ==> Next(s, step).log.over && Next(s, step).log.events == s.log.events
  {
    var s' := Next(s, step);
    if step.DoPublish? {
      LogKeeps(s.log, step.e);
    } else if step.DoEnd? {
      LogKeeps(s.log, Event("", ""));
    }
    forall id | id in s'.followers
      ensures FollowerInv(s'.log, s'.followers[id])
    {
      if id in s.followers {
        if step.DoPublish? || step.DoEnd? {
          FollowerKeeps(s.log, s'.log, s.followers[id]);
        } else {
          MoveKeeps(s.log, s.followers[id], step);
        }
      }
    }
  }

  lemma {:induction false} RunInv(steps: seq<Step>)
    ensures Inv(Run(steps))
  {
    if steps != [] {
      RunInv(steps[..|steps| - 1]);
      NextKeeps(Run(steps[..|steps| - 1]), steps[|steps| - 1]);
    }
  }

  // ---- What every interleaving guarantees ----------------------------------------------------------

  /** In every run: what a follower delivered is a prefix of the log; one still waiting on an open channel
      has delivered everything and the turn goes on, so no wake-up is lost; one that finished delivered
      the final log, each event once and in order; one that quit was cancelled. */
  lemma ReplayIsFaithful(steps: seq<Step>, id: nat)
    requires id in Run(steps).followers
    ensures var (t, f) := (Run(steps).log, Run(steps).followers[id]);
      && f.got <= t.events
      && (f.phase == Waiting && f.wake !in t.closed ==> f.got == t.events && !t.over)
      && (f.phase == Finished ==> t.over && f.got == t.events)
      && (f.phase == Quit ==> f.cancelled)
  {
    RunInv(steps);
    var (t, f) := (Run(steps).log, Run(steps).followers[id]);
    if f.phase == Waiting && f.wake !in t.closed {
      assert f.wake == |t.events|;
      assert t.events[..|t.events|] == t.events;
    }
  }

  /** Once a turn is over its log never changes, so what a finished follower has is final. */
  lemma {:induction false} OverIsFinal(steps: seq<Step>, more: seq<Step>)
    requires Run(steps).log.over
    ensures Run(steps + more).log.over && Run(steps + more).log.events == Run(steps).log.events
  {
    if more == [] {
      assert steps + more == steps;
    } else {
      var rest := more[..|more| - 1];
      OverIsFinal(steps, rest);
      assert (steps + more)[..|steps + more| - 1] == steps + rest;
      RunInv(steps + rest);
      NextKeeps(Run(steps + rest), more[|more| - 1]);
    }
  }

  function Ends(steps: seq<Step>): nat {
    if steps == [] then 0 else Ends(steps[..|steps| - 1]) + (if steps[|steps| - 1] == DoEnd then 1 else 0)
  }

  /** No channel is ever closed twice exactly when the turn is ended at most once. */
  lemma {:induction false} ClosedOnce(steps: seq<Step>)
    ensures !Run(steps).log.crashed <==> Ends(steps) <= 1
    ensures Run(steps).log.over <==> Ends(steps) >= 1
  {
    if steps != [] {
      var before := steps[..|steps| - 1];
      ClosedOnce(before);
      RunInv(before);
      LogKeeps(Run(before).log, if steps[|steps| - 1].DoPublish? then steps[|steps| - 1].e else Event("", ""));
    }
  }

  // ---- What each step brings about ------------------------------------------------------------------

  /** The log takes an event until it is over, closing the channel its followers wait on and making the next
      one; the end closes the last; nothing else touches it. */
  lemma {:induction false} LogTakesTheCalls(steps: seq<Step>, step: Step)
    ensures var (t, u) := (Run(steps).log, Run(steps + [step]).log);
      match step
      case DoPublish(e) =>
        if t.over then u == t
        else u.events == t.events + [e] && !u.over && u.closed == t.closed + {t.wake} && u.wake !in u.closed
      case DoEnd => u.events == t.events && u.over && u.wake == t.wake && u.closed == t.closed + {t.wake}
      case _ => u == t
  {
    RunInv(steps);
    RunSnoc(steps, step);
  }

  /** A follower begins with nothing, and only its own steps move it. */
  lemma {:induction false} OwnStepsOnly(steps: seq<Step>, step: Step, id: nat)
    requires id in Run(steps + [step]).followers
    ensures id !in Run(steps).followers ==>
              step == Join(id) && Run(steps + [step]).followers[id] == Follower(Looking, 0, [], 0, 0, false, [], false)
    ensures id in Run(steps).followers && (step.DoPublish? || step.DoEnd? || step.Join? || step.id != id) ==>
              Run(steps + [step]).followers[id] == Run(steps).followers[id]
  {
    hide Move, Publish, End;
    RunSnoc(steps, step);
  }

  /** A follower with an event to send sends the next one of the log, and no other step delivers anything. */
  lemma {:induction false} SendsTheNext(steps: seq<Step>, step: Step, id: nat)
    requires id in Run(steps).followers
    ensures id in Run(steps + [step]).followers
    ensures var (t, f, g) := (Run(steps).log, Run(steps).followers[id], Run(steps + [step]).followers[id]);
      if step == Send(id) && f.phase == Sending && f.index < |f.batch|
      then |f.got| < |t.events| && g.got == f.got + [t.events[|f.got|]]
      else g.got == f.got
  {
    RunInv(steps);
    RunSnoc(steps, step);
    var f := Run(steps).followers[id];
    if step == Send(id) && f.phase == Sending && f.index < |f.batch| {
      assert f.batch[f.index] == Run(steps).log.events[f.sent + f.index];
    }
  }

  /** A follower quits exactly when its context was cancelled while it waits or has an event to send; it
      finishes exactly when it has sent all of a batch that ended the log; and it wakes exactly when the channel
      it waits on is closed. */
  lemma {:induction false} LeavesWhenCancelled(steps: seq<Step>, step: Step, id: nat)
    requires id in Run(steps).followers
    ensures id in Run(steps + [step]).followers
    ensures var (f, g) := (Run(steps).followers[id], Run(steps + [step]).followers[id]);
      && (g.cancelled <==> f.cancelled || step == Cancel(id))
      && (g.phase == Quit && f.phase != Quit <==>
            && step == Leave(id) && f.cancelled
            && (f.phase == Waiting || (f.phase == Sending && f.index < |f.batch|)))
      && (g.phase == Finished && f.phase != Finished <==>
            step == Finish(id) && f.phase == Sending && f.index >= |f.batch| && f.over)
      && (f.phase == Waiting && g.phase == Looking <==>
            f.phase == Waiting && step == Wake(id) && f.wake in Run(steps).log.closed)
  {
    RunSnoc(steps, step);
  }

  // ---- No follower is stuck once the turn is over ---------------------------------------------------

  /** The one move an uncancelled follower has. */
  function OwnMove(f: Follower, id: nat): Step {
    match f.phase
    case Looking => Look(id)
    case Sending => if f.index < |f.batch| then Send(id) else Finish(id)
    case _ => Wake(id)
  }

  ghost function Remaining(t: Log, f: Follower): int {
    match f.phase
    case Looking => 2 * (|t.events| - f.sent) + 3
    case Sending =>
      if f.over then |f.batch| - f.index + 1
      else (|f.batch| - f.index) + 2 * (|t.events| - f.sent - |f.batch|) + 5
    case Waiting => 2 * (|t.events| - f.sent) + 4
    case _ => 0
  }

  ghost predicate Gone(f: Follower) { f.phase == Finished || f.phase == Quit }

  lemma {:induction false} MoveKeepsGoing(t: Log, f: Follower, id: nat)
    requires LogInv(t) && FollowerInv(t, f) && t.over && !Gone(f)
    ensures var g := Move(t, f, OwnMove(f, id));
      FollowerInv(t, g) && g.phase != Quit && 0 <= Remaining(t, g) < Remaining(t, f)
  {
    MoveKeeps(t, f, OwnMove(f, id));
    RemainingFalls(t, f, id);
  }

  lemma {:induction false} RemainingFalls(t: Log, f: Follower, id: nat)
    requires LogInv(t) && FollowerInv(t, f) && t.over && !Gone(f)
    ensures var g := Move(t, f, OwnMove(f, id)); g.phase != Quit && 0 <= Remaining(t, g) < Remaining(t, f)
  {
  }

  ghost function Drain(t: Log, f: Follower): (g: Follower)
    requires LogInv(t) && FollowerInv(t, f) && t.over
    ensures FollowerInv(t, g) && Gone(g)
    ensures f.phase != Quit ==> g.phase == Finished && g.got == t.events
    decreases Remaining(t, f)
  {
    if Gone(f) then
      GoneHasAll(t, f);
      f
    else
      MoveKeepsGoing(t, f, 0);
      Drain(t, Move(t, f, OwnMove(f, 0)))
  }

  lemma {:induction false} GoneHasAll(t: Log, f: Follower)
    requires FollowerInv(t, f)
    ensures f.phase == Finished ==> f.got == t.events
  {
  }

  /** After the turn ended, every follower that has not quit reaches the end of the log by its own moves
      alone, in a bounded number of them: nobody has to wake it again. */
  lemma {:induction false} EndedTurnsAreDelivered(steps: seq<Step>, id: nat) returns (more: seq<Step>)
    requires id in Run(steps).followers && Run(steps).log.over && Run(steps).followers[id].phase != Quit
    ensures |more| <= Remaining(Run(steps).log, Run(steps).followers[id])
    ensures forall k :: 0 <= k < |more| ==> IsMove(more[k]) && more[k].id == id
    ensures var s := Run(steps + more);
      && id in s.followers && s.followers[id].phase == Finished
      && s.followers[id].got == s.log.events == Run(steps).log.events
    decreases Remaining(Run(steps).log, Run(steps).followers[id])
  {
    hide LogInv, FollowerInv, Move, Remaining;
    var s := Run(steps);
    RunInv(steps);
    var f := s.followers[id];
    if f.phase == Finished {
      more := [];
      assert steps + more == steps;
      GoneHasAll(s.log, f);
      RemainingIsNone(s.log, f);
    } else {
      var move := OwnMove(f, id);
      MoveKeepsGoing(s.log, f, id);
      RunSnoc(steps, move);
      MoveIsOne(s, id, move);
      var rest := EndedTurnsAreDelivered(steps + [move], id);
      more := [move] + rest;
      assert steps + [move] + rest == steps + more;
    }
  }

  /** What a follower does of its own accord. */
  predicate IsMove(step: Step) { step.Look? || step.Send? || step.Finish? || step.Wake? }

  lemma {:induction false} RemainingIsNone(t: Log, f: Follower)
    requires f.phase == Finished
    ensures Remaining(t, f) == 0
  {
  }

  lemma {:induction false} RunSnoc(steps: seq<Step>, step: Step)
    ensures Run(steps + [step]) == Next(Run(steps), step)
  {
    hide Next;
    assert (steps + [step])[..|steps|] == steps;
  }

  lemma {:induction false} MoveIsOne(s: State, id: nat, step: Step)
    requires id in s.followers && IsMove(step) && step.id == id
    ensures Next(s, step).log == s.log && id in Next(s, step).followers
    ensures Next(s, step).followers[id] == Move(s.log, s.followers[id], step)
  {
    hide Move;
  }

  // ---- The critical sections as the source writes them ---------------------------------------------

  class BoraTurn {
    var events: seq<Event>
    var wake: nat
    var over: bool
    var made: nat
    ghost var closed: set<nat>
    ghost var crashed: bool

    ghost function Abs(): Log
      reads this
    {
      Log(events, wake, closed, over, crashed)
    }

    ghost predicate Valid()
      reads this
    {
      LogInv(Abs()) && made == wake + 1
    }

    constructor ()
      ensures Valid() && Abs() == NEW_LOG
    {
      events, wake, over, made := [], 0, false, 1;
      closed, crashed := {}, false;
    }

    method Close(ch: nat)
      modifies this`closed, this`crashed
      ensures if ch in old(closed) then crashed && closed == old(closed)
              else crashed == old(crashed) && closed == old(closed) + {ch}
    {
      if ch in closed {
        crashed := true;
      } else {
        closed := closed + {ch};
      }
    }

    method PublishEvent(e: Event)
      requires Valid()
      modifies this
      ensures Valid() && Abs() == Publish(old(Abs()), e)
      ensures events == if old(over) then old(events) else old(events) + [e]
      ensures over == old(over) && (!over ==> old(wake) in closed && wake !in closed)
    {
      if over {
        return;
      }
      events := events + [e];
      Close(wake);
      wake, made := made, made + 1;
    }

    method EndTurn()
      requires Valid()
      modifies this
      ensures Valid() && Abs() == End(old(Abs()))
      ensures over && events == old(events) && wake == old(wake) && wake in closed
    {
      over := true;
      Close(wake);
    }

    /** The locked part of a follower's loop. */
    method Snapshot(sent: nat) returns (batch: seq<Event>, seen: nat, ended: bool)
      requires Valid() && sent <= |events|
      ensures batch == events[sent..] && seen == wake && ended == over
      ensures forall f: Follower :: f.phase == Looking && f.sent == sent ==>
        Move(Abs(), f, Look(0)) == f.(phase := Sending, batch := batch, index := 0, wake := seen, over := ended)
    {
      return events[sent..], wake, over;
    }
  }
}

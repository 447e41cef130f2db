/**
 * The gate that admits Bora turns and the life of an admitted turn (enter, runTurn, turn, StopBora,
 * StopAllBora and DeleteBora in bora.go). A step is one section under turnsMu, or one action of the
 * turn's own goroutine; asks, stops, deletions and turns interleave freely.
 */
module TurnGate {

  type User = nat
  type Conv = nat
  type TurnId = nat

  const TURNS_PER_USER := 3
  const TURNS_IN_FLIGHT := 20

  datatype Event = Conversation | Interim(text: string) | Done | Stopped | Error

  predicate IsTerminal(e: Event) { e.Done? || e.Stopped? || e.Error? }

  /** Admitted, then answering, then answered well or not, then out of the gate, then told, then over. */
  datatype Phase = Admitted | Answering | Answered(ok: bool) | Removed(ok: bool) | Told(ok: bool) | Over(ok: bool)

  /** found: StopBora has looked the turn up, and cancels it once it has let the lock go. */
  datatype Turn = Turn(user: User, conv: Conv, first: bool, found: bool, cancelled: bool, phase: Phase, log: seq<Event>)

  datatype Gate = Gate(turns: map<Conv, TurnId>, all: map<TurnId, Turn>)

  const EMPTY_GATE := Gate(map[], map[])

  datatype Verdict = Enters | Conflict | TooMany

  datatype Step =
    | Enter(id: TurnId, user: User, conv: Conv, first: bool)
    | Begin(id: TurnId) | Emit(id: TurnId, text: string) | Answer(id: TurnId, ok: bool)
    | Remove(id: TurnId) | Tell(id: TurnId) | Close(id: TurnId)
    | Find(actor: User, conv: Conv) | CancelFound(id: TurnId)
    | Delete(actor: User, convs: set<Conv>, everything: bool) | StopAll

  predicate InGate(p: Phase) { p.Admitted? || p.Answering? || p.Answered? }

  predicate Holds(g: Gate, t: TurnId) { t in g.all && InGate(g.all[t].phase) }

  /** The conversations in which user has a turn. */
  ghost function Mine(g: Gate, user: User): set<Conv> {
    set c | c in g.turns && g.turns[c] in g.all && g.all[g.turns[c]].user == user
  }

  ghost function Judge(g: Gate, user: User, conv: Conv): Verdict {
    if conv in g.turns then Conflict
    else if |Mine(g, user)| >= TURNS_PER_USER || |g.turns| >= TURNS_IN_FLIGHT then TooMany
    else Enters
  }

  function Cancel(g: Gate, ids: set<TurnId>): Gate {
    g.(all := map t | t in g.all :: if t in ids then g.all[t].(cancelled := true) else g.all[t])
  }

  function Mark(g: Gate, id: TurnId): Gate
    requires id in g.all
  {
    g.(all := g.all[id := g.all[id].(found := true)])
  }

  function Owned(g: Gate, actor: User, c: Conv): bool {
    c in g.turns && g.turns[c] in g.all && g.all[g.turns[c]].user == actor
  }

  function Ending(t: Turn, ok: bool): Event { if ok then Done else if t.cancelled then Stopped else Error }

  /** What the turn's goroutine does next; the terminal event is chosen as runTurn chooses it. */
  function Advance(t: Turn, step: Step): Turn {
    match (step, t.phase)
    case (Begin(_), Admitted) => t.(phase := Answering, log := if t.first then t.log + [Conversation] else t.log)
    case (Emit(_, text), Answering) => t.(log := t.log + [Interim(text)])
    case (Answer(_, ok), Answering) => t.(phase := Answered(ok))
    case (Tell(_), Removed(ok)) => t.(phase := Told(ok), log := t.log + [Ending(t, ok)])
    case (Close(_), Told(ok)) => t.(phase := Over(ok))
    case _ => t
  }

  ghost function Next(g: Gate, step: Step): Gate {
    match step
    case Enter(id, user, conv, first) =>
      if id in g.all || Judge(g, user, conv) != Enters then g
      else Gate(g.turns[conv := id], g.all[id := Turn(user, conv, first, false, false, Admitted, [])])
    case Remove(id) =>
      if id in g.all && g.all[id].phase.Answered?
      then Gate(g.turns - {g.all[id].conv}, g.all[id := g.all[id].(phase := Removed(g.all[id].phase.ok))])
      else g
    case Find(actor, conv) => if Owned(g, actor, conv) then Mark(g, g.turns[conv]) else g
    case CancelFound(id) => if id in g.all && g.all[id].found then Cancel(g, {id}) else g
    case Delete(actor, convs, everything) =>
      Cancel(g, set c | c in g.turns && Owned(g, actor, c) && (everything || c in convs) :: g.turns[c])
    case StopAll => Cancel(g, set c | c in g.turns :: g.turns[c])
    case _ => if step.id in g.all then g.(all := g.all[step.id := Advance(g.all[step.id], step)]) else g
  }

  ghost function Run(steps: seq<Step>): Gate {
    if steps == [] then EMPTY_GATE
    else Next(Run(steps[..|steps| - 1]), steps[|steps| - 1])
  }

  // ---- Invariants ----------------------------------------------------------------------------------

  ghost predicate Quiet(log: seq<Event>) { forall k :: 0 <= k < |log| ==> !IsTerminal(log[k]) }

  /** The log of a turn says what became of it: nothing final until it is told, then exactly one final
      event, last; and a first turn names its conversation first, and only there. */
  ghost predicate LogFits(t: Turn) {
    && (InGate(t.phase) || t.phase.Removed? ==> Quiet(t.log))
    && (t.phase.Told? || t.phase.Over? ==>
          && t.log != [] && Quiet(t.log[..|t.log| - 1])
          && (if t.phase.ok then t.log[|t.log| - 1] == Done
              else t.log[|t.log| - 1] == Error || (t.log[|t.log| - 1] == Stopped && t.cancelled)))
    && (forall k :: 0 <= k < |t.log| && t.log[k] == Conversation ==> k == 0)
    && (if t.phase.Admitted? then t.log == [] else t.first <==> t.log != [] && t.log[0] == Conversation)
  }

  /** The gate holds exactly the turns that have not left it, each under its own conversation. */
  ghost predicate Tracks(g: Gate) {
    && (forall c :: c in g.turns ==> g.turns[c] in g.all && g.all[g.turns[c]].conv == c && InGate(g.all[g.turns[c]].phase))
    && (forall t :: t in g.all && InGate(g.all[t].phase) ==> g.all[t].conv in g.turns && g.turns[g.all[t].conv] == t)
  }

  ghost predicate Limited(g: Gate) {
    |g.turns| <= TURNS_IN_FLIGHT && forall u :: |Mine(g, u)| <= TURNS_PER_USER
  }

  ghost predicate LogsFit(g: Gate) { forall t :: t in g.all ==> LogFits(g.all[t]) }

  ghost predicate Inv(g: Gate) { Tracks(g) && Limited(g) && LogsFit(g) }

  lemma {:induction false} Shrinks<T>(a: set<T>, b: set<T>)
    requires a <= b
    ensures |a| <= |b|
  {
    assert b == a + (b - a);
  }

  lemma {:induction false} SameMine(g: Gate, h: Gate)
    requires Tracks(g) && Limited(g) && h.turns == g.turns && h.all.Keys == g.all.Keys
    requires forall t :: t in g.all ==> h.all[t].user == g.all[t].user
    ensures Limited(h)
  {
    forall u
      ensures |Mine(h, u)| <= TURNS_PER_USER
    {
      assert Mine(h, u) == Mine(g, u);
    }
  }

  /** The same turn, but for what others ask of it. */
  predicate Same(t: Turn, u: Turn) {
    u == t.(found := u.found, cancelled := u.cancelled) && (t.cancelled ==> u.cancelled)
  }

  lemma {:induction false} SameFits(t: Turn, u: Turn)
    requires LogFits(t) && Same(t, u)
    ensures LogFits(u)
  {
  }

  lemma {:induction false} SameKeeps(g: Gate, h: Gate)
    requires Inv(g) && h.turns == g.turns && h.all.Keys == g.all.Keys
    requires forall t :: t in g.all ==> Same(g.all[t], h.all[t])
    ensures Inv(h)
  {
    SameMine(g, h);
    hide Mine, Limited, LogFits;
    forall t | t in h.all
      ensures LogFits(h.all[t])
    {
      SameFits(g.all[t], h.all[t]);
    }
  }

  lemma {:induction false} CancelKeeps(g: Gate, ids: set<TurnId>)
    requires Inv(g)
    ensures Inv(Cancel(g, ids))
  {
    hide Inv;
    SameKeeps(g, Cancel(g, ids));
  }

  lemma {:induction false} MarkKeeps(g: Gate, id: TurnId)
    requires Inv(g) && id in g.all
    ensures Inv(Mark(g, id))
  {
    hide Inv;
    SameKeeps(g, Mark(g, id));
  }

  lemma {:induction false} AdvanceKeepsPlace(t: Turn, step: Step)
    ensures InGate(Advance(t, step).phase) == InGate(t.phase)
    ensures Advance(t, step).conv == t.conv && Advance(t, step).user == t.user
  {
  }

  lemma {:induction false} AppendedFits(t: Turn, e: Event, phase: Phase)
    requires LogFits(t) && e != Conversation && t.phase != Admitted && (InGate(t.phase) || t.phase.Removed?)
    requires if phase.Told? then (if phase.ok then e == Done else e == Error || (e == Stopped && t.cancelled))
             else phase == t.phase && !IsTerminal(e)
    ensures LogFits(t.(log := t.log + [e], phase := phase))
  {
    var log := t.log + [e];
    assert log[..|log| - 1] == t.log && log[|log| - 1] == e;
    assert forall k :: 0 <= k < |t.log| ==> log[k] == t.log[k];
  }

  lemma {:induction false} AdvanceKeepsLog(t: Turn, step: Step)
    requires LogFits(t)
    ensures LogFits(Advance(t, step))
  {
    if step.Emit? && t.phase.Answering? {
      AppendedFits(t, Interim(step.text), t.phase);
    } else if step.Tell? && t.phase.Removed? {
      var e := Ending(t, t.phase.ok);
      AppendedFits(t, e, Told(t.phase.ok));
    } else {
      OtherAdvanceFits(t, step);
    }
  }

  lemma {:induction false} BegunFits(t: Turn)
    requires LogFits(t) && t.phase.Admitted?
    ensures LogFits(t.(phase := Answering, log := if t.first then t.log + [Conversation] else t.log))
  {
    assert t.log == [] && [] + [Conversation] == [Conversation];
  }

  lemma {:induction false} AnsweredFits(t: Turn, ok: bool)
    requires LogFits(t) && t.phase.Answering?
    ensures LogFits(t.(phase := Answered(ok)))
  {
  }

  lemma {:induction false} ClosedFits(t: Turn)
    requires LogFits(t) && t.phase.Told?
    ensures LogFits(t.(phase := Over(t.phase.ok)))
  {
  }

  lemma {:induction false} OtherAdvanceFits(t: Turn, step: Step)
    requires LogFits(t) && !(step.Emit? && t.phase.Answering?) && !(step.Tell? && t.phase.Removed?)
    ensures LogFits(Advance(t, step))
  {
    hide LogFits;
    if step.Begin? && t.phase.Admitted? {
      BegunFits(t);
    } else if step.Answer? && t.phase.Answering? {
      AnsweredFits(t, step.ok);
    } else if step.Close? && t.phase.Told? {
      ClosedFits(t);
    }
  }

  ghost function Entered(g: Gate, id: TurnId, t: Turn): Gate { Gate(g.turns[t.conv := id], g.all[id := t]) }

  lemma {:induction false} EnteredMine(g: Gate, id: TurnId, t: Turn, user: User)
    requires Tracks(g) && id !in g.all && t.conv !in g.turns
    ensures Mine(Entered(g, id, t), user) == if user == t.user then Mine(g, user) + {t.conv} else Mine(g, user)
  {
    var h := Entered(g, id, t);
    forall c
      ensures c in Mine(h, user) <==> c in Mine(g, user) || (user == t.user && c == t.conv)
    {
    }
  }

  lemma {:induction false} EnteredLimited(g: Gate, id: TurnId, t: Turn)
    requires Tracks(g) && Limited(g) && id !in g.all && t.conv !in g.turns
    requires |Mine(g, t.user)| < TURNS_PER_USER && |g.turns| < TURNS_IN_FLIGHT
    ensures Limited(Entered(g, id, t))
  {
    var h := Entered(g, id, t);
    assert h.turns.Keys == g.turns.Keys + {t.conv};
    forall u
      ensures |Mine(h, u)| <= TURNS_PER_USER
    {
      EnteredMine(g, id, t, u);
      hide Mine, Tracks;
    }
  }

  lemma {:induction false} EnterKeeps(g: Gate, id: TurnId, user: User, conv: Conv, first: bool)
    requires Inv(g) && id !in g.all && Judge(g, user, conv) == Enters
    ensures Inv(Next(g, Enter(id, user, conv, first)))
  {
    hide Limited, Mine, LogFits, Tracks, LogsFit;
    var t := Turn(user, conv, first, false, false, Admitted, []);
    EnteredLimited(g, id, t);
    EnteredTracks(g, id, t);
    EnteredLogsFit(g, id, t);
  }

  lemma {:induction false} EnteredTracks(g: Gate, id: TurnId, t: Turn)
    requires Tracks(g) && id !in g.all && t.conv !in g.turns && InGate(t.phase)
    ensures Tracks(Entered(g, id, t))
  {
  }

  lemma {:induction false} EnteredLogsFit(g: Gate, id: TurnId, t: Turn)
    requires LogsFit(g) && t.phase.Admitted? && t.log == []
    ensures LogsFit(Entered(g, id, t))
  {
    NewLogFits(t);
    hide LogFits;
  }

  lemma {:induction false} NewLogFits(t: Turn)
    requires t.phase.Admitted? && t.log == []
    ensures LogFits(t)
  {
  }

  lemma {:induction false} RemovedLimited(g: Gate, h: Gate)
    requires Tracks(g) && Limited(g) && h.turns.Keys <= g.turns.Keys && h.all.Keys == g.all.Keys
    requires forall c :: c in h.turns ==> h.turns[c] == g.turns[c]
    requires forall t :: t in g.all ==> h.all[t].user == g.all[t].user
    ensures Limited(h)
  {
    Shrinks(h.turns.Keys, g.turns.Keys);
    forall u
      ensures |Mine(h, u)| <= TURNS_PER_USER
    {
      Shrinks(Mine(h, u), Mine(g, u));
    }
  }

  ghost function Taken(g: Gate, id: TurnId, t: Turn): Gate { Gate(g.turns - {t.conv}, g.all[id := t]) }

  lemma {:induction false} TakenTracks(g: Gate, id: TurnId, t: Turn)
    requires Tracks(g) && id in g.all && g.all[id].phase.Answered? && t.conv == g.all[id].conv && t.phase.Removed?
    ensures Tracks(Taken(g, id, t))
  {
  }

  lemma {:induction false} TakenLogsFit(g: Gate, id: TurnId)
    requires LogsFit(g) && id in g.all && g.all[id].phase.Answered?
    ensures LogsFit(Taken(g, id, g.all[id].(phase := Removed(g.all[id].phase.ok))))
  {
    OutFits(g.all[id]);
    hide LogFits;
  }

  lemma {:induction false} OutFits(t: Turn)
    requires LogFits(t) && t.phase.Answered?
    ensures LogFits(t.(phase := Removed(t.phase.ok)))
  {
  }

  lemma {:induction false} RemoveKeeps(g: Gate, id: TurnId)
    requires Inv(g)
    ensures Inv(Next(g, Remove(id)))
  {
    hide Mine, Limited, LogFits, Tracks, LogsFit;
    if id in g.all && g.all[id].phase.Answered? {
      var t := g.all[id].(phase := Removed(g.all[id].phase.ok));
      TakenTracks(g, id, t);
      TakenLogsFit(g, id);
      RemovedLimited(g, Taken(g, id, t));
    }
  }

  ghost function Advanced(g: Gate, id: TurnId, t: Turn): Gate { g.(all := g.all[id := t]) }

  lemma {:induction false} AdvancedTracks(g: Gate, id: TurnId, t: Turn)
    requires Tracks(g) && id in g.all && InGate(t.phase) == InGate(g.all[id].phase) && t.conv == g.all[id].conv
    ensures Tracks(Advanced(g, id, t))
  {
  }

  lemma {:induction false} AdvancedLogsFit(g: Gate, id: TurnId, t: Turn)
    requires LogsFit(g) && id in g.all && LogFits(t)
    ensures LogsFit(Advanced(g, id, t))
  {
    hide LogFits;
  }

  lemma {:induction false} LogFitsOf(g: Gate, id: TurnId)
    requires LogsFit(g) && id in g.all
    ensures LogFits(g.all[id])
  {
    hide LogFits;
  }

  predicate IsOwn(step: Step) { step.Begin? || step.Emit? || step.Answer? || step.Tell? || step.Close? }

  lemma {:induction false} OwnStepKeeps(g: Gate, step: Step)
    requires Inv(g) && IsOwn(step)
    ensures Inv(Next(g, step))
  {
    hide LogFits, Advance, Mine, Limited, Tracks, LogsFit;
    if step.id in g.all {
      var t := Advance(g.all[step.id], step);
      AdvanceKeepsPlace(g.all[step.id], step);
      LogFitsOf(g, step.id);
      AdvanceKeepsLog(g.all[step.id], step);
      AdvancedTracks(g, step.id, t);
      AdvancedLogsFit(g, step.id, t);
      SameMine(g, Advanced(g, step.id, t));
    }
  }

  lemma {:induction false} NextKeeps(g: Gate, step: Step)
    requires Inv(g)
    ensures Inv(Next(g, step))
  {
    match step {
      case Enter(id, user, conv, first) =>
        if id !in g.all && Judge(g, user, conv) == Enters {
          EnterKeeps(g, id, user, conv, first);
        }
      case Remove(id) => RemoveKeeps(g, id);
      case Find(actor, conv) =>
        if Owned(g, actor, conv) {
          MarkKeeps(g, g.turns[conv]);
        }
      case CancelFound(id) => CancelKeeps(g, {id});
      case Delete(actor, convs, everything) =>
        CancelKeeps(g, set c | c in g.turns && Owned(g, actor, c) && (everything || c in convs) :: g.turns[c]);
      case StopAll => CancelKeeps(g, set c | c in g.turns :: g.turns[c]);
      case _ => OwnStepKeeps(g, step);
    }
  }

  lemma {:induction false} RunInv(steps: seq<Step>)
    ensures Inv(Run(steps))
  {
    if steps == [] {
      assert forall u :: Mine(EMPTY_GATE, u) == {};
    } else {
      RunInv(steps[..|steps| - 1]);
      NextKeeps(Run(steps[..|steps| - 1]), steps[|steps| - 1]);
    }
  }

  // ---- What every interleaving guarantees ------------------------------------------------------------

  /** In every run at most 20 turns hold the gate, at most 3 of one user and at most one per conversation. */
  lemma {:induction false} GateHolds(steps: seq<Step>, user: User)
    ensures |Run(steps).turns| <= TURNS_IN_FLIGHT
    ensures |set t | t in Run(steps).all && Holds(Run(steps), t) && Run(steps).all[t].user == user| <= TURNS_PER_USER
    ensures var g := Run(steps); forall a, b :: Holds(g, a) && Holds(g, b) && g.all[a].conv == g.all[b].conv ==> a == b
  {
    RunInv(steps);
    var g := Run(steps);
    var live := set t | t in g.all && Holds(g, t) && g.all[t].user == user;
    OneEach(g, live, Mine(g, user));
  }

  lemma {:induction false} OneEach(g: Gate, live: set<TurnId>, convs: set<Conv>)
    requires Tracks(g)
    requires forall t :: t in live ==> t in g.all && InGate(g.all[t].phase) && g.all[t].conv in convs
    ensures |live| <= |convs|
  {
    if t :| t in live {
      var rest := convs - {g.all[t].conv};
      OneEach(g, live - {t}, rest);
    }
  }

  /** A turn leaves the gate once, by its own removal, which takes out its own entry and nothing else. */
  lemma {:induction false} RemovalIsOwn(steps: seq<Step>, id: TurnId)
    requires id in Run(steps).all
    ensures var (g, h) := (Run(steps), Next(Run(steps), Remove(id)));
      if g.all[id].phase.Answered?
      then
        && g.all[id].conv in g.turns && g.turns[g.all[id].conv] == id
        && h.turns == g.turns - {g.all[id].conv} && !InGate(h.all[id].phase)
      else h == g
  {
    RunInv(steps);
  }

  /** Every other step leaves every entry in place, and adds at most one, for a free conversation. */
  lemma {:induction false} EntriesStay(steps: seq<Step>, step: Step, c: Conv)
    requires c in Run(steps).turns
    ensures var (g, h) := (Run(steps), Next(Run(steps), step));
      (c in h.turns && h.turns[c] == g.turns[c]) || step == Remove(g.turns[c])
  {
    hide Run, LogsFit, Limited, Mine, Advance, LogFits;
    RunInv(steps);
  }

  /** Once out, a turn never re-enters, so its entry is removed exactly once. */
  lemma {:induction false} NeverBack(steps: seq<Step>, more: seq<Step>, id: TurnId)
    requires id in Run(steps).all && !Holds(Run(steps), id)
    ensures id in Run(steps + more).all && !Holds(Run(steps + more), id)
    ensures forall c :: c in Run(steps + more).turns ==> Run(steps + more).turns[c] != id
  {
    hide LogFits, Limited, Next;
    RunInv(steps + more);
    if more == [] {
      assert steps + more == steps;
    } else {
      var rest := more[..|more| - 1];
      NeverBack(steps, rest, id);
      assert (steps + more)[..|steps + more| - 1] == steps + rest;
      StaysOut(Run(steps + rest), more[|more| - 1], id);
    }
  }

  lemma {:induction false} StaysOut(g: Gate, step: Step, id: TurnId)
    requires id in g.all && !Holds(g, id)
    ensures id in Next(g, step).all && !Holds(Next(g, step), id)
  {
    hide Judge, Mine, Owned;
    if IsOwn(step) {
      AdvanceKeepsPlace(g.all[id], step);
    }
  }

  /** The log of every turn that is over ends with exactly one of done, stopped and error: done when it
      was answered, and otherwise stopped exactly when it was cancelled by the time it was told. */
  lemma {:induction false} OneEnding(steps: seq<Step>, id: TurnId)
    requires id in Run(steps).all && Run(steps).all[id].phase.Over?
    ensures var t := Run(steps).all[id];
      && t.log != [] && IsTerminal(t.log[|t.log| - 1])
      && (forall k :: 0 <= k < |t.log| - 1 ==> !IsTerminal(t.log[k]))
      && (t.phase.ok <==> t.log[|t.log| - 1] == Done)
      && (t.log[|t.log| - 1] == Stopped ==> t.cancelled)
      && exists k :: 0 <= k < |steps| && steps[k] == Tell(id) && id in Run(steps[..k]).all
           && (t.log[|t.log| - 1] == Stopped <==> !t.phase.ok && Run(steps[..k]).all[id].cancelled)
  {
    hide Run;
    RunInv(steps);
    var k := EndedAsItStood(steps, id);
  }

  /** A turn that is over stays over, with the log it has: it is ended once. */
  lemma {:induction false} OverForGood(steps: seq<Step>, more: seq<Step>, id: TurnId)
    requires id in Run(steps).all && Run(steps).all[id].phase.Over?
    ensures id in Run(steps + more).all
    ensures Same(Run(steps).all[id], Run(steps + more).all[id])
  {
    hide Next;
    if more == [] {
      assert steps + more == steps;
    } else {
      var rest := more[..|more| - 1];
      OverForGood(steps, rest, id);
      assert (steps + more)[..|steps + more| - 1] == steps + rest;
      StaysOver(Run(steps + rest), more[|more| - 1], id);
    }
  }

  lemma {:induction false} StaysOver(g: Gate, step: Step, id: TurnId)
    requires id in g.all && g.all[id].phase.Over?
    ensures id in Next(g, step).all
    ensures Same(g.all[id], Next(g, step).all[id])
  {
    hide Judge, Mine, Owned;
  }

  /** A step by which the user, or a shutdown, asks for turns of the user to stop. */
  predicate AsksToStop(step: Step, user: User) {
    step.StopAll? || (step.Find? && step.actor == user) || (step.Delete? && step.actor == user)
  }

  /** A turn is looked up to be stopped, or cancelled, only at the request of its own user or a shutdown. */
  lemma {:induction false} StoppedByItsUser(steps: seq<Step>, id: TurnId)
    requires id in Run(steps).all && (Run(steps).all[id].found || Run(steps).all[id].cancelled)
    ensures exists k :: 0 <= k < |steps| && AsksToStop(steps[k], Run(steps).all[id].user)
  {
    hide Next;
    var n := |steps| - 1;
    var before := Run(steps[..n]);
    if !AsksToStop(steps[n], Run(steps).all[id].user) {
      AskedNow(before, steps[n], id);
      StoppedByItsUser(steps[..n], id);
      var k :| 0 <= k < n && AsksToStop(steps[..n][k], before.all[id].user);
      assert AsksToStop(steps[k], Run(steps).all[id].user);
    }
  }

  lemma {:induction false} AskedNow(g: Gate, step: Step, id: TurnId)
    requires id in Next(g, step).all && (Next(g, step).all[id].found || Next(g, step).all[id].cancelled)
    requires !AsksToStop(step, Next(g, step).all[id].user)
    ensures id in g.all && g.all[id].user == Next(g, step).all[id].user && (g.all[id].found || g.all[id].cancelled)
  {
    hide Judge, Mine;
  }

  // ---- What each step brings about -----------------------------------------------------------------------

  /** The turns that hold the gate, of one user or of all. */
  ghost function Holding(g: Gate): set<TurnId> { set t | t in g.all && Holds(g, t) }

  ghost function HoldingOf(g: Gate, user: User): set<TurnId> { set t | t in g.all && Holds(g, t) && g.all[t].user == user }

  lemma {:induction false} RunSnoc(steps: seq<Step>, step: Step)
    ensures Run(steps + [step]) == Next(Run(steps), step) && Inv(Run(steps))
  {
    hide Next, Inv;
    assert (steps + [step])[..|steps|] == steps;
    RunInv(steps);
  }

  lemma {:induction false} AsManyTurns(g: Gate, convs: set<Conv>, held: set<TurnId>)
    requires Tracks(g)
    requires forall c :: c in convs ==> c in g.turns && g.turns[c] in held
    ensures |convs| <= |held|
  {
    if c :| c in convs {
      var t := g.turns[c];
      AsManyTurns(g, convs - {c}, held - {t});
    }
  }

  lemma {:induction false} TurnsAreCounted(g: Gate, user: User)
    requires Tracks(g)
    ensures |g.turns| == |Holding(g)| && |Mine(g, user)| == |HoldingOf(g, user)|
  {
    assert forall t :: t in Holding(g) ==> t in g.all && InGate(g.all[t].phase) && g.all[t].conv in g.turns.Keys;
    OneEach(g, Holding(g), g.turns.Keys);
    AsManyTurns(g, g.turns.Keys, Holding(g));
    assert forall t :: t in HoldingOf(g, user) ==> g.all[t].conv in Mine(g, user);
    OneEach(g, HoldingOf(g, user), Mine(g, user));
    assert forall c :: c in Mine(g, user) ==> g.turns[c] in HoldingOf(g, user);
    AsManyTurns(g, Mine(g, user), HoldingOf(g, user));
  }

  /** In every run a new turn is refused as a conflict exactly when its conversation has a turn in the gate,
      otherwise as too many exactly when its user has three there or all have twenty, and otherwise admitted
      with an empty log; nothing else changes. */
  lemma {:induction false} AdmittedByTheLimits(steps: seq<Step>, id: TurnId, user: User, conv: Conv, first: bool)
    requires id !in Run(steps).all
    ensures var (g, h) := (Run(steps), Run(steps + [Enter(id, user, conv, first)]));
      var taken := exists t :: t in g.all && Holds(g, t) && g.all[t].conv == conv;
      var full := |HoldingOf(g, user)| >= 3 || |Holding(g)| >= 20;
      && Judge(g, user, conv) == (if taken then Conflict else if full then TooMany else Enters)
      && h == if taken || full then g
              else Gate(g.turns[conv := id], g.all[id := Turn(user, conv, first, false, false, Admitted, [])])
  {
    RunSnoc(steps, Enter(id, user, conv, first));
    var g := Run(steps);
    TurnsAreCounted(g, user);
    hide Run, Mine, Holding, HoldingOf, LogsFit, Limited;
    if conv in g.turns {
      assert Holds(g, g.turns[conv]);
    }
  }

  /** A turn after a step. */
  ghost function After(g: Gate, step: Step, id: TurnId): Turn
    requires id in g.all
  {
    if id in Next(g, step).all then Next(g, step).all[id] else g.all[id]
  }

  /** The life of an admitted turn, step by step: its log takes the conversation's event when it is the
      first, then what is emitted while it answers, then the event that tells what became of it. */
  lemma {:induction false} TurnsLive(steps: seq<Step>, id: TurnId, text: string, ok: bool)
    requires id in Run(steps).all
    ensures var (g, t) := (Run(steps), Run(steps).all[id]);
      match t.phase
      case Admitted => After(g, Begin(id), id) == t.(phase := Answering, log := if t.first then [Conversation] else [])
      case Answering =>
        && After(g, Emit(id, text), id) == t.(log := t.log + [Interim(text)])
        && After(g, Answer(id, ok), id) == t.(phase := Answered(ok))
      case Answered(done) => After(g, Remove(id), id) == t.(phase := Removed(done))
      case Removed(done) =>
        After(g, Tell(id), id) == t.(phase := Told(done),
                                     log := t.log + [if done then Done else if t.cancelled then Stopped else Error])
      case Told(done) => After(g, Close(id), id) == t.(phase := Over(done))
      case Over(_) => true
  {
    RunInv(steps);
    var g := Run(steps);
    LogFitsOf(g, id);
    hide Run, Tracks, Limited, LogsFit, Judge, Mine, Cancel;
    assert g.all[id].phase.Admitted? ==> [] + [Conversation] == [Conversation];
  }

  /** An ended turn tells what it was when it was told: done when it was answered, and otherwise stopped
      exactly when it was cancelled by then. */
  lemma {:induction false} EndedAsItStood(steps: seq<Step>, id: TurnId) returns (k: nat)
    requires id in Run(steps).all && (Run(steps).all[id].phase.Told? || Run(steps).all[id].phase.Over?)
    ensures k < |steps| && steps[k] == Tell(id) && id in Run(steps[..k]).all
    ensures var (before, t) := (Run(steps[..k]).all[id], Run(steps).all[id]);
      && before.phase == Removed(t.phase.ok)
      && t.log == before.log + [if t.phase.ok then Done else if before.cancelled then Stopped else Error]
  {
    hide Next;
    var n := |steps| - 1;
    var g, step := Run(steps[..n]), steps[n];
    ToldStep(g, step, id);
    if g.all[id].phase.Removed? {
      k := n;
    } else {
      k := EndedAsItStood(steps[..n], id);
      assert steps[..n][..k] == steps[..k];
    }
  }

  lemma {:induction false} ToldStep(g: Gate, step: Step, id: TurnId)
    requires id in Next(g, step).all
    requires Next(g, step).all[id].phase.Told? || Next(g, step).all[id].phase.Over?
    ensures id in g.all
    ensures var (t, u) := (g.all[id], Next(g, step).all[id]);
      if t.phase.Removed? then
        && step == Tell(id) && u.phase == Told(t.phase.ok)
        && u.log == t.log + [if t.phase.ok then Done else if t.cancelled then Stopped else Error]
      else
        (t.phase.Told? || t.phase.Over?) && u.phase.ok == t.phase.ok && u.log == t.log
  {
    hide Judge, Mine;
  }

  /** What others ask of a turn: a user finds and cancels only turns of their own; deleting cancels the turns
      the user has in the conversations, and a shutdown all that hold the gate; no other turn is touched. */
  lemma {:induction false} StopsReachTheirTurns(steps: seq<Step>, actor: User, conv: Conv, convs: set<Conv>,
                                                everything: bool, id: TurnId)
    requires id in Run(steps).all
    ensures var (g, t) := (Run(steps), Run(steps).all[id]);
      && After(g, Find(actor, conv), id) == t.(found := t.found || (Holds(g, id) && t.user == actor && t.conv == conv))
      && After(g, CancelFound(id), id) == t.(cancelled := t.cancelled || t.found)
      && After(g, Delete(actor, convs, everything), id)
           == t.(cancelled := t.cancelled || (Holds(g, id) && t.user == actor && (everything || t.conv in convs)))
      && After(g, StopAll, id) == t.(cancelled := t.cancelled || Holds(g, id))
  {
    RunInv(steps);
    var g := Run(steps);
    hide Run, Limited, LogsFit, Judge, Mine, Cancel, Tracks;
    FindsOwn(g, actor, conv, id);
    CancelsChosen(g, {id}, id);
    CancelsChosen(g, set c | c in g.turns && Owned(g, actor, c) && (everything || c in convs) :: g.turns[c], id);
    CancelsChosen(g, set c | c in g.turns :: g.turns[c], id);
    DeletesOwn(g, actor, convs, everything, id);
  }

  lemma {:induction false} FindsOwn(g: Gate, actor: User, conv: Conv, id: TurnId)
    requires Tracks(g) && id in g.all
    ensures id in Next(g, Find(actor, conv)).all
    ensures var t := g.all[id];
      Next(g, Find(actor, conv)).all[id] == t.(found := t.found || (Holds(g, id) && t.user == actor && t.conv == conv))
  {
  }

  lemma {:induction false} CancelsChosen(g: Gate, ids: set<TurnId>, id: TurnId)
    requires id in g.all
    ensures id in Cancel(g, ids).all
    ensures Cancel(g, ids).all[id] == g.all[id].(cancelled := g.all[id].cancelled || id in ids)
  {
  }

  lemma {:induction false} DeletesOwn(g: Gate, actor: User, convs: set<Conv>, everything: bool, id: TurnId)
    requires Tracks(g) && id in g.all
    ensures (id in (set c | c in g.turns && Owned(g, actor, c) && (everything || c in convs) :: g.turns[c]))
       <==> Holds(g, id) && g.all[id].user == actor && (everything || g.all[id].conv in convs)
    ensures (id in (set c | c in g.turns :: g.turns[c])) <==> Holds(g, id)
  {
    var c := g.all[id].conv;
    if Holds(g, id) {
      assert c in g.turns && g.turns[c] == id;
    }
  }

  lemma {:induction false} Counted(mine: set<Conv>, rest: set<Conv>, c: Conv)
    requires c in rest
    ensures |mine - (rest - {c})| == |mine - rest| + if c in mine then 1 else 0
  {
    assert mine - (rest - {c}) == if c in mine then mine - rest + {c} else mine - rest;
  }

  // ---- The locked sections as the source writes them -------------------------------------------------

  class Service {
    var turns: map<Conv, TurnId>
    var all: map<TurnId, Turn>

    ghost function Abs(): Gate
      reads this
    {
      Gate(turns, all)
    }

    /** It counts the caller's turns in a loop over the map. */
    method CountMine(user: User) returns (mine: nat)
      requires Tracks(Abs())
      ensures mine == |Mine(Abs(), user)|
    {
      mine := 0;
      var rest := turns.Keys;
      while rest != {}
        invariant rest <= turns.Keys
        invariant mine == |Mine(Abs(), user) - rest|
        decreases |rest|
      {
        var c :| c in rest;
        var counted := all[turns[c]].user == user;
        Counted(Mine(Abs(), user), rest, c);
        rest := rest - {c};
        if counted {
          mine := mine + 1;
        }
      }
      assert Mine(Abs(), user) - {} == Mine(Abs(), user);
    }

    method EnterTurn(id: TurnId, t: Turn) returns (verdict: Verdict)
      requires Inv(Abs()) && id !in all && t == Turn(t.user, t.conv, t.first, false, false, Admitted, [])
      modifies this
      ensures Inv(Abs()) && verdict == old(Judge(Abs(), t.user, t.conv))
      ensures verdict == Conflict <==> t.conv in old(turns)
      ensures var mine := set c | c in old(turns) && old(turns)[c] in old(all) && old(all)[old(turns)[c]].user == t.user;
        verdict == TooMany <==> (t.conv !in old(turns) && (|mine| >= 3 || |old(turns)| >= 20))
      ensures Abs() == old(Next(Abs(), Enter(id, t.user, t.conv, t.first)))
    {
      assert Mine(Abs(), t.user) == set c | c in turns && turns[c] in all && all[turns[c]].user == t.user;
      hide Mine, LogsFit, Tracks, Limited;
      var mine := CountMine(t.user);
      if t.conv in turns {
        return Conflict;
      }
      if mine >= TURNS_PER_USER || |turns| >= TURNS_IN_FLIGHT {
        return TooMany;
      }
      EnterKeeps(Abs(), id, t.user, t.conv, t.first);
      turns, all := turns[t.conv := id], all[id := t];
      return Enters;
    }

    /** The locked section of runTurn, which takes the turn's own entry out. */
    method RemoveTurn(id: TurnId)
      requires Inv(Abs()) && id in all && all[id].phase.Answered?
      modifies this
      ensures Inv(Abs()) && Abs() == old(Next(Abs(), Remove(id)))
    {
      hide Mine, LogsFit, Tracks, Limited;
      RemoveKeeps(Abs(), id);
      turns := turns - {all[id].conv};
      all := all[id := all[id].(phase := Removed(all[id].phase.ok))];
    }

    /** The lookup of StopBora; what it finds it cancels without the lock. */
    method FindTurn(actor: User, conv: Conv) returns (found: bool, id: TurnId)
      requires Inv(Abs())
      modifies this`all
      ensures Inv(Abs()) && Abs() == old(Next(Abs(), Find(actor, conv)))
      ensures found == old(Owned(Abs(), actor, conv)) && (found ==> conv in turns && id == turns[conv] && all[id].found)
    {
      hide Mine, LogsFit, Limited;
      NextKeeps(Abs(), Find(actor, conv));
      found, id := false, 0;
      if conv in turns && all[turns[conv]].user == actor {
        found, id := true, turns[conv];
        all := all[id := all[id].(found := true)];
      }
    }

    method CancelTurn(id: TurnId)
      requires Inv(Abs()) && id in all && all[id].found
      modifies this`all
      ensures Inv(Abs()) && Abs() == old(Next(Abs(), CancelFound(id)))
    {
      hide Mine, LogsFit, Limited, Tracks;
      NextKeeps(Abs(), CancelFound(id));
      OneMoreCancelled(Abs(), {}, id);
      assert Cancel(Abs(), {}).all == all && {} + {id} == {id};
      all := all[id := all[id].(cancelled := true)];
    }

    /** The loops of DeleteBora and StopAllBora, which cancel under the lock. */
    method CancelEach(every: bool, actor: User, convs: set<Conv>, everything: bool)
      requires Tracks(Abs())
      modifies this`all
      ensures Abs() == old(Cancel(Abs(), Meant(Abs(), turns.Keys, every, actor, convs, everything)))
    {
      hide Mine, Tracks, Meant, Cancel;
      ghost var g := Abs();
      var done, rest := {}, turns.Keys;
      NoneMeant(g, every, actor, convs, everything);
      while rest != {}
        invariant done + rest == turns.Keys && done !! rest
        invariant Abs() == Cancel(g, Meant(g, done, every, actor, convs, everything))
        decreases |rest|
      {
        var c :| c in rest;
        var id := turns[c];
        OneMoreMeant(g, done, c, every, actor, convs, everything);
        if every || (all[id].user == actor && (everything || c in convs)) {
          all := all[id := all[id].(cancelled := true)];
        }
        done, rest := done + {c}, rest - {c};
      }
      assert done == turns.Keys;
    }

    method DeleteTurns(actor: User, convs: set<Conv>, everything: bool)
      requires Inv(Abs())
      modifies this`all
      ensures Inv(Abs()) && Abs() == old(Next(Abs(), Delete(actor, convs, everything)))
    {
      hide Mine, LogsFit, Limited, Cancel, Owned, Tracks, Meant;
      NextKeeps(Abs(), Delete(actor, convs, everything));
      DeleteMeans(Abs(), actor, convs, everything);
      CancelEach(false, actor, convs, everything);
    }

    method StopAllTurns()
      requires Inv(Abs())
      modifies this`all
      ensures Inv(Abs()) && Abs() == old(Next(Abs(), StopAll))
    {
      hide Mine, LogsFit, Limited, Cancel, Owned, Tracks, Meant;
      NextKeeps(Abs(), StopAll);
      StopAllMeans(Abs());
      CancelEach(true, 0, {}, true);
    }
  }

  /** The turns of these conversations that such a loop is to cancel. */
  ghost function Meant(g: Gate, cs: set<Conv>, every: bool, actor: User, convs: set<Conv>, everything: bool): set<TurnId>
    requires Tracks(g) && cs <= g.turns.Keys
  {
    set c | c in cs && (every || (g.all[g.turns[c]].user == actor && (everything || c in convs))) :: g.turns[c]
  }

  lemma {:induction false} DeleteMeans(g: Gate, actor: User, convs: set<Conv>, everything: bool)
    requires Tracks(g)
    ensures Next(g, Delete(actor, convs, everything)) == Cancel(g, Meant(g, g.turns.Keys, false, actor, convs, everything))
  {
    hide Cancel;
    var chosen := set c | c in g.turns && Owned(g, actor, c) && (everything || c in convs) :: g.turns[c];
    assert chosen == Meant(g, g.turns.Keys, false, actor, convs, everything);
  }

  lemma {:induction false} StopAllMeans(g: Gate)
    requires Tracks(g)
    ensures Next(g, StopAll) == Cancel(g, Meant(g, g.turns.Keys, true, 0, {}, true))
  {
    hide Cancel;
    var chosen := set c | c in g.turns :: g.turns[c];
    assert chosen == Meant(g, g.turns.Keys, true, 0, {}, true);
  }

  lemma {:induction false} NoneMeant(g: Gate, every: bool, actor: User, convs: set<Conv>, everything: bool)
    requires Tracks(g)
    ensures Cancel(g, Meant(g, {}, every, actor, convs, everything)) == g
  {
    assert Cancel(g, {}).all == g.all;
  }

  lemma {:induction false} OneMoreMeant(g: Gate, done: set<Conv>, c: Conv, every: bool, actor: User, convs: set<Conv>,
                                        everything: bool)
    requires Tracks(g) && done <= g.turns.Keys && c in g.turns && c !in done
    ensures var id := g.turns[c];
      var now := Cancel(g, Meant(g, done, every, actor, convs, everything));
      && id in now.all && now.all[id].user == g.all[id].user
      && Cancel(g, Meant(g, done + {c}, every, actor, convs, everything))
         == if every || (g.all[id].user == actor && (everything || c in convs))
            then now.(all := now.all[id := now.all[id].(cancelled := true)])
            else now
  {
    var id := g.turns[c];
    var before := Meant(g, done, every, actor, convs, everything);
    var chosen := every || (g.all[id].user == actor && (everything || c in convs));
    assert Meant(g, done + {c}, every, actor, convs, everything) == before + if chosen then {id} else {};
    OneMoreCancelled(g, before, id);
    assert before + {} == before;
  }

  lemma {:induction false} OneMoreCancelled(g: Gate, ids: set<TurnId>, id: TurnId)
    requires id in g.all
    ensures var now := Cancel(g, ids);
      && id in now.all && now.all[id].user == g.all[id].user
      && Cancel(g, ids + {id}) == now.(all := now.all[id := now.all[id].(cancelled := true)])
  {
  }
}

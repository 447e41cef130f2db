/**
 * A change signal from the server to one browser: the Hub of events.go, whose channels hold at most one
 * token, the event stream, and the refresh scheduler of the browser's Directory (directory.svelte.ts).
 * A step is one section under the hub's lock, one event of the stream, one callback in the browser, or
 * time passing; they interleave freely, with any number of other streams.
 */
module ChangeSignal {

  import opened Wrappers

  type ChanId = nat

  const GAP := 2000

  // ---- The hub -----------------------------------------------------------------------------------------

  /** tokens are the channels holding their one token; making are those made but not yet subscribed.
      crashed: a closed channel was sent to or closed again. */
  datatype Hub = Hub(open: bool, subs: set<ChanId>, tokens: set<ChanId>, making: set<ChanId>, closed: set<ChanId>,
                     used: set<ChanId>, crashed: bool)

  const NEW_HUB := Hub(true, {}, {}, {}, {}, {}, false)

  predicate Meets(a: set<ChanId>, b: set<ChanId>) { a * b != {} }

  lemma {:induction false} MeetsOneMore(a: set<ChanId>, b: set<ChanId>, ch: ChanId)
    ensures Meets(a + {ch}, b) == (Meets(a, b) || ch in b)
    ensures !Meets({}, b)
  {
    assert (a + {ch}) * b == a * b + if ch in b then {ch} else {};
  }

  function Publish(h: Hub): Hub {
    h.(tokens := h.tokens + h.subs, crashed := h.crashed || Meets(h.subs, h.closed))
  }

  function CloseHub(h: Hub): Hub {
    h.(open := false, subs := {}, closed := h.closed + h.subs, crashed := h.crashed || Meets(h.subs, h.closed))
  }

  /** A new channel starts with a token, since a reconnect may have missed changes. */
  function Make(h: Hub, ch: ChanId): Hub {
    h.(making := h.making + {ch}, tokens := h.tokens + {ch}, used := h.used + {ch})
  }

  function Insert(h: Hub, ch: ChanId): Hub {
    if h.open then h.(making := h.making - {ch}, subs := h.subs + {ch})
    else h.(making := h.making - {ch}, closed := h.closed + {ch}, crashed := h.crashed || ch in h.closed)
  }

  function Unsubscribe(h: Hub, ch: ChanId): Hub { h.(subs := h.subs - {ch}) }

  function Take(h: Hub, ch: ChanId): Hub { h.(tokens := h.tokens - {ch}) }

  // ---- The browser -------------------------------------------------------------------------------------

  /** The scheduler: an armed timer with its deadline, a load under way, and whether to load again after. */
  datatype Scheduler = Scheduler(timer: Option<int>, inflight: bool, again: bool, last: int)

  const IDLE := Scheduler(None, false, false, 0)

  function Max(a: int, b: int): int { if a >= b then a else b }

  function Refresh(d: Scheduler, now: int): Scheduler {
    var d' := if d.inflight then d.(again := true) else d;
    if d.inflight || d.timer.Some? then d' else d'.(timer := Some(now + Max(0, d.last + GAP - now)))
  }

  function Load(d: Scheduler, now: int): Scheduler { d.(timer := None, inflight := true, last := now) }

  function Loaded(d: Scheduler, now: int): Scheduler {
    var d' := d.(inflight := false);
    if d.again then Refresh(d'.(again := false), now) else d'
  }

  // ---- The two together --------------------------------------------------------------------------------

  /** The browser's stream: none, its channel made, or its channel subscribed. */
  datatype Link = Down | Making(ch: ChanId) | Up(ch: ChanId)

  /** published counts the changes, seen those published before the last load began; loads are the times
      at which loads began. */
  datatype State = State(hub: Hub, live: bool, link: Link, transit: nat, dir: Scheduler, now: int,
                         published: nat, seen: nat, loads: seq<int>)

  datatype Step =
    | Change | ShutDown
    | OtherMake(ch: ChanId) | OtherInsert(ch: ChanId) | OtherTake(ch: ChanId) | OtherLeave(ch: ChanId)
    | Open(ch: ChanId) | Subscribe | Forward | Drop | Deliver
    | TimerFires | LoadEnds | Tick(ms: nat) | GoLive | Dispose

  predicate Mine(s: State, ch: ChanId) { !s.link.Down? && s.link.ch == ch }

  /** The page's end of a stream goes first; its channel is then one of the others, to be inserted and
      unsubscribed by its handler in time. */
  function Cut(s: State): State { s.(link := Down, transit := 0) }

  function Next(s: State, step: Step): State {
    match step
    case Change => s.(hub := Publish(s.hub), published := s.published + 1)
    case ShutDown => s.(hub := CloseHub(s.hub))
    case OtherMake(ch) => if ch in s.hub.used then s else s.(hub := Make(s.hub, ch))
    case OtherInsert(ch) => if ch in s.hub.making && !Mine(s, ch) then s.(hub := Insert(s.hub, ch)) else s
    case OtherTake(ch) => if Mine(s, ch) then s else s.(hub := Take(s.hub, ch))
    case OtherLeave(ch) => if Mine(s, ch) || ch in s.hub.making then s else s.(hub := Unsubscribe(s.hub, ch))
    case Open(ch) =>
      if s.live && s.link.Down? && ch !in s.hub.used then s.(hub := Make(s.hub, ch), link := Making(ch)) else s
    case Subscribe => if s.link.Making? then s.(hub := Insert(s.hub, s.link.ch), link := Up(s.link.ch)) else s
    case Forward =>
      if s.link.Up? && s.link.ch in s.hub.tokens
      then s.(hub := Take(s.hub, s.link.ch), transit := s.transit + 1)
      else s
    case Drop => Cut(s)
    case Deliver => if s.transit > 0 then s.(transit := s.transit - 1, dir := Refresh(s.dir, s.now)) else s
    case TimerFires =>
      if s.dir.timer.Some? && s.dir.timer.value <= s.now
      then s.(dir := Load(s.dir, s.now), seen := s.published, loads := s.loads + [s.now])
      else s
    case LoadEnds => if s.dir.inflight then s.(dir := Loaded(s.dir, s.now)) else s
    case Tick(ms) => s.(now := s.now + ms)
    case GoLive => if s.live then s else s.(live := true, dir := Refresh(s.dir, s.now))
    case Dispose => if s.live then Cut(s).(live := false, dir := s.dir.(timer := None, again := false)) else s
  }

  function Run(start: int, steps: seq<Step>): State {
    if steps == [] then State(NEW_HUB, false, Down, 0, IDLE, start, 0, 0, [])
    else Next(Run(start, steps[..|steps| - 1]), steps[|steps| - 1])
  }

  // ---- Invariants ----------------------------------------------------------------------------------------

  ghost predicate HubInv(h: Hub) {
    && h.subs !! h.closed && h.making !! h.closed && h.subs !! h.making
    && h.subs <= h.used && h.making <= h.used && h.closed <= h.used
    && (!h.open ==> h.subs == {}) && !h.crashed
  }

  ghost predicate LinkInv(s: State) {
    match s.link
    case Down => true
    case Making(ch) => s.live && ch in s.hub.making && ch in s.hub.tokens
    case Up(ch) => s.live && ch !in s.hub.making && ch in s.hub.used && (s.hub.open ==> ch in s.hub.subs)
  }

  /** Loads never overlap, begin at least GAP apart, and a timer never waits longer than GAP. */
  ghost predicate PaceInv(s: State) {
    && (s.dir.inflight ==> s.dir.timer.None?)
    && (s.loads != [] ==> s.dir.last == s.loads[|s.loads| - 1])
    && s.dir.last <= s.now
    && (s.dir.timer.Some? ==> s.dir.last + GAP <= s.dir.timer.value <= s.now + GAP)
    && (forall i :: 0 < i < |s.loads| ==> s.loads[i - 1] + GAP <= s.loads[i])
  }

  /** What will make the browser load again. */
  predicate Owed(s: State) {
    || s.link.Down?
    || s.link.ch in s.hub.tokens
    || s.transit > 0
    || s.dir.timer.Some?
    || (s.dir.inflight && s.dir.again)
  }

  ghost predicate Covered(s: State) {
    s.live && s.hub.open ==> s.seen == s.published || Owed(s)
  }

  ghost predicate Inv(s: State) {
    HubInv(s.hub) && LinkInv(s) && PaceInv(s) && Covered(s) && s.seen <= s.published
  }

  // Each operation of the hub keeps it sound; where the page's own channel stays is a matter of LinkInv.

  lemma {:induction false} PublishKeeps(h: Hub)
    requires HubInv(h)
    ensures HubInv(Publish(h))
  {
  }

  lemma {:induction false} CloseHubKeeps(h: Hub)
    requires HubInv(h)
    ensures HubInv(CloseHub(h))
  {
  }

  lemma {:induction false} MakeKeeps(h: Hub, ch: ChanId)
    requires HubInv(h) && ch !in h.used
    ensures HubInv(Make(h, ch))
  {
  }

  lemma {:induction false} InsertKeeps(h: Hub, ch: ChanId)
    requires HubInv(h) && ch in h.making
    ensures HubInv(Insert(h, ch))
  {
  }

  lemma {:induction false} UnsubscribeKeeps(h: Hub, ch: ChanId)
    requires HubInv(h)
    ensures HubInv(Unsubscribe(h, ch))
  {
  }

  lemma {:induction false} TakeKeeps(h: Hub, ch: ChanId)
    requires HubInv(h)
    ensures HubInv(Take(h, ch))
  {
  }

  lemma {:induction false} NextKeepsHub(s: State, step: Step)
    requires HubInv(s.hub) && LinkInv(s)
    ensures HubInv(Next(s, step).hub)
  {
    hide HubInv, Publish, CloseHub, Make, Insert, Unsubscribe, Take, Refresh, Load, Loaded;
    match step {
      case Change => PublishKeeps(s.hub);
      case ShutDown => CloseHubKeeps(s.hub);
      case OtherMake(ch) => if ch !in s.hub.used { MakeKeeps(s.hub, ch); }
      case OtherInsert(ch) => if ch in s.hub.making { InsertKeeps(s.hub, ch); }
      case OtherTake(ch) => TakeKeeps(s.hub, ch);
      case OtherLeave(ch) => UnsubscribeKeeps(s.hub, ch);
      case Open(ch) => if ch !in s.hub.used { MakeKeeps(s.hub, ch); }
      case Subscribe => if s.link.Making? { InsertKeeps(s.hub, s.link.ch); }
      case Forward => if s.link.Up? { TakeKeeps(s.hub, s.link.ch); }
      case _ =>
    }
  }

  lemma {:induction false} NextKeepsLink(s: State, step: Step)
    requires HubInv(s.hub) && LinkInv(s)
    ensures LinkInv(Next(s, step))
  {
    hide Refresh, Load, Loaded, Meets;
    if step.OtherInsert? || step.OtherLeave? || step.OtherMake? || step.OtherTake? {
      OtherKeepsLink(s, step);
    } else if step.Open? || step.Subscribe? || step.Forward? {
      OwnKeepsLink(s, step);
    }
  }

  lemma {:induction false} OtherKeepsLink(s: State, step: Step)
    requires HubInv(s.hub) && LinkInv(s)
    requires step.OtherInsert? || step.OtherLeave? || step.OtherMake? || step.OtherTake?
    ensures LinkInv(Next(s, step))
  {
    hide Refresh, Load, Loaded;
  }

  lemma {:induction false} OwnKeepsLink(s: State, step: Step)
    requires HubInv(s.hub) && LinkInv(s) && (step.Open? || step.Subscribe? || step.Forward?)
    ensures LinkInv(Next(s, step))
  {
    hide Refresh, Load, Loaded;
  }

  lemma {:induction false} NextKeepsPace(s: State, step: Step)
    requires PaceInv(s)
    ensures PaceInv(Next(s, step))
  {
    hide Publish, CloseHub, Make, Insert, Unsubscribe, Take;
  }

  lemma {:induction false} NextKeepsCovered(s: State, step: Step)
    requires Inv(s)
    ensures Covered(Next(s, step)) && Next(s, step).seen <= Next(s, step).published
  {
    hide PaceInv;
  }

  lemma {:induction false} RunInv(start: int, steps: seq<Step>)
    requires start >= 0
    ensures Inv(Run(start, steps))
  {
    hide Next;
    if steps != [] {
      var before := Run(start, steps[..|steps| - 1]);
      RunInv(start, steps[..|steps| - 1]);
      hide HubInv, LinkInv, PaceInv, Covered;
      NextKeepsHub(before, steps[|steps| - 1]);
      NextKeepsLink(before, steps[|steps| - 1]);
      NextKeepsPace(before, steps[|steps| - 1]);
      NextKeepsCovered(before, steps[|steps| - 1]);
    }
  }

  // ---- What every interleaving guarantees ------------------------------------------------------------------

  /** No change is lost: while the page is live and the server is up, either a load began after the last
      change, or something is pending that will begin one: a reconnect, a token in the channel, an event
      on its way, an armed timer, or a load under way with another to follow. */
  lemma {:induction false} NoChangeIsLost(start: int, steps: seq<Step>)
    requires start >= 0
    ensures var s := Run(start, steps); s.live && s.hub.open ==> s.seen == s.published || Owed(s)
  {
    RunInv(start, steps);
  }

  /** And what is pending comes due: on a connected page five more steps, and at most GAP of waiting,
      suffice to have begun a load after every change so far. */
  lemma {:induction false} CaughtUpWithinGap(start: int, steps: seq<Step>)
    requires start >= 0 && Run(start, steps).live && Run(start, steps).hub.open && Run(start, steps).link.Up?
    ensures var more := [LoadEnds, Forward, Deliver, Tick(GAP), TimerFires];
      Run(start, steps + more).seen == Run(start, steps + more).published == Run(start, steps).published
  {
    var s0 := Run(start, steps);
    RunInv(start, steps);
    RunSnoc(start, steps, LoadEnds);
    RunSnoc(start, steps + [LoadEnds], Forward);
    RunSnoc(start, steps + [LoadEnds] + [Forward], Deliver);
    RunSnoc(start, steps + [LoadEnds] + [Forward] + [Deliver], Tick(GAP));
    RunSnoc(start, steps + [LoadEnds] + [Forward] + [Deliver] + [Tick(GAP)], TimerFires);
    assert steps + [LoadEnds, Forward, Deliver, Tick(GAP), TimerFires]
        == steps + [LoadEnds] + [Forward] + [Deliver] + [Tick(GAP)] + [TimerFires];
    hide Run, HubInv, LinkInv;
    Settles(s0);
  }

  lemma {:induction false} RunSnoc(start: int, steps: seq<Step>, step: Step)
    ensures Run(start, steps + [step]) == Next(Run(start, steps), step)
  {
    assert (steps + [step])[..|steps|] == steps;
  }

  lemma {:induction false} Settles(s0: State)
    requires PaceInv(s0) && Covered(s0) && s0.live && s0.hub.open && s0.link.Up?
    ensures var s5 := Next(Next(Next(Next(Next(s0, LoadEnds), Forward), Deliver), Tick(GAP)), TimerFires);
      s5.seen == s5.published == s0.published
  {
  }

  // ---- Whatever comes between ------------------------------------------------------------------------------

  predicate Connected(s: State) { s.live && s.hub.open && s.link.Up? }

  /** The page stays connected from one state of a run to another. */
  ghost predicate StaysConnected(start: int, steps: seq<Step>, more: seq<Step>) {
    forall k :: 0 <= k <= |more| ==> Connected(Run(start, steps + more[..k]))
  }

  /** How far the page has come with the changes it must catch up with, the first due of them: a load began
      after them; or it is owed, at each stage by fewer of the ways in which it can be. */
  datatype Stage = AnyWay | NoLoad | NoToken | Armed(deadline: int)

  predicate IsAt(s: State, due: nat, stage: Stage) {
    s.published >= due &&
    (s.seen >= due ||
     match stage
     case AnyWay => s.link.Up? && Owed(s)
     case NoLoad => !s.dir.inflight && s.link.Up? && (s.link.ch in s.hub.tokens || s.transit > 0 || s.dir.timer.Some?)
     case NoToken => !s.dir.inflight && (s.transit > 0 || s.dir.timer.Some?)
     case Armed(deadline) => !s.dir.inflight && s.dir.timer.Some? && s.dir.timer.value <= deadline)
  }

  /** No other step takes the page back. */
  lemma {:induction false} StageStays(s: State, step: Step, due: nat, stage: Stage)
    requires IsAt(s, due, stage) && Connected(s) && Connected(Next(s, step)) && s.seen <= s.published
    ensures IsAt(Next(s, step), due, stage)
  {
    hide Meets;
  }

  lemma {:induction false} LoadEnded(s: State, due: nat)
    requires IsAt(s, due, AnyWay) && Connected(s)
    ensures IsAt(Next(s, LoadEnds), due, NoLoad)
  {
  }

  lemma {:induction false} Forwarded(s: State, due: nat)
    requires IsAt(s, due, NoLoad) && Connected(s)
    ensures IsAt(Next(s, Forward), due, NoToken)
  {
  }

  lemma {:induction false} Delivered(s: State, due: nat)
    requires IsAt(s, due, NoToken) && PaceInv(s)
    ensures IsAt(Next(s, Deliver), due, Armed(s.now + GAP))
  {
  }

  lemma {:induction false} Fired(s: State, due: nat, deadline: int)
    requires IsAt(s, due, Armed(deadline)) && s.now >= deadline
    ensures Next(s, TimerFires).seen >= due
  {
  }

  lemma {:induction false} StageKept(start: int, steps: seq<Step>, more: seq<Step>, due: nat, stage: Stage)
    requires start >= 0 && StaysConnected(start, steps, more) && IsAt(Run(start, steps), due, stage)
    ensures IsAt(Run(start, steps + more), due, stage) && Connected(Run(start, steps + more))
  {
    hide Next, IsAt, Connected, HubInv, LinkInv, PaceInv, Covered;
    assert more[..|more|] == more;
    if more == [] {
      assert steps + more == steps;
    } else {
      var most, last := more[..|more| - 1], more[|more| - 1];
      assert forall k :: 0 <= k <= |most| ==> most[..k] == more[..k];
      StageKept(start, steps, most, due, stage);
      RunInv(start, steps + most);
      RunSnoc(start, steps + most, last);
      assert steps + most + [last] == steps + more;
      StageStays(Run(start, steps + most), last, due, stage);
    }
  }

  lemma {:induction false} ConnectedParts(start: int, steps: seq<Step>, a: seq<Step>, b: seq<Step>)
    requires StaysConnected(start, steps, a + b)
    ensures StaysConnected(start, steps, a) && StaysConnected(start, steps + a, b)
  {
    hide Connected, Run;
    forall k | 0 <= k <= |a|
      ensures Connected(Run(start, steps + a[..k]))
    {
      assert (a + b)[..k] == a[..k];
    }
    forall k | 0 <= k <= |b|
      ensures Connected(Run(start, steps + a + b[..k]))
    {
      assert steps + (a + b)[..|a| + k] == steps + a + b[..k];
    }
  }

  /** One leg of the way: any steps, and then the one that is waited for. */
  lemma {:induction false} Leg(start: int, steps: seq<Step>, a: seq<Step>, step: Step, rest: seq<Step>, due: nat, stage: Stage)
    requires start >= 0 && StaysConnected(start, steps, a + [step] + rest) && IsAt(Run(start, steps), due, stage)
    ensures var s := Run(start, steps + a);
      && IsAt(s, due, stage) && Connected(s) && Inv(s)
      && Run(start, steps + a + [step]) == Next(s, step)
      && StaysConnected(start, steps + a + [step], rest)
  {
    hide Next, IsAt, Connected, Inv, StaysConnected;
    ConnectedParts(start, steps, a + [step], rest);
    ConnectedParts(start, steps, a, [step]);
    StageKept(start, steps, a, due, stage);
    RunInv(start, steps + a);
    RunSnoc(start, steps + a, step);
    assert steps + (a + [step]) == steps + a + [step];
  }

  /** In every continuation that keeps the page connected, a load after every change so far has begun once a
      load under way has ended, a token was forwarded, an event delivered, and, GAP after that, the timer
      fired, whatever other steps come in between, more changes included. */
  lemma {:induction false} CaughtUpOnceDue(start: int, steps: seq<Step>, a: seq<Step>, b: seq<Step>, c: seq<Step>,
                                           d: seq<Step>, e: seq<Step>)
    requires start >= 0
    requires StaysConnected(start, steps, a + [LoadEnds] + (b + [Forward] + (c + [Deliver] + (d + [TimerFires] + e))))
    requires var delivered := steps + a + [LoadEnds] + b + [Forward] + c;
      Run(start, delivered + [Deliver] + d).now >= Run(start, delivered).now + GAP
    ensures Run(start, steps + a + [LoadEnds] + b + [Forward] + c + [Deliver] + d + [TimerFires] + e).seen
         >= Run(start, steps).published
  {
    hide Run, Next, Connected, StaysConnected, HubInv, LinkInv, PaceInv, IsAt;
    var due := Run(start, steps).published;
    RunInv(start, steps);
    StartsOwed(start, steps, a + [LoadEnds] + (b + [Forward] + (c + [Deliver] + (d + [TimerFires] + e))));
    Leg(start, steps, a, LoadEnds, b + [Forward] + (c + [Deliver] + (d + [TimerFires] + e)), due, AnyWay);
    var s1 := steps + a + [LoadEnds];
    LoadEnded(Run(start, steps + a), due);
    Leg(start, s1, b, Forward, c + [Deliver] + (d + [TimerFires] + e), due, NoLoad);
    var s2 := s1 + b + [Forward];
    Forwarded(Run(start, s1 + b), due);
    Leg(start, s2, c, Deliver, d + [TimerFires] + e, due, NoToken);
    var s3 := s2 + c + [Deliver];
    var deadline := Run(start, s2 + c).now + GAP;
    Delivered(Run(start, s2 + c), due);
    Leg(start, s3, d, TimerFires, e, due, Armed(deadline));
    var s4 := s3 + d + [TimerFires];
    Fired(Run(start, s3 + d), due, deadline);
    LoadsLast(start, s4, e, due);
  }

  lemma {:induction false} StartsOwed(start: int, steps: seq<Step>, more: seq<Step>)
    requires start >= 0 && StaysConnected(start, steps, more)
    ensures IsAt(Run(start, steps), Run(start, steps).published, AnyWay)
  {
    hide Run;
    assert steps + more[..0] == steps;
    RunInv(start, steps);
  }

  lemma {:induction false} SeenGrows(s: State, step: Step)
    ensures s.seen <= s.published ==> Next(s, step).seen >= s.seen
  {
  }

  lemma {:induction false} LoadsLast(start: int, steps: seq<Step>, more: seq<Step>, due: nat)
    requires start >= 0 && Run(start, steps).seen >= due
    ensures Run(start, steps + more).seen >= due
  {
    hide Next, HubInv, LinkInv, PaceInv, Covered;
    if more == [] {
      assert steps + more == steps;
    } else {
      var most, last := more[..|more| - 1], more[|more| - 1];
      SeenGrows(Run(start, steps + most), last);
      LoadsLast(start, steps, most, due);
      RunInv(start, steps + most);
      RunSnoc(start, steps + most, last);
      assert steps + most + [last] == steps + more;
    }
  }

  /** Loads never overlap and begin at least GAP apart; no hub channel is closed twice or sent to once
      closed. */
  lemma {:induction false} LoadsArePaced(start: int, steps: seq<Step>, i: nat)
    requires start >= 0
    ensures var s := Run(start, steps);
      && !s.hub.crashed
      && (s.dir.inflight ==> Next(s, TimerFires).loads == s.loads)
      && (0 < i < |s.loads| ==> s.loads[i - 1] + GAP <= s.loads[i])
  {
    RunInv(start, steps);
  }

  // ---- What each step brings about -------------------------------------------------------------------------

  /** A change leaves a token with every subscriber and gives none to anyone else. */
  lemma {:induction false} ChangesReachSubscribers(s: State, ch: ChanId)
    ensures var t := Next(s, Change);
      && t.published == s.published + 1 && t.hub.subs == s.hub.subs && t.hub.closed == s.hub.closed
      && (ch in t.hub.tokens <==> ch in s.hub.tokens || ch in s.hub.subs)
  {
  }

  /** A shutdown closes exactly the subscribers; a channel made before it is closed when it comes to be
      subscribed, and one subscribed while the hub is open is not. */
  lemma {:induction false} ShutDownsClose(s: State, ch: ChanId)
    ensures var t := Next(s, ShutDown);
      !t.hub.open && t.hub.subs == {} && (ch in t.hub.closed <==> ch in s.hub.closed || ch in s.hub.subs)
    ensures ch in s.hub.making && !Mine(s, ch) ==>
      var t := Next(s, OtherInsert(ch));
      if s.hub.open then ch in t.hub.subs && t.hub.closed == s.hub.closed
      else ch in t.hub.closed && t.hub.subs == s.hub.subs
    ensures ch in s.hub.subs && ch !in s.hub.making && !Mine(s, ch) ==>
      Next(s, OtherLeave(ch)).hub.subs == s.hub.subs - {ch}
  {
  }

  /** A stream is opened with a token and sends on each token once; a dropped one sends no more. */
  lemma {:induction false} TokensGoOnce(s: State, ch: ChanId)
    requires HubInv(s.hub)
    ensures s.live && s.link.Down? && ch !in s.hub.used ==>
      var t := Next(Next(s, Open(ch)), Subscribe);
      t.link == Up(ch) && ch in t.hub.tokens && (s.hub.open ==> ch in t.hub.subs)
    ensures s.link.Up? && s.link.ch in s.hub.tokens ==>
      var t := Next(s, Forward); s.link.ch !in t.hub.tokens && t.transit == s.transit + 1
    ensures s.link.Up? && s.link.ch !in s.hub.tokens ==> Next(s, Forward) == s
    ensures Next(s, Drop).link.Down? && Next(s, Drop).transit == 0
  {
  }

  /** An event that comes in is a refresh: at once, or at the end of the gap after the last load; while a
      load is under way it is kept for after; and while one is due already it changes nothing. */
  lemma {:induction false} EventsAreRefreshes(s: State)
    requires s.transit > 0
    ensures var t := Next(s, Deliver);
      && t.transit == s.transit - 1 && t.loads == s.loads && t.dir.inflight == s.dir.inflight && t.dir.last == s.dir.last
      && (s.dir.inflight ==> t.dir.again && t.dir.timer == s.dir.timer)
      && (!s.dir.inflight ==>
            && t.dir.again == s.dir.again
            && t.dir.timer == if s.dir.timer.Some? then s.dir.timer
                              else if s.now >= s.dir.last + 2000 then Some(s.now) else Some(s.dir.last + 2000))
  {
  }

  /** A timer that is due begins a load; and only a load that was asked for again meanwhile is followed by
      another. */
  lemma {:induction false} LoadsBeginAndEnd(s: State)
    requires PaceInv(s)
    ensures s.dir.timer.Some? && s.dir.timer.value <= s.now ==>
      var t := Next(s, TimerFires);
      t.dir.inflight && t.dir.timer.None? && t.dir.last == s.now && t.loads == s.loads + [s.now] && t.seen == s.published
    ensures s.dir.inflight ==>
      var t := Next(s, LoadEnds);
      && !t.dir.inflight && !t.dir.again && t.loads == s.loads
      && t.dir.timer == if !s.dir.again then None
                        else if s.now >= s.dir.last + 2000 then Some(s.now) else Some(s.dir.last + 2000)
  {
  }

  /** A page that goes live refreshes; one that is left drops its stream and what was due or kept. */
  lemma {:induction false} PagesComeAndGo(s: State)
    ensures !s.live ==>
      var t := Next(s, GoLive);
      t.live && t.hub == s.hub && (if s.dir.inflight then t.dir.again else t.dir.timer.Some?)
    ensures s.live ==>
      var t := Next(s, Dispose);
      !t.live && t.link.Down? && t.transit == 0 && t.dir.timer.None? && !t.dir.again && t.dir.inflight == s.dir.inflight
  {
  }

  // ---- No load without a reason ----------------------------------------------------------------------------

  /** What may ask for a load: changes, streams opened, and pages that go live. */
  function Reasons(start: int, steps: seq<Step>): nat {
    if steps == [] then 0
    else
      var before, step := steps[..|steps| - 1], steps[|steps| - 1];
      var s := Run(start, before);
      Reasons(start, before) + match step
        case Change => 1
        case Open(ch) => if s.live && s.link.Down? && ch !in s.hub.used then 1 else 0
        case GoLive => if s.live then 0 else 1
        case _ => 0
  }

  /** Loads begun, due and kept for after, and the signals still on their way. */
  function Account(s: State): nat {
    |s.loads| + (if s.dir.timer.Some? then 1 else 0) + (if s.dir.again then 1 else 0)
    + s.transit + (if !s.link.Down? && s.link.ch in s.hub.tokens then 1 else 0)
  }

  ghost predicate Settled(s: State) {
    && (s.dir.again ==> s.dir.inflight) && (s.dir.inflight ==> s.dir.timer.None?)
    && s.hub.tokens <= s.hub.used && (s.link.Down? ==> s.transit == 0)
  }

  lemma {:induction false} StepIsAccounted(s: State, step: Step, reasons: nat)
    requires HubInv(s.hub) && LinkInv(s) && Settled(s) && Account(s) <= reasons
    ensures Settled(Next(s, step))
    ensures Account(Next(s, step)) <= reasons + match step
      case Change => 1
      case Open(ch) => if s.live && s.link.Down? && ch !in s.hub.used then 1 else 0
      case GoLive => if s.live then 0 else 1
      case _ => 0
  {
    hide Meets;
  }

  lemma {:induction false} LoadsAreAccounted(start: int, steps: seq<Step>)
    requires start >= 0
    ensures Settled(Run(start, steps)) && Account(Run(start, steps)) <= Reasons(start, steps)
  {
    hide Next, HubInv, LinkInv, PaceInv, Covered;
    if steps == [] {
      assert Settled(Run(start, steps));
    } else {
      var before := steps[..|steps| - 1];
      LoadsAreAccounted(start, before);
      RunInv(start, before);
      hide Account, Settled;
      StepIsAccounted(Run(start, before), steps[|steps| - 1], Reasons(start, before));
    }
  }

  /** No page loads for nothing: the loads begun are at most the changes, the streams opened and the times
      the page went live; a page at rest stays at rest. */
  lemma {:induction false} NoLoadWithoutAReason(start: int, steps: seq<Step>)
    requires start >= 0
    ensures |Run(start, steps).loads| <= Reasons(start, steps)
  {
    LoadsAreAccounted(start, steps);
  }

  // ---- The two objects as their sources write them ---------------------------------------------------------

  class HubObject {
    var subs: Option<set<ChanId>>
    var tokens: set<ChanId>
    var closed: set<ChanId>
    ghost var making: set<ChanId>
    ghost var used: set<ChanId>
    ghost var crashed: bool

    /** A nil map of subscribers is a closed hub. */
    ghost function Abs(): Hub
      reads this
    {
      Hub(subs.Some?, if subs.Some? then subs.value else {}, tokens, making, closed, used, crashed)
    }

    /** One send to each subscriber, which never blocks, since a channel with a token is skipped. */
    method SendAll(all: set<ChanId>)
      modifies this`tokens, this`crashed
      ensures tokens == old(tokens) + all && crashed == (old(crashed) || Meets(all, closed))
    {
      hide Meets;
      var rest := all;
      MeetsOneMore({}, closed, 0);
      assert all - rest == {};
      while rest != {}
        invariant rest <= all
        invariant tokens == old(tokens) + (all - rest)
        invariant crashed == (old(crashed) || Meets(all - rest, closed))
        decreases |rest|
      {
        var ch :| ch in rest;
        MeetsOneMore(all - rest, closed, ch);
        assert all - (rest - {ch}) == all - rest + {ch};
        crashed := crashed || ch in closed;
        tokens := tokens + {ch};
        rest := rest - {ch};
      }
      assert all - rest == all;
    }

    method CloseAll(all: set<ChanId>)
      modifies this`closed, this`crashed
      ensures closed == old(closed) + all && crashed == (old(crashed) || Meets(all, old(closed)))
    {
      hide Meets;
      var rest := all;
      MeetsOneMore({}, closed, 0);
      assert all - rest == {};
      while rest != {}
        invariant rest <= all
        invariant closed == old(closed) + (all - rest)
        invariant crashed == (old(crashed) || Meets(all - rest, old(closed)))
        decreases |rest|
      {
        var ch :| ch in rest;
        MeetsOneMore(all - rest, old(closed), ch);
        assert all - (rest - {ch}) == all - rest + {ch};
        crashed := crashed || ch in closed;
        closed := closed + {ch};
        rest := rest - {ch};
      }
      assert all - rest == all;
    }

    method PublishChange()
      modifies this`tokens, this`crashed
      ensures Abs() == Publish(old(Abs()))
    {
      if subs.Some? {
        SendAll(subs.value);
      }
    }

    method Close()
      modifies this`subs, this`closed, this`crashed
      ensures Abs() == CloseHub(old(Abs()))
    {
      if subs.Some? {
        CloseAll(subs.value);
      }
      subs := None;
    }

    /** The locked part of subscribe; the channel was made with its token before. */
    method SubscribeChannel(ch: ChanId)
      requires ch in making
      modifies this
      ensures Abs() == Insert(old(Abs()), ch)
    {
      making := making - {ch};
      if subs.None? {
        crashed := crashed || ch in closed;
        closed := closed + {ch};
        return;
      }
      subs := Some(subs.value + {ch});
    }

    /** Deleting from the nil map of a closed hub does nothing. */
    method UnsubscribeChannel(ch: ChanId)
      modifies this`subs
      ensures Abs() == Unsubscribe(old(Abs()), ch)
    {
      if subs.Some? {
        subs := Some(subs.value - {ch});
      }
    }
  }

  class Directory {
    var timer: Option<int>
    var inflight: bool
    var again: bool
    var last: int

    ghost function Abs(): Scheduler
      reads this
    {
      Scheduler(timer, inflight, again, last)
    }

    method RefreshNow(now: int)
      modifies this
      ensures Abs() == Refresh(old(Abs()), now)
    {
      if inflight {
        again := true;
      }
      if inflight || timer.Some? {
        return;
      }
      timer := Some(now + Max(0, last + GAP - now));
    }

    method TimerDue(now: int)
      requires timer.Some?
      modifies this
      ensures Abs() == Load(old(Abs()), now)
    {
      timer := None;
      inflight := true;
      last := now;
    }

    /** The finally of a load, whether it succeeded or failed. */
    method LoadDone(now: int)
      modifies this
      ensures Abs() == Loaded(old(Abs()), now)
    {
      inflight := false;
      if !again {
        return;
      }
      again := false;
      RefreshNow(now);
    }
  }
}

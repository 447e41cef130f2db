/**
 * The hub that shares one Docker metrics stream per container (metricsHub in task_service.go): it
 * replays the last minute to a new viewer, drops samples for a viewer that does not read, and lets a
 * stream linger for a while after its last viewer. A step is one section under the hub's lock, one
 * read by a viewer, or a timer going off; they interleave freely.
 */
module MetricsHub {

  import opened Wrappers

  type Container = nat
  type FeedId = nat
  type ChanId = nat
  type TimerId = nat
  type Sample = nat

  const HISTORY := 60
  const BUFFER := 2 * HISTORY

  /** history is every sample the feed ever had; the source keeps only recent. */
  datatype Feed = Feed(container: Container, recent: seq<Sample>, subs: set<ChanId>, ended: bool, stopped: bool,
                       idle: Option<TimerId>, history: seq<Sample>)

  /** A viewer's channel: what waits in it, what was read from it, what was dropped, and, to state what it
      should carry, what it was given on joining (the history was joinedAt long) and what came later. */
  datatype Chan = Chan(feed: FeedId, open: bool, buffer: seq<Sample>, read: seq<Sample>, lost: nat,
                       joinedAt: nat, past: seq<Sample>, later: seq<Sample>)

  /** A linger timer that went off waits for the lock, and can then no longer be stopped. */
  datatype TimerPhase = Armed | Fired | Gone

  datatype Timer = Timer(feed: FeedId, phase: TimerPhase)

  /** crashed: a channel was closed twice, sent to after closing, a send blocked under the lock, or a
      viewer was added to a feed whose pump is gone. */
  datatype Hub = Hub(feeds: map<Container, FeedId>, all: map<FeedId, Feed>, chans: map<ChanId, Chan>,
                     timers: map<TimerId, Timer>, crashed: bool)

  const EMPTY_HUB := Hub(map[], map[], map[], map[], false)

  datatype Step =
    | Watch(c: Container, opens: bool, f: FeedId, ch: ChanId)
    | Arrive(f: FeedId, m: Sample) | EndFeed(f: FeedId)
    | Leave(ch: ChanId, t: TimerId) | Fire(t: TimerId) | Expire(t: TimerId)
    | Read(ch: ChanId)

  function Newest(samples: seq<Sample>): seq<Sample> {
    if |samples| > HISTORY then samples[|samples| - HISTORY..] else samples
  }

  predicate Mapped(h: Hub, f: FeedId) {
    f in h.all && h.all[f].container in h.feeds && h.feeds[h.all[f].container] == f
  }

  function NewFeed(c: Container): Feed { Feed(c, [], {}, false, false, None, []) }

  /** The map lookup of watch, opening a stream when there is none. */
  function Found(h: Hub, c: Container, f: FeedId): Hub {
    if c in h.feeds then h else h.(feeds := h.feeds[c := f], all := h.all[f := NewFeed(c)])
  }

  /** Stopping a timer does nothing to one that already went off. */
  function Disarmed(timers: map<TimerId, Timer>, idle: Option<TimerId>): map<TimerId, Timer> {
    if idle.Some? && idle.value in timers && timers[idle.value].phase == Armed
    then timers[idle.value := timers[idle.value].(phase := Gone)]
    else timers
  }

  function Join(h: Hub, f: FeedId, ch: ChanId): Hub
    requires f in h.all
  {
    var feed := h.all[f];
    h.(all := h.all[f := feed.(idle := None, subs := feed.subs + {ch})],
       timers := Disarmed(h.timers, feed.idle),
       chans := h.chans[ch := Chan(f, true, feed.recent, [], 0, |feed.history|, feed.recent, [])],
       crashed := h.crashed || feed.ended || |feed.recent| > BUFFER)
  }

  /** A full channel misses the sample rather than stalling the others. */
  function Offer(ch: Chan, m: Sample): Chan {
    if |ch.buffer| < BUFFER then ch.(buffer := ch.buffer + [m], later := ch.later + [m])
    else ch.(lost := ch.lost + 1, later := ch.later + [m])
  }

  function Offered(chans: map<ChanId, Chan>, subs: set<ChanId>, m: Sample): map<ChanId, Chan> {
    map ch | ch in chans :: if ch in subs then Offer(chans[ch], m) else chans[ch]
  }

  function Closed(chans: map<ChanId, Chan>, subs: set<ChanId>): map<ChanId, Chan> {
    map ch | ch in chans :: if ch in subs then chans[ch].(open := false) else chans[ch]
  }

  /** All of these channels may be sent to, or closed. */
  predicate AllOpen(chans: map<ChanId, Chan>, subs: set<ChanId>) {
    forall ch :: ch in subs ==> ch in chans && chans[ch].open
  }

  function Without(feeds: map<Container, FeedId>, c: Container, f: FeedId): map<Container, FeedId> {
    if c in feeds && feeds[c] == f then feeds - {c} else feeds
  }

  function Arrived(h: Hub, f: FeedId, m: Sample): Hub
    requires f in h.all
  {
    var feed := h.all[f];
    h.(all := h.all[f := feed.(recent := Newest(feed.recent + [m]), history := feed.history + [m])],
       chans := Offered(h.chans, feed.subs, m),
       crashed := h.crashed || !AllOpen(h.chans, feed.subs))
  }

  function Ended(h: Hub, f: FeedId): Hub
    requires f in h.all
  {
    var feed := h.all[f];
    h.(feeds := Without(h.feeds, feed.container, f),
       all := h.all[f := feed.(subs := {}, ended := true, stopped := true)],
       chans := Closed(h.chans, feed.subs),
       crashed := h.crashed || !AllOpen(h.chans, feed.subs))
  }

  function Left(h: Hub, f: FeedId, ch: ChanId, t: TimerId): Hub
    requires f in h.all
  {
    var feed := h.all[f];
    var rest := feed.subs - {ch};
    h.(all := h.all[f := feed.(subs := rest, idle := if rest == {} then Some(t) else feed.idle)],
       chans := Closed(h.chans, {ch}),
       timers := if rest == {} then h.timers[t := Timer(f, Armed)] else h.timers,
       crashed := h.crashed || !AllOpen(h.chans, {ch}))
  }

  /** The timer's body: only the timer its feed still names may end the feed, and only while it is mapped. */
  function Expired(h: Hub, t: TimerId): Hub
    requires t in h.timers
  {
    var f := h.timers[t].feed;
    var g := h.(timers := h.timers[t := Timer(f, Gone)]);
    if Mapped(h, f) && h.all[f].idle == Some(t)
    then g.(feeds := h.feeds - {h.all[f].container}, all := h.all[f := h.all[f].(stopped := true)])
    else g
  }

  /** A step that cannot happen now leaves the hub alone. New feeds, channels and timers are new. */
  function Next(h: Hub, step: Step): Hub {
    match step
    case Watch(c, opens, f, ch) =>
      if (c in h.feeds || (opens && f !in h.all)) && ch !in h.chans && (c in h.feeds ==> h.feeds[c] in h.all)
      then Join(Found(h, c, f), Found(h, c, f).feeds[c], ch)
      else h
    case Arrive(f, m) => if f in h.all && !h.all[f].ended then Arrived(h, f, m) else h
    case EndFeed(f) => if f in h.all && !h.all[f].ended then Ended(h, f) else h
    case Leave(ch, t) =>
      if ch in h.chans && h.chans[ch].feed in h.all && ch in h.all[h.chans[ch].feed].subs && t !in h.timers
      then Left(h, h.chans[ch].feed, ch, t)
      else h
    case Fire(t) =>
      if t in h.timers && h.timers[t].phase == Armed then h.(timers := h.timers[t := h.timers[t].(phase := Fired)]) else h
    case Expire(t) => if t in h.timers && h.timers[t].phase == Fired then Expired(h, t) else h
    case Read(ch) =>
      if ch in h.chans && h.chans[ch].buffer != [] then
        var c := h.chans[ch];
        h.(chans := h.chans[ch := c.(buffer := c.buffer[1..], read := c.read + [c.buffer[0]])])
      else h
  }

  function Run(steps: seq<Step>): Hub {
    if steps == [] then EMPTY_HUB else Next(Run(steps[..|steps| - 1]), steps[|steps| - 1])
  }

  // ---- Invariants ------------------------------------------------------------------------------------

  /** A feed in the map runs and has a viewer or a linger timer; a feed outside it has been stopped. */
  ghost predicate FeedsInv(h: Hub) {
    && (forall c :: c in h.feeds ==> h.feeds[c] in h.all && h.all[h.feeds[c]].container == c)
    && (forall f :: f in h.all ==>
          if Mapped(h, f)
          then !h.all[f].ended && !h.all[f].stopped && (h.all[f].subs != {} || h.all[f].idle.Some?)
          else h.all[f].stopped && h.all[f].subs == {})
  }

  /** The linger timer of a mapped feed is its own, has not run, and waits only while nobody watches. */
  ghost predicate TimersInv(h: Hub) {
    forall f :: Mapped(h, f) && h.all[f].idle.Some? ==>
      && h.all[f].subs == {}
      && h.all[f].idle.value in h.timers && h.timers[h.all[f].idle.value].feed == f
      && h.timers[h.all[f].idle.value].phase != Gone
  }

  ghost predicate ViewersInv(h: Hub) {
    forall f, ch :: f in h.all && ch in h.all[f].subs ==> ch in h.chans && h.chans[ch].feed == f
  }

  /** A channel is open exactly while it is among its feed's viewers. */
  ghost predicate OpenInv(h: Hub) {
    forall ch :: ch in h.chans ==>
      h.chans[ch].feed in h.all && (h.chans[ch].open <==> ch in h.all[h.chans[ch].feed].subs)
  }

  ghost predicate ChansInv(h: Hub) { ViewersInv(h) && OpenInv(h) }

  ghost predicate IsSubsequence(xs: seq<Sample>, ys: seq<Sample>) {
    if xs == [] then true
    else if ys == [] then false
    else if xs[|xs| - 1] == ys[|ys| - 1] && IsSubsequence(xs[..|xs| - 1], ys[..|ys| - 1]) then true
    else IsSubsequence(xs, ys[..|ys| - 1])
  }

  ghost predicate ChanCarries(c: Chan) {
    && |c.buffer| <= BUFFER
    && IsSubsequence(c.read + c.buffer, c.past + c.later)
    && |c.read| + |c.buffer| + c.lost == |c.past| + |c.later|
  }

  /** recent is the newest of the history, and a channel's past and later are cut out of it. */
  ghost predicate ChanFollows(feed: Feed, c: Chan) {
    && c.joinedAt <= |feed.history|
    && c.past == Newest(feed.history[..c.joinedAt])
    && c.later <= feed.history[c.joinedAt..]
    && (c.open ==> c.later == feed.history[c.joinedAt..])
  }

  ghost predicate RecentInv(h: Hub) { forall f :: f in h.all ==> h.all[f].recent == Newest(h.all[f].history) }

  ghost predicate CarriesInv(h: Hub) { forall ch :: ch in h.chans ==> ChanCarries(h.chans[ch]) }

  ghost predicate FollowsInv(h: Hub) {
    forall ch :: ch in h.chans && h.chans[ch].feed in h.all ==> ChanFollows(h.all[h.chans[ch].feed], h.chans[ch])
  }

  ghost predicate HistoryInv(h: Hub) { RecentInv(h) && CarriesInv(h) && FollowsInv(h) }

  ghost predicate Inv(h: Hub) {
    FeedsInv(h) && TimersInv(h) && ChansInv(h) && HistoryInv(h) && !h.crashed
  }

  // ---- Samples ---------------------------------------------------------------------------------------

  lemma {:induction false} SubsequenceSnoc(xs: seq<Sample>, ys: seq<Sample>, m: Sample)
    requires IsSubsequence(xs, ys)
    ensures IsSubsequence(xs + [m], ys + [m]) && IsSubsequence(xs, ys + [m])
  {
    assert (xs + [m])[..|xs|] == xs && (ys + [m])[..|ys|] == ys;
    if xs != [] && xs[|xs| - 1] == m {
      SubsequencePrefix(xs, ys);
    }
  }

  lemma {:induction false} SubsequencePrefix(xs: seq<Sample>, ys: seq<Sample>)
    requires IsSubsequence(xs, ys) && xs != []
    ensures IsSubsequence(xs[..|xs| - 1], ys)
  {
    if xs[|xs| - 1] == ys[|ys| - 1] && IsSubsequence(xs[..|xs| - 1], ys[..|ys| - 1]) {
      var (xs', ys') := (xs[..|xs| - 1], ys[..|ys| - 1]);
      if xs' != [] && xs'[|xs'| - 1] == ys[|ys| - 1] {
        SubsequencePrefix(xs', ys');
      }
    } else {
      SubsequencePrefix(xs, ys[..|ys| - 1]);
      var xs' := xs[..|xs| - 1];
      if xs' != [] && xs'[|xs'| - 1] == ys[|ys| - 1] {
        SubsequencePrefix(xs', ys[..|ys| - 1]);
      }
    }
  }

  lemma {:induction false} SubsequenceSelf(xs: seq<Sample>)
    ensures IsSubsequence(xs, xs)
  {
    if xs != [] {
      SubsequenceSelf(xs[..|xs| - 1]);
    }
  }

  lemma {:induction false} NewestGrows(history: seq<Sample>, m: Sample)
    ensures Newest(Newest(history) + [m]) == Newest(history + [m])
    ensures |Newest(history)| == if |history| < HISTORY then |history| else HISTORY
  {
  }

  /** A sample is dropped only for a viewer with BUFFER samples unread. */
  lemma {:induction false} OfferCarries(c: Chan, m: Sample)
    requires ChanCarries(c)
    ensures ChanCarries(Offer(c, m))
    ensures Offer(c, m).lost > c.lost ==> |c.buffer| == BUFFER
  {
    hide IsSubsequence;
    SubsequenceSnoc(c.read + c.buffer, c.past + c.later, m);
    Reassociate(c.past, c.later, m);
    Reassociate(c.read, c.buffer, m);
  }

  lemma {:induction false} Reassociate(a: seq<Sample>, b: seq<Sample>, m: Sample)
    ensures a + (b + [m]) == a + b + [m]
  {
  }

  lemma {:induction false} ReadCarries(c: Chan)
    requires ChanCarries(c) && c.buffer != []
    ensures ChanCarries(c.(buffer := c.buffer[1..], read := c.read + [c.buffer[0]]))
  {
    assert c.read + [c.buffer[0]] + c.buffer[1..] == c.read + c.buffer;
  }

  lemma {:induction false} OfferFollows(feed: Feed, c: Chan, m: Sample)
    requires ChanFollows(feed, c) && c.open
    ensures ChanFollows(feed.(history := feed.history + [m], recent := Newest(feed.recent + [m])), Offer(c, m))
  {
    var after := feed.history + [m];
    assert after[..c.joinedAt] == feed.history[..c.joinedAt];
    assert after[c.joinedAt..] == feed.history[c.joinedAt..] + [m];
  }

  lemma {:induction false} ClosedFollows(feed: Feed, c: Chan, m: Sample)
    requires ChanFollows(feed, c) && !c.open
    ensures ChanFollows(feed.(history := feed.history + [m], recent := Newest(feed.recent + [m])), c)
  {
    var after := feed.history + [m];
    assert after[..c.joinedAt] == feed.history[..c.joinedAt];
    assert after[c.joinedAt..] == feed.history[c.joinedAt..] + [m];
  }

  // ---- Each step keeps the invariants ----------------------------------------------------------------

  /** What an open map entry gives: a feed that runs, or a new one that nobody watches yet. */
  lemma {:induction false} FoundIsThere(h: Hub, c: Container, f: FeedId)
    requires FeedsInv(h) && (c in h.feeds || f !in h.all)
    ensures var g := Found(h, c, f);
      c in g.feeds && g.feeds[c] in g.all && Mapped(g, g.feeds[c]) && !g.all[g.feeds[c]].ended
    ensures forall e :: Mapped(Found(h, c, f), e) <==> Mapped(h, e) || (c !in h.feeds && e == f)
  {
  }

  lemma {:induction false} JoinedPlaces(g: Hub, f: FeedId, ch: ChanId)
    requires f in g.all
    ensures forall e :: Mapped(Join(g, f, ch), e) <==> Mapped(g, e)
  {
    hide Disarmed;
  }

  lemma {:induction false} JoinKeepsFeeds(h: Hub, c: Container, f: FeedId, ch: ChanId)
    requires FeedsInv(h) && (c in h.feeds || f !in h.all)
    ensures var g := Found(h, c, f);
      c in g.feeds && g.feeds[c] in g.all && FeedsInv(Join(g, g.feeds[c], ch))
  {
    FoundIsThere(h, c, f);
    JoinedPlaces(Found(h, c, f), Found(h, c, f).feeds[c], ch);
    hide Disarmed, Mapped;
  }

  lemma {:induction false} JoinKeepsTimers(h: Hub, c: Container, f: FeedId, ch: ChanId)
    requires FeedsInv(h) && TimersInv(h) && (c in h.feeds || f !in h.all)
    ensures var g := Found(h, c, f);
      c in g.feeds && g.feeds[c] in g.all && TimersInv(Join(g, g.feeds[c], ch))
  {
    FoundIsThere(h, c, f);
    var g := Found(h, c, f);
    JoinedPlaces(g, g.feeds[c], ch);
    var j := Join(g, g.feeds[c], ch);
    hide Mapped;
    forall e | Mapped(j, e) && j.all[e].idle.Some?
      ensures Mapped(h, e) && j.all[e] == h.all[e]
    {
    }
  }

  lemma {:induction false} FoundKeepsChans(h: Hub, c: Container, f: FeedId)
    requires FeedsInv(h) && ChansInv(h) && (c in h.feeds || f !in h.all)
    ensures ChansInv(Found(h, c, f)) && c in Found(h, c, f).feeds && Found(h, c, f).feeds[c] in Found(h, c, f).all
  {
    FoundIsThere(h, c, f);
    hide Mapped, FeedsInv;
  }

  lemma {:induction false} JoinKeepsViewers(g: Hub, f: FeedId, ch: ChanId)
    requires ChansInv(g) && f in g.all && ch !in g.chans
    ensures ViewersInv(Join(g, f, ch))
  {
    hide Disarmed, OpenInv;
  }

  lemma {:induction false} JoinKeepsOpen(g: Hub, f: FeedId, ch: ChanId)
    requires ChansInv(g) && f in g.all && ch !in g.chans
    ensures OpenInv(Join(g, f, ch))
  {
    hide Disarmed;
  }

  lemma {:induction false} JoinKeepsChans(g: Hub, f: FeedId, ch: ChanId)
    requires ChansInv(g) && f in g.all && ch !in g.chans
    ensures ChansInv(Join(g, f, ch))
  {
    JoinKeepsViewers(g, f, ch);
    JoinKeepsOpen(g, f, ch);
    hide ViewersInv, OpenInv, Join;
  }

  lemma {:induction false} NewChanFits(feed: Feed, f: FeedId)
    requires feed.recent == Newest(feed.history)
    ensures var c := Chan(f, true, feed.recent, [], 0, |feed.history|, feed.recent, []);
      ChanCarries(c) && ChanFollows(feed, c)
    ensures |feed.recent| <= BUFFER
  {
    SubsequenceSelf(feed.recent);
    assert feed.history[..|feed.history|] == feed.history;
    assert [] + feed.recent == feed.recent && feed.recent + [] == feed.recent;
  }

  /** Following looks at nothing of a feed but its history, and at no buffer. */
  lemma {:induction false} SameFollows(feed: Feed, feed': Feed, c: Chan, c': Chan)
    requires feed'.history == feed.history && ChanFollows(feed, c)
    requires c'.open ==> c.open
    requires c'.joinedAt == c.joinedAt && c'.past == c.past && c'.later == c.later
    ensures ChanFollows(feed', c')
  {
  }

  lemma {:induction false} FoundKeepsHistory(h: Hub, c: Container, f: FeedId)
    requires FeedsInv(h) && HistoryInv(h) && ChansInv(h) && (c in h.feeds || f !in h.all)
    ensures var g := Found(h, c, f);
      && HistoryInv(g) && c in g.feeds && g.feeds[c] in g.all && !g.all[g.feeds[c]].ended
      && forall x :: x in g.chans ==> g.chans[x].feed in g.all
  {
    FoundIsThere(h, c, f);
    hide ChanCarries, ChanFollows, IsSubsequence, FeedsInv, Mapped, ViewersInv;
  }

  lemma {:induction false} JoinKeepsRecent(g: Hub, f: FeedId, ch: ChanId)
    requires RecentInv(g) && f in g.all
    ensures RecentInv(Join(g, f, ch))
  {
    hide Newest, Disarmed;
  }

  lemma {:induction false} JoinKeepsCarries(g: Hub, f: FeedId, ch: ChanId)
    requires RecentInv(g) && CarriesInv(g) && f in g.all && ch !in g.chans
    ensures CarriesInv(Join(g, f, ch))
  {
    NewChanFits(g.all[f], f);
    hide ChanCarries, Newest, Disarmed;
  }

  lemma {:induction false} JoinKeepsFollows(g: Hub, f: FeedId, ch: ChanId)
    requires RecentInv(g) && FollowsInv(g) && f in g.all && ch !in g.chans
    requires forall x :: x in g.chans ==> g.chans[x].feed in g.all
    ensures FollowsInv(Join(g, f, ch))
  {
    NewChanFits(g.all[f], f);
    hide ChanCarries, ChanFollows, Newest, Disarmed;
    var j := Join(g, f, ch);
    var joined := j.chans[ch];
    SameFollows(g.all[f], j.all[f], joined, joined);
    forall x | x in g.chans
      ensures ChanFollows(j.all[g.chans[x].feed], g.chans[x])
    {
      SameFollows(g.all[g.chans[x].feed], j.all[g.chans[x].feed], g.chans[x], g.chans[x]);
    }
  }

  lemma {:induction false} JoinKeepsHistory(g: Hub, f: FeedId, ch: ChanId)
    requires HistoryInv(g) && f in g.all && !g.all[f].ended && ch !in g.chans
    requires forall x :: x in g.chans ==> g.chans[x].feed in g.all
    ensures HistoryInv(Join(g, f, ch)) && Join(g, f, ch).crashed == g.crashed
  {
    JoinKeepsRecent(g, f, ch);
    JoinKeepsCarries(g, f, ch);
    JoinKeepsFollows(g, f, ch);
    NewChanFits(g.all[f], f);
    hide CarriesInv, FollowsInv, Newest, Disarmed;
  }

  /** The first three invariants look at nothing but the places feeds, viewers and timers are in. */
  ghost predicate SamePlaces(h: Hub, g: Hub) {
    && g.feeds == h.feeds && g.timers == h.timers && g.all.Keys == h.all.Keys && g.chans.Keys == h.chans.Keys
    && (forall f :: f in h.all ==> g.all[f] == h.all[f].(recent := g.all[f].recent, history := g.all[f].history))
    && (forall ch :: ch in h.chans ==> g.chans[ch].open == h.chans[ch].open && g.chans[ch].feed == h.chans[ch].feed)
  }

  lemma {:induction false} SamePlacesMapped(h: Hub, g: Hub)
    requires SamePlaces(h, g)
    ensures forall e :: Mapped(g, e) <==> Mapped(h, e)
  {
  }

  lemma {:induction false} SamePlacesKeepFeeds(h: Hub, g: Hub)
    requires SamePlaces(h, g) && FeedsInv(h) && TimersInv(h)
    ensures FeedsInv(g) && TimersInv(g)
  {
    SamePlacesMapped(h, g);
    hide Mapped;
  }

  lemma {:induction false} SamePlacesKeepChans(h: Hub, g: Hub)
    requires SamePlaces(h, g) && ChansInv(h)
    ensures ChansInv(g)
  {
  }

  lemma {:induction false} SamePlacesKeep(h: Hub, g: Hub)
    requires SamePlaces(h, g) && FeedsInv(h) && TimersInv(h) && ChansInv(h)
    ensures FeedsInv(g) && TimersInv(g) && ChansInv(g)
  {
    hide SamePlaces, FeedsInv, TimersInv, ChansInv;
    SamePlacesKeepFeeds(h, g);
    SamePlacesKeepChans(h, g);
  }

  lemma {:induction false} ArrivedPlaces(h: Hub, f: FeedId, m: Sample)
    requires ChansInv(h) && f in h.all
    ensures SamePlaces(h, Arrived(h, f, m)) && Arrived(h, f, m).crashed == h.crashed
  {
    OfferStays(h.chans, h.all[f].subs, m);
    assert AllOpen(h.chans, h.all[f].subs);
    hide Offered, Newest, AllOpen, ViewersInv, OpenInv;
  }

  lemma {:induction false} ArriveKeepsPlaces(h: Hub, f: FeedId, m: Sample)
    requires FeedsInv(h) && TimersInv(h) && ChansInv(h) && f in h.all
    ensures var g := Arrived(h, f, m);
      FeedsInv(g) && TimersInv(g) && ChansInv(g) && g.crashed == h.crashed
  {
    hide FeedsInv, TimersInv, ChansInv, SamePlaces, Arrived;
    ArrivedPlaces(h, f, m);
    SamePlacesKeep(h, Arrived(h, f, m));
  }

  lemma {:induction false} OfferStays(chans: map<ChanId, Chan>, subs: set<ChanId>, m: Sample)
    ensures Offered(chans, subs, m).Keys == chans.Keys
    ensures forall ch :: ch in chans ==>
      var c := Offered(chans, subs, m)[ch]; c.open == chans[ch].open && c.feed == chans[ch].feed
  {
  }

  lemma {:induction false} ArriveKeepsHistory(h: Hub, f: FeedId, m: Sample)
    requires ChansInv(h) && HistoryInv(h) && f in h.all
    ensures HistoryInv(Arrived(h, f, m))
  {
    hide IsSubsequence, ChanCarries, ChanFollows, Newest, Offer;
    var g := Arrived(h, f, m);
    NewestGrows(h.all[f].history, m);
    OfferStays(h.chans, h.all[f].subs, m);
    forall ch | ch in g.chans
      ensures ChanCarries(g.chans[ch]) && ChanFollows(g.all[g.chans[ch].feed], g.chans[ch])
    {
      var c := h.chans[ch];
      if ch in h.all[f].subs {
        OfferCarries(c, m);
        OfferFollows(h.all[f], c, m);
      } else if c.feed == f {
        ClosedFollows(h.all[f], c, m);
      }
    }
  }

  lemma {:induction false} ClosedStays(chans: map<ChanId, Chan>, subs: set<ChanId>)
    ensures Closed(chans, subs).Keys == chans.Keys
    ensures forall ch :: ch in chans ==> Closed(chans, subs)[ch] == chans[ch].(open := chans[ch].open && ch !in subs)
  {
  }

  lemma {:induction false} ClosedCarries(c: Chan, open: bool)
    requires ChanCarries(c)
    ensures ChanCarries(c.(open := open))
  {
    hide IsSubsequence;
  }

  lemma {:induction false} CloseKeepsCarries(h: Hub, g: Hub, subs: set<ChanId>)
    requires CarriesInv(h) && g.chans == Closed(h.chans, subs)
    ensures CarriesInv(g)
  {
    ClosedStays(h.chans, subs);
    hide ChanCarries, Closed;
    forall ch | ch in g.chans
      ensures ChanCarries(g.chans[ch])
    {
      ClosedCarries(h.chans[ch], g.chans[ch].open);
    }
  }

  lemma {:induction false} CloseKeepsFollows(h: Hub, g: Hub, subs: set<ChanId>)
    requires OpenInv(h) && FollowsInv(h) && g.chans == Closed(h.chans, subs) && g.all.Keys == h.all.Keys
    requires forall f :: f in h.all ==> g.all[f].history == h.all[f].history
    ensures FollowsInv(g)
  {
    ClosedStays(h.chans, subs);
    hide ChanFollows, Closed;
    forall ch | ch in g.chans
      ensures ChanFollows(g.all[g.chans[ch].feed], g.chans[ch])
    {
      SameFollows(h.all[h.chans[ch].feed], g.all[h.chans[ch].feed], h.chans[ch], g.chans[ch]);
    }
  }

  lemma {:induction false} CloseKeepsHistory(h: Hub, g: Hub, subs: set<ChanId>)
    requires ChansInv(h) && HistoryInv(h) && g.chans == Closed(h.chans, subs) && g.all.Keys == h.all.Keys
    requires forall f :: f in h.all ==> g.all[f].recent == h.all[f].recent && g.all[f].history == h.all[f].history
    ensures HistoryInv(g)
  {
    hide CarriesInv, FollowsInv, OpenInv, ViewersInv, Closed, Newest;
    CloseKeepsCarries(h, g, subs);
    CloseKeepsFollows(h, g, subs);
  }

  lemma {:induction false} EndKeepsFeeds(h: Hub, f: FeedId)
    requires FeedsInv(h) && f in h.all
    ensures FeedsInv(Ended(h, f))
    ensures forall e :: Mapped(Ended(h, f), e) <==> Mapped(h, e) && e != f
  {
    hide Closed;
  }

  lemma {:induction false} EndKeepsTimers(h: Hub, f: FeedId)
    requires FeedsInv(h) && TimersInv(h) && f in h.all
    ensures TimersInv(Ended(h, f))
  {
    EndKeepsFeeds(h, f);
    hide Closed, FeedsInv, Mapped;
  }

  lemma {:induction false} EndKeepsViewers(h: Hub, f: FeedId)
    requires ChansInv(h) && f in h.all
    ensures ViewersInv(Ended(h, f)) && Ended(h, f).crashed == h.crashed
  {
    ClosedStays(h.chans, h.all[f].subs);
    hide Closed;
  }

  lemma {:induction false} EndKeepsOpen(h: Hub, f: FeedId)
    requires ChansInv(h) && f in h.all
    ensures OpenInv(Ended(h, f))
  {
    ClosedStays(h.chans, h.all[f].subs);
    hide Closed, AllOpen;
  }

  lemma {:induction false} EndKeepsChans(h: Hub, f: FeedId)
    requires ChansInv(h) && f in h.all
    ensures ChansInv(Ended(h, f)) && Ended(h, f).crashed == h.crashed
  {
    EndKeepsViewers(h, f);
    EndKeepsOpen(h, f);
    hide Ended, ViewersInv, OpenInv;
  }

  lemma {:induction false} LeaveKeepsFeeds(h: Hub, f: FeedId, ch: ChanId, t: TimerId)
    requires FeedsInv(h) && f in h.all && ch in h.all[f].subs
    ensures FeedsInv(Left(h, f, ch, t))
    ensures forall e :: Mapped(Left(h, f, ch, t), e) <==> Mapped(h, e)
  {
    hide Closed;
  }

  lemma {:induction false} LeaveKeepsTimers(h: Hub, f: FeedId, ch: ChanId, t: TimerId)
    requires FeedsInv(h) && TimersInv(h) && f in h.all && ch in h.all[f].subs && t !in h.timers
    ensures TimersInv(Left(h, f, ch, t))
  {
    LeaveKeepsFeeds(h, f, ch, t);
    hide Closed, FeedsInv, Mapped;
  }

  lemma {:induction false} LeaveKeepsViewers(h: Hub, f: FeedId, ch: ChanId, t: TimerId)
    requires ChansInv(h) && f in h.all && ch in h.all[f].subs
    ensures ViewersInv(Left(h, f, ch, t)) && Left(h, f, ch, t).crashed == h.crashed
  {
    ClosedStays(h.chans, {ch});
    hide Closed;
  }

  lemma {:induction false} LeaveKeepsOpen(h: Hub, f: FeedId, ch: ChanId, t: TimerId)
    requires ChansInv(h) && f in h.all && ch in h.all[f].subs
    ensures OpenInv(Left(h, f, ch, t))
  {
    ClosedStays(h.chans, {ch});
    hide Closed, AllOpen;
  }

  lemma {:induction false} LeaveKeepsChans(h: Hub, f: FeedId, ch: ChanId, t: TimerId)
    requires ChansInv(h) && f in h.all && ch in h.all[f].subs
    ensures ChansInv(Left(h, f, ch, t)) && Left(h, f, ch, t).crashed == h.crashed
  {
    LeaveKeepsViewers(h, f, ch, t);
    LeaveKeepsOpen(h, f, ch, t);
    hide Left, ViewersInv, OpenInv;
  }

  lemma {:induction false} ExpireKeepsFeeds(h: Hub, t: TimerId)
    requires FeedsInv(h) && TimersInv(h) && t in h.timers
    ensures FeedsInv(Expired(h, t))
    ensures forall e :: Mapped(Expired(h, t), e) <==> Mapped(h, e) && !(e == h.timers[t].feed && h.all[e].idle == Some(t))
  {
  }

  lemma {:induction false} ExpireKeepsTimers(h: Hub, t: TimerId)
    requires FeedsInv(h) && TimersInv(h) && t in h.timers
    ensures TimersInv(Expired(h, t))
  {
    ExpireKeepsFeeds(h, t);
    hide FeedsInv;
  }

  lemma {:induction false} ExpireKeepsChans(h: Hub, t: TimerId)
    requires ChansInv(h) && t in h.timers
    ensures ChansInv(Expired(h, t)) && Expired(h, t).crashed == h.crashed
  {
  }

  lemma {:induction false} ExpireKeepsHistory(h: Hub, t: TimerId)
    requires OpenInv(h) && HistoryInv(h) && t in h.timers
    ensures HistoryInv(Expired(h, t))
  {
    hide ChanCarries, ChanFollows, Newest;
    var g := Expired(h, t);
    forall ch | ch in g.chans
      ensures ChanFollows(g.all[g.chans[ch].feed], g.chans[ch])
    {
      SameFollows(h.all[h.chans[ch].feed], g.all[h.chans[ch].feed], h.chans[ch], h.chans[ch]);
    }
  }

  lemma {:induction false} ExpireKeepsRest(h: Hub, t: TimerId)
    requires ChansInv(h) && HistoryInv(h) && t in h.timers
    ensures ChansInv(Expired(h, t)) && HistoryInv(Expired(h, t)) && Expired(h, t).crashed == h.crashed
  {
    ExpireKeepsChans(h, t);
    ExpireKeepsHistory(h, t);
    hide Expired, HistoryInv, ViewersInv;
  }

  lemma {:induction false} FireKeepsFeeds(h: Hub, t: TimerId)
    requires FeedsInv(h) && TimersInv(h)
    ensures FeedsInv(Next(h, Fire(t))) && TimersInv(Next(h, Fire(t)))
  {
    var g := Next(h, Fire(t));
    assert forall e :: Mapped(g, e) <==> Mapped(h, e);
    hide Mapped;
  }

  lemma {:induction false} FireKeeps(h: Hub, t: TimerId)
    requires Inv(h)
    ensures Inv(Next(h, Fire(t)))
  {
    hide HistoryInv, FeedsInv, TimersInv;
    FireKeepsFeeds(h, t);
    SameHistory(h, Next(h, Fire(t)));
  }

  lemma {:induction false} SameHistory(h: Hub, g: Hub)
    requires h.all == g.all && h.chans == g.chans
    ensures HistoryInv(g) == HistoryInv(h)
  {
  }

  lemma {:induction false} ReadKeepsHistory(h: Hub, ch: ChanId)
    requires HistoryInv(h) && ch in h.chans && h.chans[ch].buffer != []
    ensures HistoryInv(Next(h, Read(ch)))
  {
    hide ChanCarries, ChanFollows, Newest, IsSubsequence;
    ReadCarries(h.chans[ch]);
    var g := Next(h, Read(ch));
    forall x | x in g.chans && g.chans[x].feed in g.all
      ensures ChanFollows(g.all[g.chans[x].feed], g.chans[x])
    {
      SameFollows(h.all[h.chans[x].feed], h.all[h.chans[x].feed], h.chans[x], g.chans[x]);
    }
  }

  lemma {:induction false} ReadKeeps(h: Hub, ch: ChanId)
    requires Inv(h) && ch in h.chans && h.chans[ch].buffer != []
    ensures Inv(Next(h, Read(ch)))
  {
    hide HistoryInv, FeedsInv, TimersInv, ChansInv;
    ReadKeepsHistory(h, ch);
    SamePlacesKeep(h, Next(h, Read(ch)));
  }

  lemma {:induction false} NextKeeps(h: Hub, step: Step)
    requires Inv(h)
    ensures Inv(Next(h, step))
  {
    hide FeedsInv, TimersInv, ChansInv, HistoryInv, Join, Found, Arrived, Ended, Left, Expired;
    if Next(h, step) != h {
      match step {
        case Watch(c, _, f, ch) =>
          JoinKeepsFeeds(h, c, f, ch);
          JoinKeepsTimers(h, c, f, ch);
          FoundKeepsChans(h, c, f);
          FoundKeepsRest(h, c, f);
          JoinKeepsChans(Found(h, c, f), Found(h, c, f).feeds[c], ch);
          FoundKeepsHistory(h, c, f);
          JoinKeepsHistory(Found(h, c, f), Found(h, c, f).feeds[c], ch);
        case Arrive(f, m) =>
          ArriveKeepsPlaces(h, f, m);
          ArriveKeepsHistory(h, f, m);
        case EndFeed(f) =>
          EndKeepsFeeds(h, f);
          EndKeepsTimers(h, f);
          EndKeepsChans(h, f);
          EndKeepsHistory(h, f);
        case Leave(ch, t) =>
          LeaveKeepsFeeds(h, h.chans[ch].feed, ch, t);
          LeaveKeepsTimers(h, h.chans[ch].feed, ch, t);
          LeaveKeepsChans(h, h.chans[ch].feed, ch, t);
          LeaveKeepsHistory(h, h.chans[ch].feed, ch, t);
        case Fire(t) => FireKeeps(h, t);
        case Expire(t) =>
          ExpireKeepsFeeds(h, t);
          ExpireKeepsTimers(h, t);
          ExpireKeepsRest(h, t);
        case Read(ch) => ReadKeeps(h, ch);
      }
    }
  }

  lemma {:induction false} FoundKeepsRest(h: Hub, c: Container, f: FeedId)
    ensures Found(h, c, f).chans == h.chans && Found(h, c, f).crashed == h.crashed
  {
  }

  lemma {:induction false} EndKeepsHistory(h: Hub, f: FeedId)
    requires ChansInv(h) && HistoryInv(h) && f in h.all
    ensures HistoryInv(Ended(h, f))
  {
    CloseKeepsHistory(h, Ended(h, f), h.all[f].subs);
  }

  lemma {:induction false} LeaveKeepsHistory(h: Hub, f: FeedId, ch: ChanId, t: TimerId)
    requires ChansInv(h) && HistoryInv(h) && f in h.all
    ensures HistoryInv(Left(h, f, ch, t))
  {
    CloseKeepsHistory(h, Left(h, f, ch, t), {ch});
  }

  lemma {:induction false} RunInv(steps: seq<Step>)
    ensures Inv(Run(steps))
  {
    hide Next;
    if steps != [] {
      hide Inv;
      RunInv(steps[..|steps| - 1]);
      NextKeeps(Run(steps[..|steps| - 1]), steps[|steps| - 1]);
    }
  }

  // ---- What every interleaving guarantees --------------------------------------------------------------

  /** In every run: no channel is closed twice or sent to once closed, and no send blocks under the lock;
      a viewer's channel is open exactly while its feed lists it; a feed in the map runs for a viewer or
      for its own timer, which is still to run; a feed outside the map has been stopped. */
  lemma {:induction false} NothingLeaks(steps: seq<Step>)
    ensures var h := Run(steps);
      && !h.crashed
      && (forall ch :: ch in h.chans ==>
            h.chans[ch].feed in h.all && (h.chans[ch].open <==> ch in h.all[h.chans[ch].feed].subs))
      && (forall f :: f in h.all && !Mapped(h, f) ==> h.all[f].stopped)
      && (forall f :: Mapped(h, f) && h.all[f].subs == {} ==>
            && h.all[f].idle.Some? && h.all[f].idle.value in h.timers
            && h.timers[h.all[f].idle.value].feed == f && h.timers[h.all[f].idle.value].phase != Gone)
  {
    RunInv(steps);
    hide Run;
  }

  /** So each container has at most one Docker stream that was not stopped. */
  lemma {:induction false} OneStreamPerContainer(steps: seq<Step>, f: FeedId, g: FeedId)
    requires f in Run(steps).all && g in Run(steps).all
    requires !Run(steps).all[f].stopped && !Run(steps).all[g].stopped
    requires Run(steps).all[f].container == Run(steps).all[g].container
    ensures f == g
  {
    RunInv(steps);
    hide Run;
  }

  /** A timer or a dying pump removes its own feed or none: every other feed keeps its place. */
  lemma {:induction false} NewerFeedsStay(steps: seq<Step>, step: Step, f: FeedId)
    requires Mapped(Run(steps), f)
    requires step.Expire? ==> step.t in Run(steps).timers && Run(steps).timers[step.t].feed != f
    requires step.EndFeed? ==> step.f != f
    ensures Mapped(Next(Run(steps), step), f)
  {
    RunInv(steps);
    var h := Run(steps);
    hide Run, HistoryInv, TimersInv;
  }

  /** A timer its feed no longer names. */
  ghost predicate Stale(h: Hub, t: TimerId) {
    t in h.timers && h.timers[t].feed in h.all && h.all[h.timers[t].feed].idle != Some(t)
  }

  lemma {:induction false} StaleTimersEndNothing(steps: seq<Step>, t: TimerId)
    requires t in Run(steps).timers && Run(steps).timers[t].feed in Run(steps).all
    requires Run(steps).all[Run(steps).timers[t].feed].idle != Some(t)
    ensures Next(Run(steps), Expire(t)).feeds == Run(steps).feeds && Next(Run(steps), Expire(t)).all == Run(steps).all
  {
    hide Run;
  }

  /** Timers are new when they are armed, so no feed names one again that it stopped naming. */
  lemma {:induction false} StaysStale(h: Hub, step: Step, t: TimerId)
    requires Stale(h, t)
    ensures Stale(Next(h, step), t) && Next(h, step).timers[t].feed == h.timers[t].feed
  {
    hide Offered, Closed, AllOpen, Newest, Without;
  }

  lemma {:induction false} WatchSupersedes(h: Hub, watch: Step, t: TimerId)
    requires watch.Watch? && watch.c in h.feeds && h.feeds[watch.c] in h.all && watch.ch !in h.chans
    requires t in h.timers && h.timers[t].feed == h.feeds[watch.c]
    ensures Stale(Next(h, watch), t)
  {
  }

  lemma {:induction false} StaleForGood(steps: seq<Step>, more: seq<Step>, t: TimerId)
    requires Stale(Run(steps), t)
    ensures Stale(Run(steps + more), t)
  {
    hide Next, Stale;
    if more == [] {
      assert steps + more == steps;
    } else {
      var rest := more[..|more| - 1];
      StaleForGood(steps, rest, t);
      assert (steps + more)[..|steps + more| - 1] == steps + rest;
      StaysStale(Run(steps + rest), more[|more| - 1], t);
    }
  }

  /** Once a viewer has come back to its feed, a timer that was armed before ends nothing, whatever happens
      after, whether it had gone off by then or not, and though later timers are armed for the same feed. */
  lemma {:induction false} SupersededTimersEndNothing(steps: seq<Step>, watch: Step, more: seq<Step>, t: TimerId)
    requires watch.Watch? && watch.c in Run(steps).feeds && watch.ch !in Run(steps).chans
    requires t in Run(steps).timers && Run(steps).timers[t].feed == Run(steps).feeds[watch.c]
    ensures var h := Run(steps + [watch] + more);
      Next(h, Expire(t)).feeds == h.feeds && Next(h, Expire(t)).all == h.all
  {
    hide Next, HistoryInv, TimersInv, ChansInv;
    RunInv(steps);
    assert (steps + [watch])[..|steps|] == steps;
    WatchSupersedes(Run(steps), watch, t);
    StaleForGood(steps + [watch], more, t);
    StaleTimersEndNothing(steps + [watch] + more, t);
  }

  /** In every run a viewer has, read or still to read, an ordered part of the last minute before it joined
      followed by the samples after; what is missing was counted as lost, and none is lost unless the
      viewer left BUFFER samples unread (see OfferCarries). */
  lemma {:induction false} ViewersSeeTheHistory(steps: seq<Step>, ch: ChanId)
    requires ch in Run(steps).chans && Run(steps).chans[ch].feed in Run(steps).all
    ensures var (c, history) := (Run(steps).chans[ch], Run(steps).all[Run(steps).chans[ch].feed].history);
      && c.joinedAt <= |history|
      && c.past == Newest(history[..c.joinedAt]) && c.later <= history[c.joinedAt..]
      && (c.open ==> c.later == history[c.joinedAt..])
      && IsSubsequence(c.read + c.buffer, c.past + c.later)
      && |c.read| + |c.buffer| + c.lost == |c.past| + |c.later|
      && (c.lost == 0 ==> c.read + c.buffer == c.past + c.later)
  {
    RunInv(steps);
    var c := Run(steps).chans[ch];
    hide Run;
    if c.lost == 0 {
      FullSubsequence(c.read + c.buffer, c.past + c.later);
    }
  }

  /** In every run a viewer loses a sample only when one arrives at its own feed while BUFFER are unread. */
  lemma {:induction false} LostOnlyWhenFull(steps: seq<Step>, step: Step, ch: ChanId)
    requires ch in Run(steps).chans && ch in Run(steps + [step]).chans
    requires Run(steps + [step]).chans[ch].lost > Run(steps).chans[ch].lost
    ensures var c := Run(steps).chans[ch];
      step.Arrive? && step.f == c.feed && c.open && |c.buffer| == BUFFER
  {
    RunInv(steps);
    assert (steps + [step])[..|steps|] == steps;
    hide Run, FeedsInv, TimersInv, RecentInv, FollowsInv;
    LossesAreOffers(Run(steps), step, ch);
  }

  lemma {:induction false} LossesAreOffers(h: Hub, step: Step, ch: ChanId)
    requires ChansInv(h) && CarriesInv(h)
    requires ch in h.chans && ch in Next(h, step).chans && Next(h, step).chans[ch].lost > h.chans[ch].lost
    ensures step.Arrive? && step.f == h.chans[ch].feed && h.chans[ch].open && |h.chans[ch].buffer| == BUFFER
  {
    hide IsSubsequence, Newest, Disarmed, AllOpen, Without, Mapped;
  }

  lemma {:induction false} FullSubsequence(xs: seq<Sample>, ys: seq<Sample>)
    requires IsSubsequence(xs, ys)
    ensures |xs| <= |ys| && (|xs| == |ys| ==> xs == ys)
  {
    if xs != [] {
      if xs[|xs| - 1] == ys[|ys| - 1] && IsSubsequence(xs[..|xs| - 1], ys[..|ys| - 1]) {
        FullSubsequence(xs[..|xs| - 1], ys[..|ys| - 1]);
        assert xs == xs[..|xs| - 1] + [xs[|xs| - 1]] && ys == ys[..|ys| - 1] + [ys[|ys| - 1]];
      } else {
        FullSubsequence(xs, ys[..|ys| - 1]);
      }
    }
  }

  /** recent is always the last min(60, n) of the n samples, so the replay fits the channel. */
  lemma {:induction false} RecentIsTheLastMinute(steps: seq<Step>, f: FeedId)
    requires f in Run(steps).all
    ensures var feed := Run(steps).all[f];
      && |feed.recent| == (if |feed.history| < HISTORY then |feed.history| else HISTORY)
      && feed.recent == feed.history[|feed.history| - |feed.recent|..]
      && |feed.recent| <= BUFFER
  {
    RunInv(steps);
    hide Run;
  }

  // ---- What each step brings about -----------------------------------------------------------------------

  lemma {:induction false} RunSnoc(steps: seq<Step>, step: Step)
    ensures Run(steps + [step]) == Next(Run(steps), step) && Inv(Run(steps))
  {
    hide Next, Inv;
    assert (steps + [step])[..|steps|] == steps;
    RunInv(steps);
  }

  /** The last minute of a history. */
  function Minute(history: seq<Sample>): seq<Sample> {
    if |history| > 60 then history[|history| - 60..] else history
  }

  /** A viewer that joins, of a feed that runs or of a stream opened for it, finds the last minute in its
      channel, nothing of it read or lost; the others are not disturbed; and the linger timer is off. */
  lemma {:induction false} WatchReplays(steps: seq<Step>, c: Container, opens: bool, f: FeedId, ch: ChanId)
    requires ch !in Run(steps).chans && f !in Run(steps).all
    ensures var (h, g) := (Run(steps), Run(steps + [Watch(c, opens, f, ch)]));
      var runs := c in h.feeds;
      && (ch in g.chans <==> runs || opens)
      && (runs || opens ==>
            && c in g.feeds && (if runs then g.feeds[c] == h.feeds[c] else g.feeds[c] == f)
            && g.feeds[c] in g.all && (runs ==> g.feeds[c] in h.all)
            && var (joined, feed) := (g.chans[ch], g.all[g.feeds[c]]);
            && joined.feed == g.feeds[c] && joined.open && joined.lost == 0 && joined.read == []
            && joined.buffer == Minute(feed.history)
            && feed.history == (if runs then h.all[g.feeds[c]].history else [])
            && feed.subs == (if runs then h.all[g.feeds[c]].subs else {}) + {ch} && feed.idle == None
            && g.chans == h.chans[ch := joined])
  {
    RunSnoc(steps, Watch(c, opens, f, ch));
    hide Run, TimersInv, ChansInv, CarriesInv, FollowsInv;
  }

  /** The timer that a joining viewer finds armed is stopped. */
  lemma {:induction false} WatchStopsTheTimer(steps: seq<Step>, c: Container, opens: bool, f: FeedId, ch: ChanId, t: TimerId)
    requires c in Run(steps).feeds && ch !in Run(steps).chans && Run(steps).feeds[c] in Run(steps).all
    requires t in Run(steps).timers && Run(steps).all[Run(steps).feeds[c]].idle == Some(t)
    ensures var g := Run(steps + [Watch(c, opens, f, ch)]);
      t in g.timers && (Run(steps).timers[t].phase == Armed ==> g.timers[t].phase == Gone)
  {
    RunSnoc(steps, Watch(c, opens, f, ch));
    hide Run, Inv;
  }

  /** A sample goes into the history, and to every viewer of its feed that has fewer than 120 unread. */
  lemma {:induction false} ArrivalReachesViewers(steps: seq<Step>, f: FeedId, m: Sample)
    requires f in Run(steps).all && !Run(steps).all[f].ended
    ensures var (h, g) := (Run(steps), Run(steps + [Arrive(f, m)]));
      && g.feeds == h.feeds && g.chans.Keys == h.chans.Keys
      && f in g.all && g.all[f].history == h.all[f].history + [m] && g.all[f].recent == Minute(g.all[f].history)
      && forall ch :: ch in h.chans ==>
           var (before, after) := (h.chans[ch], g.chans[ch]);
           if before.feed != f || !before.open then after == before
           else if |before.buffer| < 120 then after.buffer == before.buffer + [m] && after.lost == before.lost
           else after.buffer == before.buffer && after.lost == before.lost + 1
  {
    RunSnoc(steps, Arrive(f, m));
    var h := Run(steps);
    hide Run, TimersInv, CarriesInv, FollowsInv, AllOpen;
    NewestGrows(h.all[f].history, m);
    hide Newest;
    assert h.all[f].recent == Newest(h.all[f].history);
    MinuteIsNewest(h.all[f].history + [m]);
  }

  lemma {:induction false} MinuteIsNewest(history: seq<Sample>)
    ensures Minute(history) == Newest(history)
  {
  }

  /** When a stream ends, its viewers are closed and no others, it is stopped, and the map forgets it. */
  lemma {:induction false} EndClosesItsViewers(steps: seq<Step>, f: FeedId)
    requires f in Run(steps).all && !Run(steps).all[f].ended
    ensures var (h, g) := (Run(steps), Run(steps + [EndFeed(f)]));
      && f in g.all && g.all[f].ended && g.all[f].stopped && !Mapped(g, f) && g.chans.Keys == h.chans.Keys
      && forall ch :: ch in h.chans ==> g.chans[ch] == h.chans[ch].(open := h.chans[ch].open && h.chans[ch].feed != f)
  {
    RunSnoc(steps, EndFeed(f));
    hide Run, TimersInv, HistoryInv, AllOpen;
  }

  /** A viewer that leaves is closed alone; behind the last one the linger timer is armed. */
  lemma {:induction false} LeaveClosesOne(steps: seq<Step>, ch: ChanId, t: TimerId)
    requires ch in Run(steps).chans && Run(steps).chans[ch].open && t !in Run(steps).timers
    ensures var (h, g) := (Run(steps), Run(steps + [Leave(ch, t)]));
      var f := h.chans[ch].feed;
      && g.feeds == h.feeds && g.chans == h.chans[ch := h.chans[ch].(open := false)]
      && f in h.all && f in g.all && g.all[f].subs == h.all[f].subs - {ch}
      && (g.all[f].subs == {} ==> g.all[f].idle == Some(t) && g.timers == h.timers[t := Timer(f, Armed)])
      && (g.all[f].subs != {} ==> g.timers == h.timers)
  {
    RunSnoc(steps, Leave(ch, t));
    hide Run, TimersInv, HistoryInv, AllOpen;
  }

  /** A linger timer that goes off while its feed still names it ends the stream; until it does, nothing
      but a viewer stops it. */
  lemma {:induction false} TimersEndTheirStreams(steps: seq<Step>, t: TimerId)
    requires t in Run(steps).timers && Run(steps).timers[t].phase != Gone
    requires Mapped(Run(steps), Run(steps).timers[t].feed) && Run(steps).all[Run(steps).timers[t].feed].idle == Some(t)
    ensures var g := Run(steps + [Fire(t)] + [Expire(t)]);
      var f := Run(steps).timers[t].feed;
      f in g.all && g.all[f].stopped && !Mapped(g, f)
  {
    RunSnoc(steps, Fire(t));
    RunSnoc(steps + [Fire(t)], Expire(t));
    hide Run, Inv;
  }

  /** Reading takes the oldest unread sample. */
  lemma {:induction false} ReadTakesTheOldest(steps: seq<Step>, ch: ChanId)
    requires ch in Run(steps).chans && Run(steps).chans[ch].buffer != []
    ensures var (h, g) := (Run(steps), Run(steps + [Read(ch)]));
      && ch in g.chans && g.chans[ch].read == h.chans[ch].read + [h.chans[ch].buffer[0]]
      && g.chans[ch].buffer == h.chans[ch].buffer[1..]
  {
    RunSnoc(steps, Read(ch));
    hide Run, Inv;
  }

  lemma {:induction false} NoneOffered(chans: map<ChanId, Chan>, m: Sample)
    ensures chans == Offered(chans, {}, m) && AllOpen(chans, {})
  {
  }

  lemma {:induction false} OneMoreOffered(chans: map<ChanId, Chan>, done: set<ChanId>, ch: ChanId, m: Sample)
    requires ch in chans && ch !in done
    ensures var now := Offered(chans, done, m);
      && ch in now && now[ch].open == chans[ch].open
      && Offered(chans, done + {ch}, m) == now[ch := Offer(now[ch], m)]
    ensures AllOpen(chans, done + {ch}) == (AllOpen(chans, done) && chans[ch].open)
  {
    hide Offer;
  }

  lemma {:induction false} NoneClosed(chans: map<ChanId, Chan>)
    ensures chans == Closed(chans, {}) && AllOpen(chans, {})
  {
  }

  lemma {:induction false} OneMoreClosed(chans: map<ChanId, Chan>, done: set<ChanId>, ch: ChanId)
    requires ch in chans && ch !in done
    ensures var now := Closed(chans, done);
      && ch in now && now[ch] == chans[ch]
      && Closed(chans, done + {ch}) == now[ch := now[ch].(open := false)]
    ensures AllOpen(chans, done + {ch}) == (AllOpen(chans, done) && chans[ch].open)
  {
  }

  // ---- The critical sections as the source writes them -------------------------------------------------

  class Service {
    var feeds: map<Container, FeedId>
    var all: map<FeedId, Feed>
    var chans: map<ChanId, Chan>
    var timers: map<TimerId, Timer>
    ghost var crashed: bool

    ghost function Abs(): Hub
      reads this
    {
      Hub(feeds, all, chans, timers, crashed)
    }

    method WatchContainer(c: Container, opens: bool, f: FeedId, ch: ChanId) returns (ok: bool)
      requires Inv(Abs()) && f !in all && ch !in chans
      modifies this
      ensures Inv(Abs()) && Abs() == Next(old(Abs()), Watch(c, opens, f, ch))
      ensures ok <==> c in old(feeds) || opens
    {
      hide TimersInv, ChansInv, HistoryInv;
      NextKeeps(Abs(), Watch(c, opens, f, ch));
      if c !in feeds {
        if !opens {
          return false;
        }
        all, feeds := all[f := NewFeed(c)], feeds[c := f];
      }
      var id := feeds[c];
      var feed := all[id];
      if feed.idle.Some? {
        if feed.idle.value in timers && timers[feed.idle.value].phase == Armed {
          timers := timers[feed.idle.value := timers[feed.idle.value].(phase := Gone)];
        }
        feed := feed.(idle := None);
      }
      crashed := crashed || feed.ended || |feed.recent| > BUFFER;
      chans := chans[ch := Chan(id, true, feed.recent, [], 0, |feed.history|, feed.recent, [])];
      all := all[id := feed.(subs := feed.subs + {ch})];
      return true;
    }

    /** Offers the sample to each viewer in turn, which must still be open. */
    method OfferAll(subs: set<ChanId>, m: Sample)
      requires subs <= chans.Keys
      modifies this`chans, this`crashed
      ensures chans == Offered(old(chans), subs, m)
      ensures crashed == (old(crashed) || !AllOpen(old(chans), subs))
    {
      hide Offer, Offered, AllOpen;
      var done, rest := {}, subs;
      NoneOffered(chans, m);
      while rest != {}
        invariant done + rest == subs && done * rest == {}
        invariant chans == Offered(old(chans), done, m)
        invariant crashed == (old(crashed) || !AllOpen(old(chans), done))
        decreases |rest|
      {
        var ch :| ch in rest;
        OneMoreOffered(old(chans), done, ch, m);
        crashed := crashed || !chans[ch].open;
        chans := chans[ch := Offer(chans[ch], m)];
        done, rest := done + {ch}, rest - {ch};
      }
      assert done == subs;
    }

    method CloseAll(subs: set<ChanId>)
      requires subs <= chans.Keys
      modifies this`chans, this`crashed
      ensures chans == Closed(old(chans), subs)
      ensures crashed == (old(crashed) || !AllOpen(old(chans), subs))
    {
      hide Closed, AllOpen;
      var done, rest := {}, subs;
      NoneClosed(chans);
      while rest != {}
        invariant done + rest == subs && done * rest == {}
        invariant chans == Closed(old(chans), done)
        invariant crashed == (old(crashed) || !AllOpen(old(chans), done))
        decreases |rest|
      {
        var ch :| ch in rest;
        OneMoreClosed(old(chans), done, ch);
        crashed := crashed || !chans[ch].open;
        chans := chans[ch := chans[ch].(open := false)];
        done, rest := done + {ch}, rest - {ch};
      }
      assert done == subs;
    }

    /** One round of the pump. */
    method PumpSample(f: FeedId, m: Sample)
      requires Inv(Abs()) && f in all && !all[f].ended
      modifies this
      ensures Inv(Abs()) && Abs() == Next(old(Abs()), Arrive(f, m))
    {
      hide FeedsInv, TimersInv, HistoryInv, Offered, AllOpen;
      NextKeeps(Abs(), Arrive(f, m));
      OfferAll(all[f].subs, m);
      all := all[f := all[f].(recent := Newest(all[f].recent + [m]), history := all[f].history + [m])];
    }

    /** The end of the pump: the feed leaves the map if it is still there, and every viewer is closed. */
    method PumpEnd(f: FeedId)
      requires Inv(Abs()) && f in all && !all[f].ended
      modifies this
      ensures Inv(Abs()) && Abs() == Next(old(Abs()), EndFeed(f))
    {
      hide FeedsInv, TimersInv, HistoryInv, Closed, AllOpen;
      NextKeeps(Abs(), EndFeed(f));
      if all[f].container in feeds && feeds[all[f].container] == f {
        feeds := feeds - {all[f].container};
      }
      CloseAll(all[f].subs);
      all := all[f := all[f].(subs := {}, ended := true, stopped := true)];
    }

    method LeaveChannel(ch: ChanId, t: TimerId)
      requires Inv(Abs()) && ch in chans && t !in timers
      modifies this
      ensures Inv(Abs()) && Abs() == Next(old(Abs()), Leave(ch, t))
    {
      hide FeedsInv, TimersInv, HistoryInv, Closed, AllOpen;
      NextKeeps(Abs(), Leave(ch, t));
      var f := chans[ch].feed;
      var feed := all[f];
      if ch !in feed.subs {
        return;
      }
      var rest := feed.subs - {ch};
      CloseAll({ch});
      if rest == {} {
        timers := timers[t := Timer(f, Armed)];
        feed := feed.(idle := Some(t));
      }
      all := all[f := feed.(subs := rest)];
    }

    /** The body of a linger timer that went off. */
    method ExpireTimer(t: TimerId)
      requires Inv(Abs()) && t in timers && timers[t].phase == Fired && timers[t].feed in all
      modifies this
      ensures Inv(Abs()) && Abs() == Next(old(Abs()), Expire(t))
    {
      hide FeedsInv, TimersInv, ChansInv, HistoryInv;
      NextKeeps(Abs(), Expire(t));
      var f := timers[t].feed;
      timers := timers[t := Timer(f, Gone)];
      if all[f].idle == Some(t) && all[f].container in feeds && feeds[all[f].container] == f {
        feeds := feeds - {all[f].container};
        all := all[f := all[f].(stopped := true)];
      }
    }
  }
}

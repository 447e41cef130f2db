/**
 * The reverse proxy (registry.go): a map of sites merges what the runtime, the routes and the locks of a
 * task say; a request goes to its longest route or to the container; and redirects of what answers there
 * are moved under the public path. Paths are decoded; a name's case is folded by the parameter lower.
 */
module Proxy {

  import opened Wrappers

  // ---- Paths ---------------------------------------------------------------------------------------------

  predicate NoSlash(s: string) { '/' !in s }

  /** A project or task as it stands in a path. */
  predicate IsName(s: string) { s != "" && NoSlash(s) }

  function Cut(s: string): (n: nat)
    ensures n <= |s| && NoSlash(s[..n]) && (n < |s| ==> s[n] == '/')
  {
    if s == "" || s[0] == '/' then 0
    else
      assert s == [s[0]] + s[1..];
      1 + Cut(s[1..])
  }

  function Unslashed(path: string): string { if "/" <= path then path[1..] else path }

  /** The path without its first slash, split at the next two. */
  function Parts(path: string): (parts: seq<string>)
    ensures 1 <= |parts| <= 3 && NoSlash(parts[0]) && (|parts| > 1 ==> NoSlash(parts[1]))
  {
    var p := Unslashed(path);
    var i := Cut(p);
    if i == |p| then
      assert p[..i] == p;
      [p]
    else
      var rest := p[i + 1..];
      var j := Cut(rest);
      if j == |rest| then
        assert rest[..j] == rest;
        [p[..i], rest]
      else [p[..i], rest[..j], rest[j + 1..]]
  }

  /** The path of a project's task, and what follows the slash after it. */
  function PathOf(project: string, task: string, rest: seq<string>): string
    requires |rest| <= 1
  {
    "/" + project + "/" + task + if rest == [] then "" else "/" + rest[0]
  }

  lemma {:induction false} CutIs(s: string, n: nat)
    requires n <= |s| && NoSlash(s[..n]) && (n < |s| ==> s[n] == '/')
    ensures Cut(s) == n
  {
    var m := Cut(s);
    assert forall i :: 0 <= i < n ==> s[..n][i] == s[i];
    assert forall i :: 0 <= i < m ==> s[..m][i] == s[i];
  }

  lemma {:induction false} FirstPart(project: string, tail: string)
    requires NoSlash(project)
    ensures var p := project + "/" + tail;
      Cut(p) == |project| && p[..|project|] == project && p[|project| + 1..] == tail
  {
    hide Cut;
    var p := project + "/" + tail;
    assert p[..|project|] == project;
    CutIs(p, |project|);
  }

  lemma {:induction false} PartsAre(path: string)
    ensures var p := Unslashed(path);
      if Cut(p) == |p| then |Parts(path)| == 1
      else
        var tail := p[Cut(p) + 1..];
        Parts(path) == if Cut(tail) == |tail| then [p[..Cut(p)], tail]
                       else [p[..Cut(p)], tail[..Cut(tail)], tail[Cut(tail) + 1..]]
  {
    hide Cut, NoSlash;
  }

  lemma {:induction false} UnslashedIs(p: string)
    ensures Unslashed("/" + p) == p
  {
  }

  lemma {:induction false} PartsStep(project: string, tail: string)
    requires NoSlash(project)
    ensures var j := Cut(tail);
      Parts("/" + project + "/" + tail) == if j == |tail| then [project, tail] else [project, tail[..j], tail[j + 1..]]
  {
    hide *;
    var path := "/" + (project + "/" + tail);
    Fronted(project, tail);
    UnslashedIs(project + "/" + tail);
    FirstPart(project, tail);
    PartsAre(path);
  }

  lemma {:induction false} PartsOfPath(project: string, task: string, rest: seq<string>)
    requires NoSlash(project) && NoSlash(task) && |rest| <= 1
    ensures Parts(PathOf(project, task, rest)) == [project, task] + rest
  {
    hide Cut, Parts;
    if rest == [] {
      PartsStep(project, task);
      assert task[..|task|] == task;
      CutIs(task, |task|);
      assert PathOf(project, task, rest) == "/" + project + "/" + task;
    } else {
      var tail := task + "/" + rest[0];
      PartsStep(project, tail);
      FirstPart(task, rest[0]);
      Slashed(project, task, rest[0]);
      assert rest == [rest[0]];
    }
  }

  lemma {:induction false} Slashed(project: string, task: string, rest: string)
    ensures "/" + project + "/" + (task + "/" + rest) == "/" + project + "/" + task + ("/" + rest)
  {
    var front := "/" + project + "/";
    assert front + (task + ("/" + rest)) == front + task + ("/" + rest);
    assert task + "/" + rest == task + ("/" + rest);
  }

  lemma {:induction false} PathOfParts(path: string)
    requires |Parts(path)| >= 2
    ensures var parts := Parts(path);
      PathOf(parts[0], parts[1], parts[2..]) == "/" + Unslashed(path)
  {
    hide *;
    var p := Unslashed(path);
    PartsAre(path);
    CutJoins(p);
    Fronted(p[..Cut(p)], p[Cut(p) + 1..]);
    TailParts(p[..Cut(p)], p[Cut(p) + 1..]);
    PartsTail(Parts(path));
  }

  lemma {:induction false} PartsTail(parts: seq<string>)
    ensures |parts| == 2 ==> parts[2..] == []
    ensures |parts| == 3 ==> parts[2..] == [parts[2]]
  {
  }

  lemma {:induction false} TailParts(project: string, tail: string)
    ensures var j := Cut(tail);
      if j < |tail| then PathOf(project, tail[..j], [tail[j + 1..]]) == "/" + project + "/" + tail
      else PathOf(project, tail, []) == "/" + project + "/" + tail
  {
    hide Cut;
    var j := Cut(tail);
    if j < |tail| {
      CutJoins(tail);
      Slashed(project, tail[..j], tail[j + 1..]);
    }
  }

  lemma {:induction false} CutJoins(p: string)
    requires Cut(p) < |p|
    ensures p == p[..Cut(p)] + "/" + p[Cut(p) + 1..]
  {
    hide Cut;
  }

  lemma {:induction false} Fronted(project: string, tail: string)
    ensures "/" + (project + "/" + tail) == "/" + project + "/" + tail
  {
    assert "/" + (project + "/") == "/" + project + "/";
  }

  lemma {:induction false} NamesAreNames(project: string, task: string)
    requires IsName(project) && IsName(task)
    ensures project != "" && task != "" && NoSlash(project) && NoSlash(task)
  {
  }

  predicate Under(path: string, prefix: string) { path == prefix || prefix + "/" <= path }

  function TrimPrefix(s: string, prefix: string): string { if prefix <= s then s[|prefix|..] else s }

  /** The prefix itself, or the prefix, a slash and anything. */
  lemma {:induction false} UnderIs(path: string, prefix: string)
    ensures Under(path, prefix) <==> path == prefix || exists rest :: path == prefix + "/" + rest
  {
    if prefix + "/" <= path {
      assert path == prefix + "/" + path[|prefix| + 1..];
    }
  }

  // ---- Hops ----------------------------------------------------------------------------------------------

  datatype Target = Target(scheme: string, host: string, path: string)

  /** A way through the proxy: the container when path is empty, and otherwise one of the task's routes. */
  datatype Hop = Hop(project: string, task: string, path: string, target: Target) {

    function Public(): string { "/" + project + "/" + task + path }

    /** The upstream path a request is sent to. */
    function Rewrite(path: string): string { target.path + TrimPrefix(path, Public()) }
  }

  /** A Location header: its query and fragment stay as they are. */
  datatype Location = Location(scheme: string, host: string, path: string, suffix: string)

  function RewriteLocation(h: Hop, l: Location, lower: string -> string): Location {
    if l.host != "" && lower(l.host) != lower(h.target.host) then l
    else if !(h.target.path <= l.path) then l
    else
      var rest := l.path[|h.target.path|..];
      if !("/" <= l.path) || Under(l.path, h.Public()) || (rest != "" && rest[0] != '/') then l
      else Location("", "", h.Public() + rest, l.suffix)
  }

  /** The href of a page's base tag, which is none when the tag has no href. */
  function Base(h: Hop, href: Option<string>): (served: string) {
    var own := if href.Some? && "/" <= href.value && !("//" <= href.value) then href.value else "/";
    if Under(own, h.Public()) then own else h.Public() + own
  }

  /** A redirect that is moved comes back to the upstream path it named. */
  lemma {:induction false} RewritingUndoesItself(h: Hop, l: Location, lower: string -> string)
    ensures var moved := RewriteLocation(h, l, lower);
      moved != l ==> Under(moved.path, h.Public()) && moved.suffix == l.suffix && h.Rewrite(moved.path) == l.path
  {
    var moved := RewriteLocation(h, l, lower);
    if moved != l {
      var rest := l.path[|h.target.path|..];
      assert moved.path == h.Public() + rest;
      assert moved.path[|h.Public()|..] == rest;
      if rest != "" {
        assert moved.path == h.Public() + "/" + rest[1..];
      }
    }
  }

  /** A redirect is moved exactly when it is the target's own, an absolute path outside the public one, and at
      the target's path or below it; then it names the same place below the public path, without a host. */
  lemma {:induction false} OwnRedirectsMove(h: Hop, l: Location, lower: string -> string)
    ensures var (moved, public) := (RewriteLocation(h, l, lower), "/" + h.project + "/" + h.task + h.path);
      && (moved != l <==>
            && (l.host == "" || lower(l.host) == lower(h.target.host))
            && l.path != "" && l.path[0] == '/' && l.path != public && !(public + "/" <= l.path)
            && (l.path == h.target.path || h.target.path + "/" <= l.path))
      && (moved != l ==>
            && h.target.path <= l.path
            && moved == Location("", "", public + l.path[|h.target.path|..], l.suffix))
  {
    var moved := RewriteLocation(h, l, lower);
    if moved.path == l.path && h.target.path <= l.path {
      UnderRest(h.Public(), l.path[|h.target.path|..]);
    }
    if h.target.path <= l.path {
      var rest := l.path[|h.target.path|..];
      assert l.path == h.target.path + rest;
      if rest != "" && rest[0] == '/' {
        assert l.path == h.target.path + "/" + rest[1..];
      }
    }
  }

  lemma {:induction false} UnderRest(prefix: string, rest: string)
    ensures rest == "" || rest[0] == '/' ==> Under(prefix + rest, prefix)
  {
    if rest != "" && rest[0] == '/' {
      assert prefix + rest == prefix + "/" + rest[1..];
    }
  }

  /** The app's own base path is kept when it is public and moved when it is absolute; any other base is the
      task itself. */
  lemma {:induction false} BaseKeepsTheAppsOwn(h: Hop, href: Option<string>)
    requires IsName(h.project)
    ensures var public := "/" + h.project + "/" + h.task + h.path;
      if href.Some? && href.value != "" && href.value[0] == '/' && (|href.value| == 1 || href.value[1] != '/') then
        Base(h, href) == if href.value == public || public + "/" <= href.value then href.value else public + href.value
      else Base(h, href) == public + "/"
  {
    if href.Some? && href.value != "" {
      assert "/" <= href.value <==> href.value[0] == '/';
      assert "//" <= href.value <==> |href.value| > 1 && href.value[0] == '/' && href.value[1] == '/';
    }
  }

  /** Moving it again changes nothing, and a base tag read back is served as it is. */
  lemma {:induction false} MovingTwiceIsMovingOnce(h: Hop, l: Location, href: Option<string>, lower: string -> string)
    requires IsName(h.project)
    ensures RewriteLocation(h, RewriteLocation(h, l, lower), lower) == RewriteLocation(h, l, lower)
    ensures Under(Base(h, href), h.Public()) && Base(h, Some(Base(h, href))) == Base(h, href)
  {
    RewritingUndoesItself(h, l, lower);
    var own := if href.Some? && "/" <= href.value && !("//" <= href.value) then href.value else "/";
    assert h.Public() + own == h.Public() + "/" + own[1..];
    assert Base(h, href)[1] == h.project[0];
  }

  // ---- Routes --------------------------------------------------------------------------------------------

  ghost predicate Descending(hops: seq<Hop>) {
    forall i, j :: 0 <= i < j < |hops| ==> |hops[i].path| >= |hops[j].path|
  }

  /** No route of the site that leads there is longer. */
  ghost predicate IsLongest(hops: seq<Hop>, path: string, h: Hop) {
    h in hops && Under(path, h.Public()) && forall g :: g in hops && Under(path, g.Public()) ==> |g.path| <= |h.path|
  }

  /** The first match in any order by falling length is a longest one. */
  method FirstMatch(hops: seq<Hop>, path: string) returns (found: Option<Hop>)
    requires Descending(hops)
    ensures match found
      case Some(h) => IsLongest(hops, path, h)
      case None => forall h :: h in hops ==> !Under(path, h.Public())
  {
    for i := 0 to |hops|
      invariant forall j :: 0 <= j < i ==> !Under(path, hops[j].Public())
    {
      if Under(path, hops[i].Public()) {
        return Some(hops[i]);
      }
    }
    found := None;
  }

  ghost predicate DistinctBy<T(!new)>(s: seq<T>, path: T -> string) {
    forall i, j :: 0 <= i < j < |s| ==> path(s[i]) != path(s[j])
  }

  function HopPath(h: Hop): string { h.path }

  /** The routes of one task as they are stored: under its public path, at distinct paths. */
  ghost predicate RoutesOf(hops: seq<Hop>, project: string, task: string) {
    (forall h :: h in hops ==> h.project == project && h.task == task) && DistinctBy(hops, HopPath)
  }

  lemma {:induction false} UnderBoth(path: string, a: string, b: string)
    requires Under(path, a) && Under(path, b) && |a| == |b|
    ensures a == b
  {
    assert path[..|a|] == a && path[..|b|] == b;
  }

  /** Among routes at distinct paths the longest is the only one of its length, so the choice does not
      depend on how equally long ones are ordered. */
  lemma {:induction false} LongestIsUnique(hops: seq<Hop>, project: string, task: string, path: string, g: Hop, h: Hop)
    requires RoutesOf(hops, project, task) && IsLongest(hops, path, h)
    requires g in hops && Under(path, g.Public())
    ensures g == h || |g.path| < |h.path|
  {
    if |g.path| == |h.path| {
      var base := "/" + project + "/" + task;
      assert |g.Public()| == |h.Public()|;
      UnderBoth(path, g.Public(), h.Public());
      assert g.path == g.Public()[|base|..] && h.path == h.Public()[|base|..];
      assert g.path == h.path;
      var i :| 0 <= i < |hops| && hops[i] == g;
      var j :| 0 <= j < |hops| && hops[j] == h;
      assert HopPath(hops[i]) == HopPath(hops[j]);
    }
  }

  function Insert(sorted: seq<Hop>, h: Hop): seq<Hop> {
    if sorted == [] || |sorted[0].path| < |h.path| then [h] + sorted else [sorted[0]] + Insert(sorted[1..], h)
  }

  lemma {:induction false} InsertHas(sorted: seq<Hop>, h: Hop)
    ensures multiset(Insert(sorted, h)) == multiset(sorted) + multiset{h}
  {
    if sorted != [] && |sorted[0].path| >= |h.path| {
      InsertHas(sorted[1..], h);
      assert sorted == [sorted[0]] + sorted[1..];
    }
  }

  lemma {:induction false} InsertKeeps(sorted: seq<Hop>, h: Hop)
    requires Descending(sorted)
    ensures Descending(Insert(sorted, h)) && multiset(Insert(sorted, h)) == multiset(sorted) + multiset{h}
  {
    InsertHas(sorted, h);
    if sorted != [] && |sorted[0].path| >= |h.path| {
      InsertKeeps(sorted[1..], h);
      var inner := Insert(sorted[1..], h);
      forall g | g in inner ensures |g.path| <= |sorted[0].path| {
        assert g in multiset(inner);
        assert g in sorted[1..] || g == h;
      }
      FrontDescends(sorted[0], inner);
    }
  }

  lemma {:induction false} FrontDescends(h: Hop, inner: seq<Hop>)
    requires Descending(inner) && forall g :: g in inner ==> |g.path| <= |h.path|
    ensures Descending([h] + inner)
  {
  }

  /** SortFunc leaves the order of equally long paths open; nothing below relies on it. */
  method SortByLength(hops: seq<Hop>) returns (sorted: seq<Hop>)
    ensures Descending(sorted) && multiset(sorted) == multiset(hops)
  {
    hide Descending, Insert;
    sorted := [];
    assert Descending([]) by { NothingDescends(); }
    for i := 0 to |hops|
      invariant Descending(sorted) && multiset(sorted) == multiset(hops[..i])
    {
      InsertKeeps(sorted, hops[i]);
      assert hops[..i + 1] == hops[..i] + [hops[i]];
      sorted := Insert(sorted, hops[i]);
    }
    assert hops[..|hops|] == hops;
  }

  lemma {:induction false} NothingDescends()
    ensures Descending([])
  {
  }

  // ---- The registry --------------------------------------------------------------------------------------

  function Key(project: string, task: string, lower: string -> string): string { project + "/" + lower(task) }

  lemma {:induction false} KeysDiffer(a: string, s: string, b: string, t: string, lower: string -> string)
    requires NoSlash(a) && NoSlash(b)
    ensures Key(a, s, lower) == Key(b, t, lower) <==> a == b && lower(s) == lower(t)
  {
    var k := Key(a, s, lower);
    if k == Key(b, t, lower) {
      assert k[..|a|] == a && k[..|b|] == b;
      CutIs(k, |a|);
      CutIs(k, |b|);
      assert k[|a| + 1..] == lower(s) && k[|b| + 1..] == lower(t);
    }
  }

  datatype Name = Name(project: string, task: string)

  datatype Site = Site(name: string, task: Option<Hop>, routes: seq<Hop>, lock: Option<string>)

  const NO_SITE := Site("", None, [], None)

  datatype Change = SetTask(hop: Option<Hop>) | SetHops(hops: seq<Hop>) | SetHash(hash: Option<string>)

  function Changed(s: Site, c: Change): Site {
    match c
    case SetTask(hop) => s.(task := hop)
    case SetHops(hops) => s.(routes := hops)
    case SetHash(hash) => s.(lock := hash)
  }

  datatype Route = Route(path: string, target: Target)

  datatype Outcome = Miss | CaseRedirect(path: string) | Locked | LoopDetected | SlashRedirect(path: string)
                   | ToHop(hop: Hop)

  ghost function Put<V>(m: map<string, V>, k: string, v: Option<V>): map<string, V> {
    if v.Some? then m[k := v.value] else m - {k}
  }

  ghost function Get<V>(m: map<string, V>, k: string): Option<V> { if k in m then Some(m[k]) else None }

  ghost function Listed(m: map<string, seq<Hop>>, k: string): seq<Hop> { if k in m then m[k] else [] }

  predicate IsLetterOrDigit(c: char) { 'a' <= c <= 'z' || 'A' <= c <= 'Z' || '0' <= c <= '9' }

  predicate ValidTask(name: string) {
    && 1 <= |name| <= 63 && IsLetterOrDigit(name[0])
    && forall i :: 0 <= i < |name| ==> IsLetterOrDigit(name[i]) || name[i] in "._-"
  }

  predicate ValidSlug(slug: string) {
    && 1 <= |slug| <= 63 && slug[0] != '-'
    && (forall i :: 0 <= i < |slug| ==> 'a' <= slug[i] <= 'z' || '0' <= slug[i] <= '9' || slug[i] == '-')
    && slug !in ["api", "health", "metrics", "static", "admin", "legal"]
  }

  /** A site holds what the three registers hold, and is there when one of them is. */
  ghost predicate Fits(site: Option<Site>, container: Option<Hop>, routes: Option<seq<Hop>>, lock: Option<string>,
                       spelled: Option<Name>) {
    && (site.Some? <==> container.Some? || routes.Some? || lock.Some?)
    && (site.Some? ==>
          && spelled.Some?
          && site.value == Site(spelled.value.task, container, if routes.Some? then routes.value else [], lock))
    && (routes.Some? ==> routes.value != [] && Descending(routes.value))
  }

  /** What update leaves of a site. */
  function Updated(site: Option<Site>, change: Change, name: string): Option<Site> {
    var s := Changed(if site.Some? then site.value else NO_SITE, change);
    if s.task.None? && |s.routes| == 0 && s.lock.None? then None else Some(s.(name := name))
  }

  lemma {:induction false} UpdatedFits(site: Option<Site>, container: Option<Hop>, routes: Option<seq<Hop>>,
                                       lock: Option<string>, spelled: Option<Name>, change: Change, name: Name)
    requires Fits(site, container, routes, lock, spelled)
    requires change.SetHops? ==> Descending(change.hops)
    ensures Fits(Updated(site, change, name.task),
                 if change.SetTask? then change.hop else container,
                 if change.SetHops? then (if change.hops == [] then None else Some(change.hops)) else routes,
                 if change.SetHash? then change.hash else lock,
                 Some(name))
  {
    hide Descending;
  }

  lemma {:induction false} PutGet<V>(m: map<string, V>, k: string, v: Option<V>)
    ensures forall j :: Get(Put(m, k, v), j) == if j == k then v else Get(m, j)
  {
  }

  lemma {:induction false} PutSome<V>(m: map<string, V>, k: string, v: V)
    ensures Put(m, k, Some(v)) == m[k := v]
  {
  }

  lemma {:induction false} SiteUpdated(sites: map<string, Site>, k: string, change: Change, name: string)
    ensures Put(sites, k, Updated(Get(sites, k), change, name))
      == var s := Changed(if k in sites then sites[k] else NO_SITE, change);
         if s.task.None? && |s.routes| == 0 && s.lock.None? then sites - {k} else sites[k := s.(name := name)]
  {
  }

  /** A site's hops were set under one spelling, its routes at distinct paths. */
  ghost predicate Agreed(container: Option<Hop>, hops: seq<Hop>, name: Name) {
    && RoutesOf(hops, name.project, name.task) && (forall h :: h in hops ==> "/" <= h.path)
    && (container.Some? ==> container.value == Hop(name.project, name.task, "", container.value.target)
                            && container.value.target.path == "")
  }

  /** A change that agrees with a spelling. */
  ghost predicate Suits(change: Change, name: Name) {
    match change
    case SetTask(hop) => Agreed(hop, [], name)
    case SetHops(hops) => Agreed(None, hops, name)
    case SetHash(_) => true
  }

  lemma {:induction false} StaysAgreed(container: Option<Hop>, hops: seq<Hop>, change: Change, name: Name)
    requires Agreed(container, hops, name) && Suits(change, name)
    ensures Agreed(if change.SetTask? then change.hop else container, if change.SetHops? then change.hops else hops, name)
  {
    hide RoutesOf;
  }

  lemma {:induction false} NothingAgrees(name: Name)
    ensures Agreed(None, [], name)
  {
  }

  lemma {:induction false} AgreedHop(container: Option<Hop>, hops: seq<Hop>, name: Name, h: Hop)
    requires Agreed(container, hops, name) && (h in hops || container == Some(h))
    ensures h.project == name.project && h.task == name.task
    ensures if h.path == "" then h.target.path == "" else h.path[0] == '/'
  {
  }

  /** One map of sites, and beside it what it merges: by key, the container, the routes and the lock each
      set on its own, and the spelling of the last update. */
  class Registry {
    const lower: string -> string
    var sites: map<string, Site>
    ghost var containers: map<string, Hop>
    ghost var routes: map<string, seq<Hop>>
    ghost var locks: map<string, string>
    ghost var spelled: map<string, Name>

    ghost predicate Merges(k: string)
      reads this
    {
      Fits(Get(sites, k), Get(containers, k), Get(routes, k), Get(locks, k), Get(spelled, k))
    }

    ghost predicate Spells(k: string)
      reads this
    {
      k in spelled ==>
        && IsName(spelled[k].project) && IsName(spelled[k].task)
        && k == Key(spelled[k].project, spelled[k].task, lower)
    }

    ghost predicate Valid()
      reads this
    {
      forall k :: Merges(k) && Spells(k)
    }

    lemma {:induction false} HasSite(k: string)
      requires Valid() && k in containers
      ensures k in sites
    {
      assert Merges(k);
    }

    ghost predicate Uniform(k: string)
      reads this
    {
      k in spelled && k in sites && Agreed(Get(containers, k), Listed(routes, k), spelled[k])
    }

    /** No other task of the project differs from this one by case alone, which the database sees to: the
        site, when there is one, was set under this spelling. */
    ghost predicate OneSpelling(project: string, task: string)
      reads this
    {
      var k := Key(project, task, lower);
      k in sites ==> Uniform(k) && spelled[k] == Name(project, task)
    }

    constructor (lower: string -> string)
      ensures Valid() && sites == map[] && this.lower == lower
    {
      this.lower, sites := lower, map[];
      containers, routes, locks, spelled := map[], map[], map[], map[];
    }

    /** A site goes when it is empty; otherwise it takes the change and the name. */
    method Update(project: string, task: string, change: Change)
      requires Valid() && IsName(project) && IsName(task)
      requires change.SetHops? ==> Descending(change.hops)
      modifies this
      ensures Valid()
      ensures var k := Key(project, task, lower);
        && containers == (if change.SetTask? then Put(old(containers), k, change.hop) else old(containers))
        && routes == (if change.SetHops? then Put(old(routes), k, if change.hops == [] then None else Some(change.hops))
                      else old(routes))
        && locks == (if change.SetHash? then Put(old(locks), k, change.hash) else old(locks))
        && spelled == old(spelled)[k := Name(project, task)]
      ensures old(OneSpelling(project, task)) && Suits(change, Name(project, task)) ==> OneSpelling(project, task)
    {
      UpdateSites(project, task, change);
      var k := Key(project, task, lower);
      hide Descending, IsName, Key, Agreed, Suits;
      assert Merges(k) && old(Merges(k));
      var name := Name(project, task);
      if old(OneSpelling(project, task)) && Suits(change, name) {
        NothingAgrees(name);
        assert old(Agreed(Get(containers, k), Listed(routes, k), name));
        StaysAgreed(old(Get(containers, k)), old(Listed(routes, k)), change, name);
      }
    }

    method UpdateSites(project: string, task: string, change: Change)
      requires Valid() && IsName(project) && IsName(task)
      requires change.SetHops? ==> Descending(change.hops)
      modifies this
      ensures Valid()
      ensures var k := Key(project, task, lower);
        && containers == (if change.SetTask? then Put(old(containers), k, change.hop) else old(containers))
        && routes == (if change.SetHops? then Put(old(routes), k, if change.hops == [] then None else Some(change.hops))
                      else old(routes))
        && locks == (if change.SetHash? then Put(old(locks), k, change.hash) else old(locks))
        && spelled == old(spelled)[k := Name(project, task)]
    {
      hide Descending, IsName, Key, Put, Get, Fits;
      var key := Key(project, task, lower);
      assert Merges(key);
      UpdatedFits(Get(sites, key), Get(containers, key), Get(routes, key), Get(locks, key), Get(spelled, key), change,
                  Name(project, task));
      ghost var before := sites;
      var site := Changed(if key in sites then sites[key] else NO_SITE, change);
      if site.task.None? && |site.routes| == 0 && site.lock.None? {
        sites := sites - {key};
      } else {
        sites := sites[key := site.(name := task)];
      }
      SiteUpdated(before, key, change, task);
      PutGet(before, key, Updated(Get(before, key), change, task));
      match change {
        case SetTask(hop) =>
          PutGet(containers, key, hop);
          containers := Put(containers, key, hop);
        case SetHops(hops) =>
          PutGet(routes, key, if hops == [] then None else Some(hops));
          routes := Put(routes, key, if hops == [] then None else Some(hops));
        case SetHash(hash) =>
          PutGet(locks, key, hash);
          locks := Put(locks, key, hash);
      }
      PutGet(spelled, key, Some(Name(project, task)));
      PutSome(spelled, key, Name(project, task));
      spelled := spelled[key := Name(project, task)];
      forall k ensures Merges(k) && Spells(k) {
        assert old(Merges(k) && Spells(k));
      }
    }

    /** Checks the names, the host and the port, and else changes nothing. */
    method Register(project: string, task: string, host: string, port: int, blank: string -> bool,
                    join: (string, int) -> string) returns (ok: bool)
      requires Valid()
      modifies this
      ensures Valid()
      ensures ok == (ValidSlug(project) && ValidTask(task) && !blank(host) && 1 <= port <= 65535)
      ensures routes == old(routes) && locks == old(locks)
      ensures containers == if ok then old(containers)[Key(project, task, lower) :=
                                Hop(project, task, "", Target("http", join(host, port), ""))] else old(containers)
      ensures spelled == if ok then old(spelled)[Key(project, task, lower) := Name(project, task)] else old(spelled)
      ensures old(OneSpelling(project, task)) ==> OneSpelling(project, task)
    {
      hide Key;
      if !ValidSlug(project) || !ValidTask(task) || blank(host) || port < 1 || port > 65535 {
        return false;
      }
      ValidNames(project, task);
      hide Valid, ValidSlug, ValidTask, IsName, OneSpelling;
      Update(project, task, SetTask(Some(Hop(project, task, "", Target("http", join(host, port), "")))));
      ok := true;
    }

    method Unregister(project: string, task: string)
      requires Valid() && IsName(project) && IsName(task)
      modifies this
      ensures Valid()
      ensures containers == old(containers) - {Key(project, task, lower)} && routes == old(routes) && locks == old(locks)
      ensures spelled == old(spelled)[Key(project, task, lower) := Name(project, task)]
      ensures old(OneSpelling(project, task)) ==> OneSpelling(project, task)
    {
      hide Valid, Key, IsName, OneSpelling;
      Update(project, task, SetTask(None));
    }

    /** Replaces a task's routes, longest path first. */
    method SetRoutes(project: string, task: string, stored: seq<Route>)
      requires Valid() && IsName(project) && IsName(task)
      modifies this
      ensures Valid()
      ensures containers == old(containers) && locks == old(locks)
      ensures var k := Key(project, task, lower);
        && routes == Put(old(routes), k, Get(routes, k))
        && Descending(Listed(routes, k)) && multiset(Listed(routes, k)) == multiset(HopsOf(project, task, stored))
        && spelled == old(spelled)[k := Name(project, task)]
      ensures var hops := Listed(routes, Key(project, task, lower));
        |hops| == |stored| && forall r :: r in stored ==> Hop(project, task, r.path, r.target) in hops
      ensures old(OneSpelling(project, task)) && AreClean(stored) ==> OneSpelling(project, task)
    {
      hide Valid, Key, IsName, Descending, OneSpelling, AreClean, Suits;
      var hops := [];
      for i := 0 to |stored|
        invariant hops == HopsOf(project, task, stored[..i])
      {
        assert stored[..i + 1][..i] == stored[..i];
        hops := hops + [Hop(project, task, stored[i].path, stored[i].target)];
      }
      assert stored[..|stored|] == stored;
      hops := SortByLength(hops);
      AllAreListed(project, task, stored, hops);
      if AreClean(stored) {
        CleanRoutesSuit(project, task, stored, hops);
      }
      Update(project, task, SetHops(hops));
    }

    method SetLock(project: string, task: string, hash: string)
      requires Valid() && IsName(project) && IsName(task)
      modifies this
      ensures Valid()
      ensures containers == old(containers) && routes == old(routes)
      ensures locks == Put(old(locks), Key(project, task, lower), if hash == "" then None else Some(hash))
      ensures spelled == old(spelled)[Key(project, task, lower) := Name(project, task)]
      ensures old(OneSpelling(project, task)) ==> OneSpelling(project, task)
    {
      hide Valid, Key, IsName, OneSpelling;
      Update(project, task, SetHash(if hash == "" then None else Some(hash)));
    }

    ghost predicate Taken(k: string)
      reads this
    {
      k in containers || k in routes || k in locks
    }

    /** What a request must be answered with, from the three registers alone. */
    ghost predicate Answers(path: string, admitted: bool, looped: bool, o: Outcome)
      reads this
      requires Valid()
    {
      var parts := Parts(path);
      if |parts| < 2 || parts[0] == "" || parts[1] == "" then o == Miss
      else
        var k := Key(parts[0], parts[1], lower);
        assert Merges(k);
        if Taken(k) && spelled[k].task != parts[1] then
          o == CaseRedirect(PathOf(parts[0], spelled[k].task, parts[2..]))
        else if k in locks && |parts| == 3 && !admitted then o == Locked
        else if exists h :: h in Listed(routes, k) && Under(path, h.Public()) then
          if looped then o == LoopDetected else o.ToHop? && IsLongest(Listed(routes, k), path, o.hop)
        else if k !in containers then o == Miss
        else if |parts| == 2 then o == SlashRedirect(containers[k].Public() + "/")
        else o == ToHop(containers[k])
    }

    method ServeHTTP(path: string, admitted: bool, looped: bool) returns (o: Outcome)
      requires Valid()
      ensures Answers(path, admitted, looped, o)
    {
      hide Parts, Under, Key, Spells, Descending;
      var parts := Parts(path);
      if |parts| < 2 || parts[0] == "" || parts[1] == "" {
        return Miss;
      }
      var k := Key(parts[0], parts[1], lower);
      assert Merges(k) && Spells(k);
      var site := if k in sites then sites[k] else NO_SITE;
      if site.name != "" && site.name != parts[1] {
        return CaseRedirect(PathOf(parts[0], site.name, parts[2..]));
      }
      assert Taken(k) ==> spelled[k].task == parts[1] by {
        if k in sites { NamedSites(k); }
      }
      if site.lock.Some? && |parts| == 3 && !admitted {
        return Locked;
      }
      assert Descending(site.routes) by { NothingDescends(); }
      var found := FirstMatch(site.routes, path);
      if found.Some? {
        assert found.value in Listed(routes, k) && Under(path, found.value.Public());
        return if looped then LoopDetected else ToHop(found.value);
      }
      if site.task.None? {
        return Miss;
      }
      if |parts| == 2 {
        return SlashRedirect(site.task.value.Public() + "/");
      }
      o := ToHop(site.task.value);
    }

    /** A request to a task, or to something in it: what it meets, in order. */
    lemma {:induction false} TaskRequests(project: string, task: string, rest: seq<string>, admitted: bool, looped: bool,
                                          o: Outcome)
      requires Valid() && IsName(project) && IsName(task) && |rest| <= 1
      ensures Answers(PathOf(project, task, rest), admitted, looped, o) <==>
        var (path, k) := (PathOf(project, task, rest), Key(project, task, lower));
        if k !in containers && k !in routes && k !in locks then o == Miss
        else
          assert Merges(k);
          if spelled[k].task != task then o == CaseRedirect("/" + project + "/" + spelled[k].task +
                                                            if rest == [] then "" else "/" + rest[0])
          else if k in locks && rest != [] && !admitted then o == Locked
          else if exists h :: h in Listed(routes, k) && Under(path, h.Public()) then
            if looped then o == LoopDetected
            else
              && o.ToHop? && o.hop in Listed(routes, k) && Under(path, o.hop.Public())
              && forall h :: h in Listed(routes, k) && Under(path, h.Public()) ==> |h.path| <= |o.hop.path|
          else if k !in containers then o == Miss
          else if rest == [] then o == SlashRedirect(containers[k].Public() + "/")
          else o == ToHop(containers[k])
    {
      NamesAreNames(project, task);
      hide Parts, Under, Key, Spells, Descending, IsName, NoSlash, Hop.Public;
      PartsOfPath(project, task, rest);
      assert ([project, task] + rest)[2..] == rest;
    }

    /** Any other request is missed. */
    lemma {:induction false} OthersAreMissed(path: string, admitted: bool, looped: bool, o: Outcome)
      requires Valid() && Answers(path, admitted, looped, o)
      ensures o == Miss || exists project, task, rest: seq<string> ::
                IsName(project) && IsName(task) && |rest| <= 1
                && PathOf(project, task, rest) == "/" + if path != "" && path[0] == '/' then path[1..] else path
    {
      hide Under, Key, Spells, Descending, Hop.Public;
      var parts := Parts(path);
      if |parts| >= 2 && parts[0] != "" && parts[1] != "" {
        PathOfParts(path);
        assert IsName(parts[0]) && IsName(parts[1]);
      }
    }

    lemma {:induction false} NamedSites(k: string)
      requires Valid() && k in sites
      ensures sites[k].name != "" && NoSlash(sites[k].name)
    {
      assert Merges(k) && Spells(k);
    }

    /** A request sent on to the spelling of the site is not sent on again, and names the same site. */
    lemma {:induction false} RedirectedOnce(path: string, admitted: bool, looped: bool, o: Outcome, next: Outcome)
      requires Valid()
      ensures Answers(path, admitted, looped, o) && o.CaseRedirect? ==>
                var (parts, again) := (Parts(path), Parts(o.path));
                && |again| == |parts| && again[2..] == parts[2..]
                && Key(again[0], again[1], lower) == Key(parts[0], parts[1], lower)
                && (Answers(o.path, admitted, looped, next) ==> !next.CaseRedirect?)
    {
      hide Parts, Under, IsLongest, Descending, Key;
      if Answers(path, admitted, looped, o) && o.CaseRedirect? {
        var parts := Parts(path);
        var k := Key(parts[0], parts[1], lower);
        assert Merges(k) && Spells(k);
        NamedSites(k);
        var name := spelled[k];
        KeysDiffer(parts[0], parts[1], name.project, name.task, lower);
        PartsOfPath(parts[0], name.task, parts[2..]);
      }
    }

    /** A redirect that was moved comes back through the hop that gave it, to the upstream path it named, if
        and only if no longer route of the site leads there. */
    lemma {:induction false} RedirectsComeBack(k: string, h: Hop, l: Location)
      requires Valid() && Uniform(k)
      requires h in Listed(routes, k) || Get(containers, k) == Some(h)
      requires RewriteLocation(h, l, lower) != l
      ensures var path := RewriteLocation(h, l, lower).path;
        && h.Rewrite(path) == l.path
        && (Answers(path, true, false, ToHop(h))
            <==> forall g :: g in Listed(routes, k) && Under(path, g.Public()) ==> |g.path| <= |h.path|)
    {
      hide Parts, Descending, Key, Answers, RewriteLocation, Under, Agreed;
      assert Spells(k);
      AgreedHop(Get(containers, k), Listed(routes, k), spelled[k], h);
      RewritingUndoesItself(h, l, lower);
      MovedParts(h, l, lower);
      EntersWhenLongest(k, h, RewriteLocation(h, l, lower).path);
    }

    /** A path of a site that lies under one of its hops enters there unless a longer route matches. */
    lemma {:induction false} EntersWhenLongest(k: string, h: Hop, path: string)
      requires Valid() && Uniform(k)
      requires h in Listed(routes, k) || Get(containers, k) == Some(h)
      requires Under(path, h.Public())
      requires var parts := Parts(path);
        |parts| == 3 && parts[0] == spelled[k].project && parts[1] == spelled[k].task
      ensures Answers(path, true, false, ToHop(h))
         <==> forall g :: g in Listed(routes, k) && Under(path, g.Public()) ==> |g.path| <= |h.path|
    {
      hide Parts, Descending, Key, Under;
      assert Merges(k) && Spells(k);
      if h !in Listed(routes, k) {
        assert h.path == "";
      }
    }
  }

  lemma {:induction false} AllAreListed(project: string, task: string, stored: seq<Route>, hops: seq<Hop>)
    requires multiset(hops) == multiset(HopsOf(project, task, stored))
    ensures |hops| == |stored| && forall r :: r in stored ==> Hop(project, task, r.path, r.target) in hops
  {
    HopsOfAre(project, task, stored);
    var given := HopsOf(project, task, stored);
    assert |multiset(hops)| == |hops| && |multiset(given)| == |given|;
    forall r | r in stored ensures Hop(project, task, r.path, r.target) in hops {
      var i :| 0 <= i < |stored| && stored[i] == r;
      assert given[i] in multiset(hops);
    }
  }

  function HopsOf(project: string, task: string, stored: seq<Route>): seq<Hop> {
    if stored == [] then []
    else
      var last := stored[|stored| - 1];
      HopsOf(project, task, stored[..|stored| - 1]) + [Hop(project, task, last.path, last.target)]
  }

  lemma {:induction false} ValidNames(project: string, task: string)
    requires ValidSlug(project) && ValidTask(task)
    ensures IsName(project) && IsName(task)
  {
  }

  /** The moved path has three parts, the first two the hop's own names. */
  lemma {:induction false} MovedParts(h: Hop, l: Location, lower: string -> string)
    requires IsName(h.project) && IsName(h.task) && RewriteLocation(h, l, lower) != l
    requires h.path == "" ==> h.target.path == ""
    requires h.path != "" ==> h.path[0] == '/'
    ensures var parts := Parts(RewriteLocation(h, l, lower).path);
      |parts| == 3 && parts[0] == h.project && parts[1] == h.task
  {
    hide Parts;
    var rest := l.path[|h.target.path|..];
    var after := h.path + rest;
    assert after != "" && after[0] == '/';
    PartsOfPath(h.project, h.task, [after[1..]]);
    assert h.Public() + rest == PathOf(h.project, h.task, [after[1..]]);
  }

  // ---- CleanRoutes ---------------------------------------------------------------------------------------

  datatype Asked = Asked(path: string, url: string)

  datatype Fault = IsRoot | BadPath | PathTaken | BadURL

  datatype Cleaned = Clean(routes: seq<Route>) | TooMany | Faulty(index: nat, fault: Fault)

  /** Routes as CleanRoutes leaves them. */
  ghost predicate AreClean(routes: seq<Route>) {
    DistinctBy(routes, RoutePath) && forall r :: r in routes ==> IsPath(r.path)
  }

  predicate IsWord(c: char) { IsLetterOrDigit(c) || c == '_' || c == '-' }

  /** Slashes each followed by at least one letter, digit, underscore or dash. */
  predicate IsPath(p: string) { p != "" && p[0] == '/' && forall i :: 0 <= i < |p| ==> FitsAt(p, i) }

  /** A word's character, or a slash before a word. */
  predicate FitsAt(p: string, i: nat)
    requires i < |p|
  {
    IsWord(p[i]) || (p[i] == '/' && i + 1 < |p| && IsWord(p[i + 1]))
  }

  /** The words, each after a slash. */
  function Spelled(words: seq<string>): string { if words == [] then "" else "/" + words[0] + Spelled(words[1..]) }

  ghost predicate AreWords(words: seq<string>) {
    forall w :: w in words ==>
      && w != ""
      && forall c :: c in w ==> 'a' <= c <= 'z' || 'A' <= c <= 'Z' || '0' <= c <= '9' || c == '_' || c == '-'
  }

  lemma {:induction false} WordFirst(w: string, rest: string)
    requires w != "" && (forall c :: c in w ==> IsWord(c)) && (rest != "" ==> IsPath(rest))
    ensures IsPath("/" + w + rest)
  {
    var p := "/" + w + rest;
    forall i | 0 <= i < |p|
      ensures FitsAt(p, i)
    {
      if i == 0 {
        assert p[1] == w[0] && w[0] in w;
      } else if i <= |w| {
        assert p[i] == w[i - 1] && w[i - 1] in w;
      } else {
        assert FitsAt(rest, i - 1 - |w|) && p[i] == rest[i - 1 - |w|];
        assert i + 1 < |p| ==> p[i + 1] == rest[i - |w|];
      }
    }
  }

  lemma {:induction false} WordsMakeAPath(words: seq<string>)
    requires words != [] && AreWords(words)
    ensures IsPath(Spelled(words))
  {
    assert words[0] in words;
    if words[1..] != [] {
      assert forall w :: w in words[1..] ==> w in words;
      WordsMakeAPath(words[1..]);
    }
    WordFirst(words[0], Spelled(words[1..]));
  }

  lemma {:induction false} FirstWord(p: string) returns (w: string, rest: string)
    requires IsPath(p)
    ensures p == "/" + w + rest && w != "" && (forall c :: c in w ==> IsWord(c)) && (rest != "" ==> IsPath(rest))
  {
    var tail := p[1..];
    var n := Cut(tail);
    w, rest := tail[..n], tail[n..];
    assert FitsAt(p, 0);
    assert tail[0] == p[1];
    forall i | 0 <= i < n
      ensures IsWord(w[i])
    {
      assert FitsAt(p, i + 1) && w[i] == p[i + 1] && w[i] in w;
    }
    forall i | 0 <= i < |rest|
      ensures FitsAt(rest, i)
    {
      assert FitsAt(p, i + n + 1) && rest[i] == p[i + n + 1];
      assert i + 1 < |rest| ==> rest[i + 1] == p[i + n + 2];
    }
    if rest != "" {
      assert rest[0] == tail[n] == '/';
    }
    assert p == "/" + tail && tail == w + rest;
  }

  lemma {:induction false} PathHasWords(p: string) returns (words: seq<string>)
    requires IsPath(p)
    ensures words != [] && AreWords(words) && Spelled(words) == p
    decreases |p|
  {
    var w, rest := FirstWord(p);
    words := [];
    if rest != "" {
      words := PathHasWords(rest);
    }
    assert ([w] + words)[1..] == words;
    words := [w] + words;
  }

  /** A route's path is one or more words of letters, digits, underscores and dashes, each after a slash. */
  lemma {:induction false} PathsAreWords(p: string)
    ensures IsPath(p) <==> exists words :: words != [] && AreWords(words) && Spelled(words) == p
  {
    hide IsPath, AreWords, Spelled;
    if IsPath(p) {
      var words := PathHasWords(p);
    }
    forall words | words != [] && AreWords(words) && Spelled(words) == p
      ensures IsPath(p)
    {
      WordsMakeAPath(words);
    }
  }

  function TrimSlash(p: string): (t: string)
    ensures p == t + "/" || (p == t && (p == "" || p[|p| - 1] != '/'))
  {
    if p != "" && p[|p| - 1] == '/' then p[..|p| - 1] else p
  }

  /** What is wrong with a route, after those before it. */
  function FaultOf(asked: seq<Asked>, i: nat, cleanURL: string -> Option<Target>): Option<Fault>
    requires i < |asked|
  {
    var p := TrimSlash(asked[i].path);
    if asked[i].path == "/" then Some(IsRoot)
    else if |p| > 64 || !IsPath(p) then Some(BadPath)
    else if exists j :: 0 <= j < i && TrimSlash(asked[j].path) == p then Some(PathTaken)
    else if cleanURL(asked[i].url).None? then Some(BadURL)
    else None
  }

  /** The order of strings: by the first character that differs, and a prefix first. */
  predicate NotAfter(a: string, b: string) {
    a == "" || (b != "" && (a[0] < b[0] || (a[0] == b[0] && NotAfter(a[1..], b[1..]))))
  }

  ghost predicate Ordered(routes: seq<Route>) {
    forall i, j :: 0 <= i < j < |routes| ==> NotAfter(routes[i].path, routes[j].path)
  }

  function RoutePath(r: Route): string { r.path }

  function InsertByPath(sorted: seq<Route>, r: Route): seq<Route> {
    if sorted == [] || NotAfter(r.path, sorted[0].path) then [r] + sorted
    else [sorted[0]] + InsertByPath(sorted[1..], r)
  }

  lemma {:induction false} NotAfterIsTotal(a: string, b: string)
    ensures NotAfter(a, b) || NotAfter(b, a)
  {
    if a != "" && b != "" && a[0] == b[0] {
      NotAfterIsTotal(a[1..], b[1..]);
    }
  }

  lemma {:induction false} NotAfterTransitive(a: string, b: string, c: string)
    requires NotAfter(a, b) && NotAfter(b, c)
    ensures NotAfter(a, c)
  {
    if a != "" && a[0] == b[0] == c[0] {
      NotAfterTransitive(a[1..], b[1..], c[1..]);
    }
  }

  lemma {:induction false} InsertByPathKeeps(sorted: seq<Route>, r: Route)
    requires Ordered(sorted)
    ensures Ordered(InsertByPath(sorted, r)) && multiset(InsertByPath(sorted, r)) == multiset(sorted) + multiset{r}
  {
    hide NotAfter;
    if sorted != [] {
      assert sorted == [sorted[0]] + sorted[1..];
      if NotAfter(r.path, sorted[0].path) {
        forall j | 0 < j < |sorted| ensures NotAfter(r.path, sorted[j].path) {
          NotAfterTransitive(r.path, sorted[0].path, sorted[j].path);
        }
      } else {
        NotAfterIsTotal(r.path, sorted[0].path);
        InsertByPathKeeps(sorted[1..], r);
        var inner := InsertByPath(sorted[1..], r);
        forall q | q in inner ensures NotAfter(sorted[0].path, q.path) {
          assert q in multiset(inner);
          assert q in sorted[1..] || q == r;
        }
      }
    }
  }

  method SortByPath(routes: seq<Route>) returns (sorted: seq<Route>)
    ensures Ordered(sorted) && multiset(sorted) == multiset(routes)
  {
    hide Ordered, InsertByPath;
    sorted := [];
    assert Ordered([]) by { NothingOrdered(); }
    for i := 0 to |routes|
      invariant Ordered(sorted) && multiset(sorted) == multiset(routes[..i])
    {
      InsertByPathKeeps(sorted, routes[i]);
      assert routes[..i + 1] == routes[..i] + [routes[i]];
      sorted := InsertByPath(sorted, routes[i]);
    }
    assert routes[..|routes|] == routes;
  }

  lemma {:induction false} NothingOrdered()
    ensures Ordered([])
  {
  }

  /** A path without its trailing slash, and the cleaned address. */
  function CleanedOf(asked: Asked, cleanURL: string -> Option<Target>): Route {
    var u := cleanURL(asked.url);
    Route(TrimSlash(asked.path), if u.Some? then u.value else Target("", "", ""))
  }

  function AllCleaned(asked: seq<Asked>, cleanURL: string -> Option<Target>): (routes: seq<Route>)
    ensures |routes| == |asked|
    ensures forall i :: 0 <= i < |asked| ==> routes[i] == CleanedOf(asked[i], cleanURL)
  {
    seq(|asked|, i requires 0 <= i < |asked| => CleanedOf(asked[i], cleanURL))
  }

  ghost predicate Faultless(asked: seq<Asked>, n: nat, cleanURL: string -> Option<Target>)
    requires n <= |asked|
  {
    forall i :: 0 <= i < n ==> FaultOf(asked, i, cleanURL).None?
  }

  lemma {:induction false} FaultlessAreDistinct(asked: seq<Asked>, cleanURL: string -> Option<Target>)
    requires Faultless(asked, |asked|, cleanURL)
    ensures DistinctBy(AllCleaned(asked, cleanURL), RoutePath)
    ensures forall r :: r in AllCleaned(asked, cleanURL) ==> IsPath(r.path) && |r.path| <= 64
  {
    hide IsPath, TrimSlash;
    var all := AllCleaned(asked, cleanURL);
    forall i | 0 <= i < |asked| ensures IsPath(all[i].path) && |all[i].path| <= 64 {
      assert FaultOf(asked, i, cleanURL).None?;
    }
    forall i, j | 0 <= i < j < |asked| ensures RoutePath(all[i]) != RoutePath(all[j]) {
      assert FaultOf(asked, j, cleanURL).None?;
    }
  }

  lemma {:induction false} SameRoutes(a: seq<Route>, b: seq<Route>)
    requires multiset(a) == multiset(b)
    ensures |a| == |b| && forall r :: r in b ==> r in a
  {
    assert |multiset(a)| == |a| && |multiset(b)| == |b|;
    forall r | r in b ensures r in a {
      assert r in multiset(b);
    }
  }

  /** The routes to store, in order of their paths, which are clean and distinct; or the first fault. */
  method CleanRoutes(asked: seq<Asked>, cleanURL: string -> Option<Target>) returns (cleaned: Cleaned)
    ensures cleaned.TooMany? <==> |asked| > 20
    ensures match cleaned
      case TooMany => true
      case Faulty(i, fault) =>
        && i < |asked| && Faultless(asked, i, cleanURL) && FaultOf(asked, i, cleanURL) == Some(fault)
        && var p := TrimSlash(asked[i].path);
        && (fault == IsRoot <==> asked[i].path == "/")
        && (fault == BadPath <==> asked[i].path != "/" && (|p| > 64 || !IsPath(p)))
        && (fault == PathTaken ==> exists j :: 0 <= j < i && TrimSlash(asked[j].path) == p)
        && (fault == BadURL ==> cleanURL(asked[i].url).None? && forall j :: 0 <= j < i ==> TrimSlash(asked[j].path) != p)
      case Clean(routes) =>
        && Faultless(asked, |asked|, cleanURL)
        && Ordered(routes) && multiset(routes) == multiset(AllCleaned(asked, cleanURL))
        && AreClean(routes) && (forall r :: r in routes ==> |r.path| <= 64)
        && |routes| == |asked|
        && forall i :: 0 <= i < |asked| ==>
             cleanURL(asked[i].url).Some? && Route(TrimSlash(asked[i].path), cleanURL(asked[i].url).value) in routes
  {
    hide IsPath, Ordered, TrimSlash;
    if |asked| > 20 {
      return TooMany;
    }
    var clean := [];
    for i := 0 to |asked|
      invariant |clean| == i && Faultless(asked, i, cleanURL)
      invariant forall j :: 0 <= j < i ==> clean[j] == CleanedOf(asked[j], cleanURL)
    {
      var p, u := TrimSlash(asked[i].path), cleanURL(asked[i].url);
      assert forall j :: 0 <= j < i ==> clean[j].path == TrimSlash(asked[j].path);
      if asked[i].path == "/" {
        return Faulty(i, IsRoot);
      } else if |p| > 64 || !IsPath(p) {
        return Faulty(i, BadPath);
      } else if exists j :: 0 <= j < |clean| && clean[j].path == p {
        return Faulty(i, PathTaken);
      } else if u.None? {
        return Faulty(i, BadURL);
      }
      clean := clean + [Route(p, u.value)];
    }
    assert clean == AllCleaned(asked, cleanURL);
    FaultlessAreDistinct(asked, cleanURL);
    forall i | 0 <= i < |asked|
      ensures cleanURL(asked[i].url).Some? && clean[i] == Route(TrimSlash(asked[i].path), cleanURL(asked[i].url).value)
    {
      assert FaultOf(asked, i, cleanURL).None?;
    }
    var sorted := SortByPath(clean);
    PermutedDistinct(sorted, clean, RoutePath);
    SameRoutes(sorted, clean);
    SameRoutes(clean, sorted);
    cleaned := Clean(sorted);
  }

  // ---- What is stored cleanly is dispatched uniquely -----------------------------------------------------

  lemma {:induction false} Twice<T(!new)>(s: seq<T>, x: T)
    requires multiset(s)[x] >= 2
    ensures exists i, j :: 0 <= i < j < |s| && s[i] == x && s[j] == x
  {
    var n := |s| - 1;
    assert s == s[..n] + [s[n]];
    if multiset(s[..n])[x] >= 2 {
      Twice(s[..n], x);
      var i, j :| 0 <= i < j < n && s[..n][i] == x && s[..n][j] == x;
      assert s[i] == x && s[j] == x;
    } else {
      assert x in s[..n] && s[n] == x;
      var i :| 0 <= i < n && s[..n][i] == x;
      assert s[i] == x && s[n] == x;
    }
  }

  lemma {:induction false} TwoOf<T(!new)>(s: seq<T>, i: nat, j: nat)
    requires i < j < |s| && s[i] == s[j]
    ensures multiset(s)[s[i]] >= 2
  {
    assert s == s[..j] + [s[j]] + s[j + 1..];
    assert s[i] in s[..j];
  }

  lemma {:induction false} PermutedDistinct<T(!new)>(a: seq<T>, b: seq<T>, path: T -> string)
    requires DistinctBy(b, path) && multiset(a) == multiset(b)
    ensures DistinctBy(a, path)
  {
    forall i, j | 0 <= i < j < |a| ensures path(a[i]) != path(a[j]) {
      if path(a[i]) == path(a[j]) {
        assert a[i] in multiset(a) && a[j] in multiset(a);
        assert a[i] in b && a[j] in b;
        if a[i] == a[j] {
          TwoOf(a, i, j);
          Twice(b, a[i]);
        }
      }
    }
  }

  lemma {:induction false} HopsOfAre(project: string, task: string, stored: seq<Route>)
    ensures var hops := HopsOf(project, task, stored);
      |hops| == |stored| && forall i :: 0 <= i < |stored| ==> hops[i] == Hop(project, task, stored[i].path, stored[i].target)
  {
    if stored != [] {
      HopsOfAre(project, task, stored[..|stored| - 1]);
    }
  }

  /** Whatever order the sort leaves, the hops of routes at distinct paths are at distinct paths under the
      task, which is what makes the longest match unique. */
  lemma {:induction false} StoredRoutesAreUniform(project: string, task: string, stored: seq<Route>, hops: seq<Hop>)
    requires DistinctBy(stored, RoutePath) && multiset(hops) == multiset(HopsOf(project, task, stored))
    ensures RoutesOf(hops, project, task)
  {
    HopsOfAre(project, task, stored);
    var given := HopsOf(project, task, stored);
    forall i, j | 0 <= i < j < |given| ensures HopPath(given[i]) != HopPath(given[j]) {
      assert RoutePath(stored[i]) != RoutePath(stored[j]);
    }
    PermutedDistinct(hops, given, HopPath);
    forall h | h in hops ensures h in given {
      assert h in multiset(hops);
    }
  }

  lemma {:induction false} CleanRoutesSuit(project: string, task: string, stored: seq<Route>, hops: seq<Hop>)
    requires AreClean(stored) && multiset(hops) == multiset(HopsOf(project, task, stored))
    ensures Suits(SetHops(hops), Name(project, task))
  {
    StoredRoutesAreUniform(project, task, stored, hops);
    HopsOfAre(project, task, stored);
    forall h | h in hops ensures "/" <= h.path {
      assert h in multiset(hops);
      var i :| 0 <= i < |stored| && HopsOf(project, task, stored)[i] == h;
      assert stored[i] in stored;
    }
  }

  const LOGIN := Location("", "", "/login", "")
  const ELSEWHERE := Route("/login", Target("http", "login.example", ""))

  lemma {:induction false} NotUnder(path: string, prefix: string)
    requires |path| > 1 && |prefix| > 1 && path[1] != prefix[1]
    ensures !Under(path, prefix)
  {
    assert (prefix + "/")[1] == prefix[1];
  }

  lemma {:induction false} LoginPublic(container: Hop)
    requires container == Hop("p", "t", "", container.target)
    ensures var public := container.Public();
      |public| > 1 && public[1] == 'p' && Hop("p", "t", ELSEWHERE.path, ELSEWHERE.target).Public() == public + LOGIN.path
  {
    var base := "/" + "p" + "/" + "t";
    assert base + "" == base;
  }

  lemma {:induction false} MovesToPublic(h: Hop, l: Location, lower: string -> string)
    requires h.target.path == "" && l.host == "" && "/" <= l.path && !Under(l.path, h.Public())
    ensures RewriteLocation(h, l, lower) == Location("", "", h.Public() + l.path, l.suffix)
  {
    hide Under, Hop.Public;
    assert l.path[0..] == l.path;
    assert l.path[0] == '/';
  }

  lemma {:induction false} LoginPaths(container: Hop, lower: string -> string)
    requires container == Hop("p", "t", "", Target(container.target.scheme, container.target.host, ""))
    ensures var moved := RewriteLocation(container, LOGIN, lower);
      && moved != LOGIN && moved.path == container.Public() + LOGIN.path
      && Under(moved.path, Hop("p", "t", ELSEWHERE.path, ELSEWHERE.target).Public())
  {
    LoginPublic(container);
    NotUnder(LOGIN.path, container.Public());
    hide Under, Hop.Public, RewriteLocation;
    MovesToPublic(container, LOGIN, lower);
    UnderItself(container.Public() + LOGIN.path);
    assert |container.Public() + LOGIN.path| > |LOGIN.path|;
  }

  lemma {:induction false} UnderItself(path: string)
    ensures Under(path, path)
  {
  }

  lemma {:induction false} LoginIsPath()
    ensures IsPath(ELSEWHERE.path)
  {
    var p := ELSEWHERE.path;
    assert |p| == 6 && p[0] == '/' && p[1] == 'l' && p[2] == 'o' && p[3] == 'g' && p[4] == 'i' && p[5] == 'n';
    forall i | 0 <= i < |p| ensures FitsAt(p, i) {
      assert i == 0 || i == 1 || i == 2 || i == 3 || i == 4 || i == 5;
    }
  }

  lemma {:induction false} LoginRoute(hops: seq<Hop>)
    requires multiset(hops) == multiset(HopsOf("p", "t", [ELSEWHERE]))
    ensures Hop("p", "t", ELSEWHERE.path, ELSEWHERE.target) in hops
  {
    HopsOfAre("p", "t", [ELSEWHERE]);
    var route := Hop("p", "t", ELSEWHERE.path, ELSEWHERE.target);
    assert HopsOf("p", "t", [ELSEWHERE])[0] == route;
    assert route in multiset(hops);
  }

  lemma {:induction false} LoginIsClean()
    ensures AreClean([ELSEWHERE])
  {
    LoginIsPath();
    hide IsPath;
  }

  /** A redirect that does not come back: the container sends to its own /login, where a route leads
      elsewhere. */
  method TakenByALongerRoute(lower: string -> string, join: (string, int) -> string)
    returns (r: Registry, container: Hop)
    ensures r.Valid() && r.lower == lower && Get(r.containers, Key("p", "t", lower)) == Some(container)
    ensures var moved := RewriteLocation(container, LOGIN, lower);
      && moved.path == container.Public() + LOGIN.path && container.Rewrite(moved.path) == LOGIN.path
      && !r.Answers(moved.path, true, false, ToHop(container))
  {
    hide Descending, Key, Registry.Valid, Registry.Answers, RewriteLocation, Under, AreClean, Agreed;
    hide Hop.Public, Hop.Rewrite;
    r := new Registry(lower);
    var ok := r.Register("p", "t", "10.0.0.2", 80, host => false, join);
    container := Hop("p", "t", "", Target("http", join("10.0.0.2", 80), ""));
    r.SetRoutes("p", "t", [ELSEWHERE]);
    ghost var k := Key("p", "t", lower);
    LoginRoute(Listed(r.routes, k));
    LoginIsClean();
    LoginPaths(container, lower);
    r.HasSite(k);
    r.RedirectsComeBack(k, container, LOGIN);
  }
}

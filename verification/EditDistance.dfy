/**
 * The "did you mean" page of the frontend: the two-row Levenshtein distance of kind.ts and the
 * ranking of near misses built on it.
 */
module EditDistance {

  function Min(x: nat, y: nat): nat { if x <= y then x else y }

  function Swap(x: char, y: char): nat { if x == y then 0 else 1 }

  /** The textbook recursive definition, on last characters. */
  function Lev(a: string, b: string): nat
    decreases |a| + |b|
  {
    if |a| == 0 then |b|
    else if |b| == 0 then |a|
    else
      var (a', b') := (a[..|a| - 1], b[..|b| - 1]);
      Min(Min(Lev(a', b) + 1, Lev(a, b') + 1), Lev(a', b') + Swap(a[|a| - 1], b[|b| - 1]))
  }

  // The proofs below read Lev through these two lemmas and hide its body, which would unroll threefold.

  lemma {:induction false} LevCons(a: string, b: string, x: nat, y: nat, z: nat)
    requires a != [] && b != []
    requires x == Lev(a[..|a| - 1], b) && y == Lev(a, b[..|b| - 1]) && z == Lev(a[..|a| - 1], b[..|b| - 1])
    ensures Lev(a, b) == Min(Min(x + 1, y + 1), z + Swap(a[|a| - 1], b[|b| - 1]))
  {
  }

  lemma {:induction false} LevNil(a: string)
    ensures Lev([], a) == |a| && Lev(a, []) == |a|
  {
  }

  lemma {:induction false} LevCases(a: string, b: string)
    ensures a == [] ==> Lev(a, b) == |b|
    ensures b == [] ==> Lev(a, b) == |a|
    ensures a != [] && b != [] ==>
      var (a', b') := (a[..|a| - 1], b[..|b| - 1]);
      Lev(a, b) == Min(Min(Lev(a', b) + 1, Lev(a, b') + 1), Lev(a', b') + Swap(a[|a| - 1], b[|b| - 1]))
  {
    hide Lev;
    if a == [] {
      LevNil(b);
    } else if b == [] {
      LevNil(a);
    } else {
      var (a', b') := (a[..|a| - 1], b[..|b| - 1]);
      LevCons(a, b, Lev(a', b), Lev(a, b'), Lev(a', b'));
    }
  }

  lemma {:induction false} LevSteps(a: string, b: string)
    ensures a != [] ==> Lev(a, b) <= Lev(a[..|a| - 1], b) + 1
    ensures b != [] ==> Lev(a, b) <= Lev(a, b[..|b| - 1]) + 1
    ensures a != [] && b != [] ==> Lev(a, b) <= Lev(a[..|a| - 1], b[..|b| - 1]) + Swap(a[|a| - 1], b[|b| - 1])
  {
    hide Lev;
    LevCases(a, b);
    if a != [] {
      LevCases(a[..|a| - 1], b);
    }
    if b != [] {
      LevCases(a, b[..|b| - 1]);
    }
  }

  lemma {:induction false} LevPrefixes(a: string, b: string, i: nat, j: nat)
    requires 1 <= i <= |a| && 1 <= j <= |b|
    ensures Lev(a[..i], b[..j]) ==
      Min(Min(Lev(a[..i - 1], b[..j]) + 1, Lev(a[..i], b[..j - 1]) + 1),
          Lev(a[..i - 1], b[..j - 1]) + Swap(a[i - 1], b[j - 1]))
  {
    hide Lev;
    LevCases(a[..i], b[..j]);
    assert a[..i][..i - 1] == a[..i - 1] && b[..j][..j - 1] == b[..j - 1];
  }

  /** The first n entries of row i: entry k is the distance of a[..i] to b[..k]. */
  ghost predicate IsRow(row: seq<nat>, a: string, b: string, i: nat, n: nat)
    requires i <= |a| && n <= |b| + 1
  {
    |row| == n && forall k :: 0 <= k < n ==> row[k] == Lev(a[..i], b[..k])
  }

  /** The source keeps the previous row only. */
  method Distance(a: string, b: string) returns (far: nat)
    ensures far == Lev(a, b)
  {
    hide Lev;
    var previous: seq<nat> := seq(|b| + 1, j => j);
    forall k | 0 <= k <= |b|
      ensures previous[k] == Lev(a[..0], b[..k])
    {
      LevCases(a[..0], b[..k]);
    }
    for i := 1 to |a| + 1
      invariant IsRow(previous, a, b, i - 1, |b| + 1)
    {
      var row: seq<nat> := [i];
      LevCases(a[..i], b[..0]);
      for j := 1 to |b| + 1
        invariant IsRow(row, a, b, i, j)
      {
        var swap := previous[j - 1] + Swap(a[i - 1], b[j - 1]);
        LevPrefixes(a, b, i, j);
        row := row + [Min(Min(previous[j] + 1, row[j - 1] + 1), swap)];
      }
      previous := row;
    }
    assert a[..|a|] == a && b[..|b|] == b;
    far := previous[|b|];
  }

  // ---- Edit scripts: what the distance is meant to measure ------------------------------------

  datatype Edit = Insert(at: nat, c: char) | Delete(at: nat) | Substitute(at: nat, c: char)

  predicate Fits(e: Edit, s: string) {
    if e.Insert? then e.at <= |s| else e.at < |s|
  }

  function Apply(e: Edit, s: string): string
    requires Fits(e, s)
  {
    match e
    case Insert(at, c) => s[..at] + [c] + s[at..]
    case Delete(at) => s[..at] + s[at + 1..]
    case Substitute(at, c) => s[..at] + [c] + s[at + 1..]
  }

  /** Running a script turns a into b, one edit at a time. */
  predicate Turns(script: seq<Edit>, a: string, b: string) {
    if script == [] then a == b
    else Fits(script[0], a) && Turns(script[1..], Apply(script[0], a), b)
  }

  lemma {:induction false} TurnsThen(p: seq<Edit>, q: seq<Edit>, a: string, b: string, c: string)
    requires Turns(p, a, b) && Turns(q, b, c)
    ensures Turns(p + q, a, c)
  {
    hide Apply, Fits;
    if p == [] {
      assert p + q == q;
    } else {
      assert (p + q)[1..] == p[1..] + q;
      TurnsThen(p[1..], q, Apply(p[0], a), b, c);
    }
  }

  lemma {:induction false} ApplyBefore(e: Edit, s: string, tail: string)
    requires Fits(e, s)
    ensures Fits(e, s + tail) && Apply(e, s + tail) == Apply(e, s) + tail
  {
    assert (s + tail)[..e.at] == s[..e.at];
    assert (s + tail)[e.at..] == s[e.at..] + tail;
    if !e.Insert? {
      assert (s + tail)[e.at + 1..] == s[e.at + 1..] + tail;
    }
  }

  lemma {:induction false} TurnsBefore(script: seq<Edit>, a: string, b: string, tail: string)
    requires Turns(script, a, b)
    ensures Turns(script, a + tail, b + tail)
  {
    if script != [] {
      ApplyBefore(script[0], a, tail);
      TurnsBefore(script[1..], Apply(script[0], a), b, tail);
    }
  }

  /** A script may be followed by one more edit. */
  lemma {:induction false} OneMore(p: seq<Edit>, a: string, b: string, last: Edit, c: string)
    requires Turns(p, a, b) && Fits(last, b) && Apply(last, b) == c
    ensures Turns(p + [last], a, c)
  {
    assert [last][1..] == [];
    assert Turns([], Apply(last, b), c);
    TurnsThen(p, [last], a, b, c);
  }

  /** A script as short as the distance exists. */
  lemma {:induction false} ShortScript(a: string, b: string) returns (script: seq<Edit>)
    ensures Turns(script, a, b) && |script| == Lev(a, b)
    decreases |a| + |b|
  {
    hide Lev;
    LevCases(a, b);
    if a == [] && b == [] {
      script := [];
    } else if a == [] || (b != [] && Lev(a, b) == Lev(a, b[..|b| - 1]) + 1) {
      script := ScriptEndingInInsert(a, b);
      LevCases(a, b[..|b| - 1]);
    } else if b == [] || Lev(a, b) == Lev(a[..|a| - 1], b) + 1 {
      var rest := ShortScript(a[..|a| - 1], b);
      script := [Delete(|a| - 1)] + rest;
      assert Apply(script[0], a) == a[..|a| - 1] && script[1..] == rest;
      LevCases(a[..|a| - 1], b);
    } else {
      script := ScriptOnLast(a, b);
    }
  }

  lemma {:induction false} ScriptEndingInInsert(a: string, b: string) returns (script: seq<Edit>)
    requires b != []
    ensures Turns(script, a, b) && |script| == Lev(a, b[..|b| - 1]) + 1
    decreases |a| + |b|, 0
  {
    hide Lev, Turns;
    var b' := b[..|b| - 1];
    var most := ShortScript(a, b');
    assert Apply(Insert(|b'|, b[|b| - 1]), b') == b;
    OneMore(most, a, b', Insert(|b'|, b[|b| - 1]), b);
    script := most + [Insert(|b'|, b[|b| - 1])];
  }

  lemma {:induction false} ScriptOnLast(a: string, b: string) returns (script: seq<Edit>)
    requires a != [] && b != []
    ensures Turns(script, a, b)
    ensures |script| == Lev(a[..|a| - 1], b[..|b| - 1]) + Swap(a[|a| - 1], b[|b| - 1])
    decreases |a| + |b|, 0
  {
    hide Lev, Turns;
    var (a', b', x, y) := (a[..|a| - 1], b[..|b| - 1], a[|a| - 1], b[|b| - 1]);
    var most := ShortScript(a', b');
    TurnsBefore(most, a', b', [x]);
    assert a' + [x] == a && b' + [y] == b;
    if x == y {
      script := most;
    } else {
      var last := Substitute(|b'|, y);
      assert Fits(last, b' + [x]) && Apply(last, b' + [x]) == b' + [y];
      OneMore(most, a, b' + [x], last, b);
      script := most + [last];
    }
  }

  lemma {:induction false} LevTriangle(a: string, b: string, c: string)
    ensures Lev(a, c) <= Lev(a, b) + Lev(b, c)
    decreases |a| + |b| + |c|
  {
    hide Lev;
    LevBounds(a, b);
    LevBounds(b, c);
    LevCases(a, c);
    LevCases(a, b);
    LevCases(b, c);
    if a != [] && b != [] && c != [] {
      var (a', b', c') := (a[..|a| - 1], b[..|b| - 1], c[..|c| - 1]);
      LevSteps(a, c);
      LevTriangle(a', b, c);
      LevTriangle(a, b, c');
      LevTriangle(a, b', c);
      LevTriangle(a', b', c);
      LevTriangle(a, b', c');
      LevTriangle(a', b', c');
    } else if b == [] {
      LevBounds(a, c);
    }
  }

  lemma {:induction false} LevBounds(a: string, b: string)
    ensures Lev(a, b) <= |a| + |b| && |a| <= Lev(a, b) + |b| && |b| <= Lev(a, b) + |a|
    decreases |a| + |b|
  {
    hide Lev;
    LevCases(a, b);
    if a != [] && b != [] {
      LevBounds(a[..|a| - 1], b);
      LevBounds(a, b[..|b| - 1]);
      LevBounds(a[..|a| - 1], b[..|b| - 1]);
    }
  }

  lemma {:induction false} LevSymmetric(a: string, b: string)
    ensures Lev(a, b) == Lev(b, a)
    decreases |a| + |b|
  {
    hide Lev;
    LevCases(a, b);
    LevCases(b, a);
    if a != [] && b != [] {
      LevSymmetric(a[..|a| - 1], b);
      LevSymmetric(a, b[..|b| - 1]);
      LevSymmetric(a[..|a| - 1], b[..|b| - 1]);
    }
  }

  lemma {:induction false} LevZero(a: string, b: string)
    ensures Lev(a, b) == 0 <==> a == b
  {
    hide Lev;
    LevCases(a, b);
    if a != [] && b != [] {
      var (a', b') := (a[..|a| - 1], b[..|b| - 1]);
      LevZero(a', b');
      assert a == a' + [a[|a| - 1]] && b == b' + [b[|b| - 1]];
    }
  }

  lemma {:induction false} LevTail(a: string, b: string, tail: string)
    ensures Lev(a + tail, b + tail) <= Lev(a, b)
  {
    hide Lev;
    if tail == [] {
      assert a + tail == a && b + tail == b;
    } else {
      var tail' := tail[..|tail| - 1];
      LevTail(a, b, tail');
      LevSteps(a + tail, b + tail);
      assert (a + tail)[..|a + tail| - 1] == a + tail' && (b + tail)[..|b + tail| - 1] == b + tail';
    }
  }

  lemma {:induction false} OneMoreLast(p: string, x: char)
    ensures Lev(p + [x], p) <= 1 && Lev(p, p + [x]) <= 1
  {
    hide Lev;
    LevZero(p, p);
    LevSteps(p + [x], p);
    LevSteps(p, p + [x]);
    assert (p + [x])[..|p|] == p;
  }

  lemma {:induction false} OneOtherLast(p: string, x: char, y: char)
    ensures Lev(p + [x], p + [y]) <= 1
  {
    hide Lev;
    LevZero(p, p);
    LevSteps(p + [x], p + [y]);
    assert (p + [x])[..|p|] == p && (p + [y])[..|p|] == p;
  }

  lemma {:induction false} OneEdit(e: Edit, s: string)
    requires Fits(e, s)
    ensures Lev(s, Apply(e, s)) <= 1
  {
    hide Lev;
    var p := s[..e.at];
    match e
    case Insert(at, c) =>
      OneMoreLast(p, c);
      LevTail(p, p + [c], s[at..]);
      assert p + s[at..] == s;
    case Delete(at) =>
      OneMoreLast(p, s[at]);
      LevTail(p + [s[at]], p, s[at + 1..]);
      assert p + [s[at]] + s[at + 1..] == s;
    case Substitute(at, c) =>
      OneOtherLast(p, s[at], c);
      LevTail(p + [s[at]], p + [c], s[at + 1..]);
      assert p + [s[at]] + s[at + 1..] == s;
  }

  /** No script is shorter than the distance. */
  lemma {:induction false} NoShorterScript(script: seq<Edit>, a: string, b: string)
    requires Turns(script, a, b)
    ensures Lev(a, b) <= |script|
  {
    hide Lev;
    if script == [] {
      LevZero(a, b);
    } else {
      var s := Apply(script[0], a);
      OneEdit(script[0], a);
      NoShorterScript(script[1..], s, b);
      LevTriangle(a, s, b);
    }
  }

  /** So a bound on the distance is exactly a bound on the number of edits, whatever the bound. */
  lemma WithinEdits(a: string, b: string, bound: nat)
    ensures Lev(a, b) <= bound <==> exists script :: Turns(script, a, b) && |script| <= bound
  {
    hide Lev;
    var short := ShortScript(a, b);
    forall script | Turns(script, a, b)
      ensures Lev(a, b) <= |script|
    {
      NoShorterScript(script, a, b);
    }
  }

  // ---- closestMatches --------------------------------------------------------------------------

  datatype Task = Task(project: string, name: string)

  datatype Candidate = Candidate(task: Task, elsewhere: nat, far: nat)

  /** The comparator of the source: the same project first, then the fewest edits. */
  predicate Before(x: Candidate, y: Candidate) {
    x.elsewhere < y.elsewhere || (x.elsewhere == y.elsewhere && x.far <= y.far)
  }

  function Rate(task: Task, slug: string, name: string, lower: string -> string): Candidate {
    Candidate(task, if task.project != slug then 1 else 0, Lev(lower(name), lower(task.name)))
  }

  /** Array.prototype.filter after map: the near tasks, in the order they were listed. */
  function Near(tasks: seq<Task>, slug: string, name: string, lower: string -> string): seq<Candidate> {
    if tasks == [] then []
    else
      var c := Rate(tasks[0], slug, name, lower);
      (if c.far <= 2 then [c] else []) + Near(tasks[1..], slug, name, lower)
  }

  /** A stable sort: an element goes in front of the ones it ties with, since it came first. */
  function Place(c: Candidate, sorted: seq<Candidate>): seq<Candidate> {
    if sorted == [] || Before(c, sorted[0]) then [c] + sorted else [sorted[0]] + Place(c, sorted[1..])
  }

  function Sort(cs: seq<Candidate>): seq<Candidate> {
    if cs == [] then [] else Place(cs[0], Sort(cs[1..]))
  }

  function ClosestMatches(tasks: seq<Task>, slug: string, name: string, limit: nat,
                          lower: string -> string): seq<Candidate> {
    var ranked := Sort(Near(tasks, slug, name, lower));
    ranked[..Min(limit, |ranked|)]
  }

  predicate Sorted(cs: seq<Candidate>) {
    forall i, j :: 0 <= i < j < |cs| ==> Before(cs[i], cs[j])
  }

  /** The candidates that tie on both keys, in order; a sort is stable when it keeps each of these. */
  function Ties(cs: seq<Candidate>, elsewhere: nat, far: nat): seq<Candidate> {
    if cs == [] then []
    else (if cs[0].elsewhere == elsewhere && cs[0].far == far then [cs[0]] else []) + Ties(cs[1..], elsewhere, far)
  }

  lemma {:induction false} PlaceKeeps(c: Candidate, cs: seq<Candidate>)
    ensures multiset(Place(c, cs)) == multiset(cs) + multiset{c}
  {
    if cs != [] && !Before(c, cs[0]) {
      PlaceKeeps(c, cs[1..]);
      assert cs == [cs[0]] + cs[1..];
    }
  }

  lemma {:induction false} PlaceSorts(c: Candidate, cs: seq<Candidate>)
    requires Sorted(cs)
    ensures Sorted(Place(c, cs))
  {
    if cs != [] && !Before(c, cs[0]) {
      var tail := Place(c, cs[1..]);
      PlaceSorts(c, cs[1..]);
      PlaceKeeps(c, cs[1..]);
      forall d | d in tail
        ensures Before(cs[0], d)
      {
        assert d in multiset(tail);
      }
    }
  }

  lemma {:induction false} PlaceIsStable(c: Candidate, cs: seq<Candidate>, e: nat, f: nat)
    ensures Ties(Place(c, cs), e, f) == Ties([c] + cs, e, f)
  {
    assert ([c] + cs)[1..] == cs;
    if cs != [] && !Before(c, cs[0]) {
      PlaceIsStable(c, cs[1..], e, f);
      assert ([c] + cs[1..])[1..] == cs[1..];
      assert Place(c, cs)[1..] == Place(c, cs[1..]);
    }
  }

  lemma {:induction false} SortSorts(cs: seq<Candidate>)
    ensures Sorted(Sort(cs)) && multiset(Sort(cs)) == multiset(cs)
  {
    if cs != [] {
      SortSorts(cs[1..]);
      PlaceSorts(cs[0], Sort(cs[1..]));
      PlaceKeeps(cs[0], Sort(cs[1..]));
      assert cs == [cs[0]] + cs[1..];
    }
  }

  /** Tasks that tie keep the order in which they were listed. */
  lemma {:induction false} SortIsStable(cs: seq<Candidate>, e: nat, f: nat)
    ensures Ties(Sort(cs), e, f) == Ties(cs, e, f)
  {
    if cs != [] {
      SortIsStable(cs[1..], e, f);
      PlaceIsStable(cs[0], Sort(cs[1..]), e, f);
      assert ([cs[0]] + Sort(cs[1..]))[1..] == Sort(cs[1..]);
    }
  }

  lemma {:induction false} NearKeeps(tasks: seq<Task>, slug: string, name: string, lower: string -> string)
    ensures forall c :: c in Near(tasks, slug, name, lower) <==>
      exists i :: 0 <= i < |tasks| && c == Rate(tasks[i], slug, name, lower) && c.far <= 2
  {
    if tasks != [] {
      NearKeeps(tasks[1..], slug, name, lower);
      forall c
        ensures c in Near(tasks, slug, name, lower) <==>
          exists i :: 0 <= i < |tasks| && c == Rate(tasks[i], slug, name, lower) && c.far <= 2
      {
        if i :| 0 <= i < |tasks| && c == Rate(tasks[i], slug, name, lower) && c.far <= 2 {
          if i > 0 {
            assert tasks[1..][i - 1] == tasks[i];
          }
        }
      }
    }
  }

  /** What the page offers: only tasks within two edits of the name, best first, and a task within two
      edits is left out only when the list is full of ones that rank no worse. */
  lemma ClosestMatchesAreClosest(tasks: seq<Task>, slug: string, name: string, limit: nat, lower: string -> string, i: nat)
    requires i < |tasks|
    ensures Sorted(ClosestMatches(tasks, slug, name, limit, lower))
    ensures forall c :: c in ClosestMatches(tasks, slug, name, limit, lower) ==>
      exists script :: Turns(script, lower(name), lower(c.task.name)) && |script| <= 2
    ensures var (c, shown) := (Rate(tasks[i], slug, name, lower), ClosestMatches(tasks, slug, name, limit, lower));
      (exists script :: Turns(script, lower(name), lower(tasks[i].name)) && |script| <= 2) ==>
        c in shown || (|shown| == limit && forall d :: d in shown ==> Before(d, c))
  {
    var near := Near(tasks, slug, name, lower);
    var ranked := Sort(near);
    var shown := ClosestMatches(tasks, slug, name, limit, lower);
    SortSorts(near);
    NearKeeps(tasks, slug, name, lower);
    forall c | c in shown
      ensures exists script :: Turns(script, lower(name), lower(c.task.name)) && |script| <= 2
    {
      assert c in multiset(ranked);
      assert c in near;
      WithinEdits(lower(name), lower(c.task.name), 2);
    }
    var c := Rate(tasks[i], slug, name, lower);
    WithinEdits(lower(name), lower(tasks[i].name), 2);
    if c.far <= 2 && c !in shown {
      assert c in near && c in multiset(ranked);
      var k :| 0 <= k < |ranked| && ranked[k] == c;
      assert k >= |shown|;
    }
  }

  /** Of two tasks on offer, the first may stand in front. */
  predicate NoWorse(a: Task, b: Task, slug: string, name: string, lower: string -> string) {
    && (b.project == slug ==> a.project == slug)
    && ((a.project == slug <==> b.project == slug) ==> Lev(name, lower(a.name)) <= Lev(name, lower(b.name)))
  }

  lemma {:induction false} PrefixIsSorted(cs: seq<Candidate>, n: nat)
    requires Sorted(cs) && n <= |cs|
    ensures Sorted(cs[..n])
  {
  }

  lemma {:induction false} SortedAt(cs: seq<Candidate>, i: nat, j: nat)
    requires Sorted(cs) && i < j < |cs|
    ensures Before(cs[i], cs[j])
  {
  }

  /** The order, from the tasks alone: those of the page's own project come first, and within each part the ones
      with fewer edits; each is one of the listed tasks, and so is what was left out for them. */
  lemma {:induction false} OwnProjectFirst(tasks: seq<Task>, slug: string, name: string, limit: nat,
                                           lower: string -> string)
    ensures var shown := ClosestMatches(tasks, slug, name, limit, lower);
      && |shown| <= limit && (forall c :: c in shown ==> c.task in tasks)
      && (forall i, j :: 0 <= i < j < |shown| ==> NoWorse(shown[i].task, shown[j].task, slug, lower(name), lower))
      && forall t :: t in tasks && Lev(lower(name), lower(t.name)) <= 2 ==>
           || (exists c :: c in shown && c.task == t)
           || (|shown| == limit && forall c :: c in shown ==> NoWorse(c.task, t, slug, lower(name), lower))
  {
    hide Sorted, Sort, Near, Lev;
    var shown := ClosestMatches(tasks, slug, name, limit, lower);
    var near := Near(tasks, slug, name, lower);
    SortSorts(near);
    NearKeeps(tasks, slug, name, lower);
    assert forall c :: c in shown ==> c in multiset(Sort(near));
    assert forall c :: c in shown ==> c in near;
    assert Sorted(shown) by { PrefixIsSorted(Sort(near), |shown|); }
    forall i, j | 0 <= i < j < |shown|
      ensures NoWorse(shown[i].task, shown[j].task, slug, lower(name), lower)
    {
      assert shown[i] in shown && shown[j] in shown;
      SortedAt(shown, i, j);
    }
    forall t | t in tasks && Lev(lower(name), lower(t.name)) <= 2
      ensures || (exists c :: c in shown && c.task == t)
              || (|shown| == limit && forall c :: c in shown ==> NoWorse(c.task, t, slug, lower(name), lower))
    {
      var i :| 0 <= i < |tasks| && tasks[i] == t;
      WithinEdits(lower(name), lower(t.name), 2);
      ClosestMatchesAreClosest(tasks, slug, name, limit, lower, i);
      assert Rate(tasks[i], slug, name, lower).task == t;
    }
  }
}

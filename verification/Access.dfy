/**
 * The effective role of a user on a task, which three code paths work out for themselves: Access for one
 * task, Fleet for all of them, and the route that lists a project's tasks. What Bora proposes relies on
 * the second, and the route that later runs it on the first.
 */
module Access {

  import opened Wrappers

  datatype Result<T> = Ok(value: T) | NotFound | Forbidden

  datatype Role = NoRole | Viewer | Operator | Member | Owner {

    function Rank(): nat {
      match this
      case NoRole => 0 case Viewer => 1 case Operator => 2 case Member => 3 case Owner => 4
    }

    /** Keeps the higher role. */
    function Max(other: Role): Role { if other.Rank() > Rank() then other else this }
  }

  /** A role is enough for what asks for need exactly when it is one of these. */
  function Enough(need: Role): set<Role> {
    match need
    case NoRole => {NoRole, Viewer, Operator, Member, Owner}
    case Viewer => {Viewer, Operator, Member, Owner}
    case Operator => {Operator, Member, Owner}
    case Member => {Member, Owner}
    case Owner => {Owner}
  }

  /** One comparison decides, and the higher of two roles is one of them and enough for what either is. */
  lemma {:induction false} RolesInOrder(a: Role, b: Role)
    ensures a.Rank() >= b.Rank() <==> a in Enough(b)
    ensures a.Max(b) in {a, b} && a.Max(b) in Enough(a) * Enough(b)
  {
    match a { case NoRole => case Viewer => case Operator => case Member => case Owner => }
  }

  // ---- The store -----------------------------------------------------------------------------------------

  datatype Project = Project(id: nat, slug: string)

  datatype Task = Task(id: nat, project: nat, name: string)

  datatype User = User(id: nat, admin: bool)

  /** Rows in the order the queries return them; members and grants by their primary keys. */
  datatype Store = Store(projects: seq<Project>, tasks: seq<Task>,
                         members: map<(nat, nat), Role>, grants: map<(nat, nat), Role>)

  ghost predicate UniqueProjects(s: Store) {
    forall i, j :: 0 <= i < j < |s.projects| ==>
      s.projects[i].id != s.projects[j].id && s.projects[i].slug != s.projects[j].slug
  }

  ghost predicate UniqueTasks(s: Store) {
    && (forall i, j :: 0 <= i < j < |s.tasks| ==> s.tasks[i].id != s.tasks[j].id)
    && (forall i, j :: 0 <= i < j < |s.tasks| && s.tasks[i].project == s.tasks[j].project ==>
          s.tasks[i].name != s.tasks[j].name)
  }

  ghost predicate HasProject(s: Store, id: nat) { exists i :: 0 <= i < |s.projects| && s.projects[i].id == id }

  /** The constraints of the schema: unique keys, foreign keys, and the roles a row may hold. */
  ghost predicate Valid(s: Store) {
    && UniqueProjects(s) && UniqueTasks(s)
    && (forall t :: t in s.tasks ==> t.name != "" && HasProject(s, t.project))
    && (forall k :: k in s.members ==> s.members[k] != NoRole)
    && (forall k :: k in s.grants ==> s.grants[k] in {Viewer, Operator, Member})
  }

  function Lookup(m: map<(nat, nat), Role>, a: nat, b: nat): Role { if (a, b) in m then m[(a, b)] else NoRole }

  function MemberRole(s: Store, project: nat, user: nat): Role { Lookup(s.members, project, user) }

  /** GrantStore.ForUser, at one task. */
  function Granted(s: Store, task: nat, user: nat): Role { Lookup(s.grants, task, user) }

  /** GrantStore.AnyInProject. */
  predicate AnyInProject(s: Store, project: nat, user: nat) {
    exists i :: 0 <= i < |s.tasks| && s.tasks[i].project == project && (s.tasks[i].id, user) in s.grants
  }

  /** The first row of rows that has the wanted name; the position past the end when none has. */
  function IndexOfSlug(projects: seq<Project>, slug: string): (i: nat)
    ensures i <= |projects| && (i < |projects| ==> projects[i].slug == slug)
    ensures forall j :: 0 <= j < i ==> projects[j].slug != slug
  {
    if projects == [] || projects[0].slug == slug then 0 else 1 + IndexOfSlug(projects[1..], slug)
  }

  function IndexOfTask(tasks: seq<Task>, project: nat, name: string): (i: nat)
    ensures i <= |tasks| && (i < |tasks| ==> tasks[i].project == project && tasks[i].name == name)
    ensures forall j :: 0 <= j < i ==> tasks[j].project != project || tasks[j].name != name
  {
    if tasks == [] || (tasks[0].project == project && tasks[0].name == name) then 0
    else 1 + IndexOfTask(tasks[1..], project, name)
  }

  // ---- What all paths should agree with ------------------------------------------------------------------

  /** The higher of the user's role in the project and the one granted on the task. */
  function Effective(s: Store, actor: User, t: Task): Role {
    if actor.admin then Owner else MemberRole(s, t.project, actor.id).Max(Granted(s, t.id, actor.id))
  }

  /** An administrator owns every task; another user has the role held in the project or the one granted on the
      task, whichever is enough for more. */
  lemma {:induction false} EffectiveIsTheHigher(s: Store, actor: User, t: Task)
    ensures var role := Effective(s, actor, t);
      var held := if (t.project, actor.id) in s.members then s.members[(t.project, actor.id)] else NoRole;
      var granted := if (t.id, actor.id) in s.grants then s.grants[(t.id, actor.id)] else NoRole;
      if actor.admin then role == Owner
      else role in {held, granted} && role in Enough(held) * Enough(granted)
  {
    hide Role.Rank, Role.Max, Enough;
    RolesInOrder(MemberRole(s, t.project, actor.id), Granted(s, t.id, actor.id));
  }

  datatype FleetTask = FleetTask(task: Task, role: Role)

  /** The tasks of one project the user has a role on, in order, each with that role. */
  function Reached(s: Store, actor: User, tasks: seq<Task>, project: nat): seq<FleetTask> {
    if tasks == [] then []
    else
      var last := tasks[|tasks| - 1];
      Reached(s, actor, tasks[..|tasks| - 1], project)
      + if last.project == project && Effective(s, actor, last) != NoRole
        then [FleetTask(last, Effective(s, actor, last))] else []
  }

  // ---- ProjectService.List and Fleet ---------------------------------------------------------------------

  datatype ProjectAccess = ProjectAccess(project: Project, user: nat, role: Role, allTasks: bool)

  /** A project's place in ProjectStore.ListForUser: a grant alone lists it as a viewer's. */
  function Listed(s: Store, actor: User, p: Project): Option<ProjectAccess> {
    var member := (p.id, actor.id) in s.members;
    if actor.admin then Some(ProjectAccess(p, actor.id, Owner, true))
    else if !member && !AnyInProject(s, p.id, actor.id) then None
    else Some(ProjectAccess(p, actor.id, if member then MemberRole(s, p.id, actor.id) else Viewer, member))
  }

  function List(s: Store, actor: User, projects: seq<Project>): (accesses: seq<ProjectAccess>)
    ensures forall acc :: acc in accesses ==> acc.project in projects && Listed(s, actor, acc.project) == Some(acc)
    ensures forall p :: p in projects && Listed(s, actor, p).Some? ==> Listed(s, actor, p).value in accesses
  {
    if projects == [] then []
    else
      var l := Listed(s, actor, projects[0]);
      (if l.Some? then [l.value] else []) + List(s, actor, projects[1..])
  }

  type Grouped = map<nat, seq<FleetTask>>

  function Of(fleet: Grouped, project: nat): seq<FleetTask> { if project in fleet then fleet[project] else [] }

  /** The accesses by project. */
  method Reach(accesses: seq<ProjectAccess>) returns (reach: map<nat, ProjectAccess>)
    ensures forall acc :: acc in accesses ==> acc.project.id in reach
    ensures forall id :: id in reach ==> reach[id] in accesses && reach[id].project.id == id
  {
    reach := map[];
    for i := 0 to |accesses|
      invariant forall j :: 0 <= j < i ==> accesses[j].project.id in reach
      invariant forall id :: id in reach ==> reach[id] in accesses && reach[id].project.id == id
    {
      reach := reach[accesses[i].project.id := accesses[i]];
    }
  }

  lemma {:induction false} SameProject(s: Store, a: Project, b: Project)
    requires UniqueProjects(s) && a in s.projects && b in s.projects && a.id == b.id
    ensures a == b
  {
    var i :| 0 <= i < |s.projects| && s.projects[i] == a;
    var j :| 0 <= j < |s.projects| && s.projects[j] == b;
    if i < j {
    } else if j < i {
    }
  }

  /** What the loop of Fleet decides for a task is what its effective role says. */
  lemma {:induction false} FleetDecides(s: Store, actor: User, k: nat, reach: map<nat, ProjectAccess>)
    requires Valid(s) && k < |s.tasks|
    requires forall acc :: acc in List(s, actor, s.projects) ==> acc.project.id in reach
    requires forall id :: id in reach ==> reach[id] in List(s, actor, s.projects) && reach[id].project.id == id
    ensures var t := s.tasks[k];
      var grant := Granted(s, t.id, actor.id);
      if t.project !in reach || (!reach[t.project].allTasks && grant == NoRole) then Effective(s, actor, t) == NoRole
      else Effective(s, actor, t) == reach[t.project].role.Max(grant) && Effective(s, actor, t) != NoRole
  {
    hide UniqueProjects, UniqueTasks, List;
    var t := s.tasks[k];
    assert t in s.tasks && HasProject(s, t.project);
    var i :| 0 <= i < |s.projects| && s.projects[i].id == t.project;
    var p := s.projects[i];
    assert p in s.projects;
    var l := Listed(s, actor, p);
    if (t.id, actor.id) in s.grants {
      assert AnyInProject(s, t.project, actor.id);
      assert s.grants[(t.id, actor.id)] in {Viewer, Operator, Member};
    }
    if (p.id, actor.id) in s.members {
      assert s.members[(p.id, actor.id)] != NoRole;
    }
    if t.project in reach {
      SameProject(s, reach[t.project].project, p);
    } else {
      assert l.None?;
    }
  }

  lemma {:induction false} ReachedNothing(s: Store, actor: User, project: nat)
    ensures Reached(s, actor, s.tasks[..0], project) == []
  {
  }

  lemma {:induction false} ReachedStep(s: Store, actor: User, k: nat, project: nat)
    requires k < |s.tasks|
    ensures var t := s.tasks[k];
      Reached(s, actor, s.tasks[..k + 1], project)
        == Reached(s, actor, s.tasks[..k], project)
           + if t.project == project && Effective(s, actor, t) != NoRole then [FleetTask(t, Effective(s, actor, t))] else []
  {
    hide Effective;
    assert s.tasks[..k + 1][..k] == s.tasks[..k];
  }

  /** The fleet with one more task, when the actor has a role on it. */
  ghost function Held(s: Store, actor: User, t: Task, fleet: Grouped): Grouped {
    var role := Effective(s, actor, t);
    if role == NoRole then fleet else fleet[t.project := Of(fleet, t.project) + [FleetTask(t, role)]]
  }

  lemma {:induction false} FleetStep(s: Store, actor: User, k: nat, fleet: Grouped, project: nat)
    requires k < |s.tasks| && Of(fleet, project) == Reached(s, actor, s.tasks[..k], project)
    ensures Of(Held(s, actor, s.tasks[k], fleet), project) == Reached(s, actor, s.tasks[..k + 1], project)
  {
    hide Effective, Reached;
    ReachedStep(s, actor, k, project);
    assert Of(fleet, project) + [] == Of(fleet, project);
  }

  /** Every task the actor reaches, by project, with the role on each. */
  method Fleet(s: Store, actor: User) returns (accesses: seq<ProjectAccess>, fleet: Grouped)
    requires Valid(s)
    ensures accesses == List(s, actor, s.projects)
    ensures forall project :: Of(fleet, project) == Reached(s, actor, s.tasks, project)
  {
    hide Valid, List, Effective, Granted, Reached, Role.Max, Role.Rank;
    accesses := List(s, actor, s.projects);
    var reach := Reach(accesses);
    fleet := map[];
    forall project ensures Of(fleet, project) == Reached(s, actor, s.tasks[..0], project) {
      ReachedNothing(s, actor, project);
    }
    for k := 0 to |s.tasks|
      invariant forall project :: Of(fleet, project) == Reached(s, actor, s.tasks[..k], project)
    {
      var t := s.tasks[k];
      FleetDecides(s, actor, k, reach);
      ghost var before := fleet;
      var grant := Granted(s, t.id, actor.id);
      if t.project in reach && (reach[t.project].allTasks || grant != NoRole) {
        var role := reach[t.project].role.Max(grant);
        fleet := fleet[t.project := Of(fleet, t.project) + [FleetTask(t, role)]];
      }
      assert fleet == Held(s, actor, t, before);
      forall project ensures Of(fleet, project) == Reached(s, actor, s.tasks[..k + 1], project) {
        FleetStep(s, actor, k, before, project);
      }
    }
    assert s.tasks[..|s.tasks|] == s.tasks;
  }

  // ---- ProjectService.Access and the task list -----------------------------------------------------------

  /** A route without a task in its path has the name "". */
  function GrantedRole(s: Store, project: nat, user: nat, name: string): Role {
    if name == "" then
      if AnyInProject(s, project, user) then Viewer else NoRole
    else
      var i := IndexOfTask(s.tasks, project, name);
      if i < |s.tasks| then Granted(s, s.tasks[i].id, user) else NoRole
  }

  function Resolve(s: Store, actor: User, slug: string, name: string): Result<ProjectAccess> {
    var i := IndexOfSlug(s.projects, slug);
    if i == |s.projects| then NotFound
    else
      var p := s.projects[i];
      if actor.admin then Ok(ProjectAccess(p, actor.id, Owner, true))
      else
        var member := (p.id, actor.id) in s.members;
        var role := MemberRole(s, p.id, actor.id).Max(GrantedRole(s, p.id, actor.id, name));
        if role == NoRole then NotFound else Ok(ProjectAccess(p, actor.id, role, member))
  }

  /** What a route that needs a role answers before its handler runs. */
  function Authorize(s: Store, actor: User, need: Role, slug: string, name: string): Result<ProjectAccess> {
    var r := Resolve(s, actor, slug, name);
    if r.Ok? && r.value.role.Rank() < need.Rank() then Forbidden else r
  }

  /** TaskStore.List with the roles the handler gives. */
  function TasksOf(s: Store, acc: ProjectAccess, tasks: seq<Task>): seq<FleetTask> {
    if tasks == [] then []
    else
      var last := tasks[|tasks| - 1];
      var grant := Granted(s, last.id, acc.user);
      TasksOf(s, acc, tasks[..|tasks| - 1])
      + if last.project == acc.project.id && (acc.allTasks || (last.id, acc.user) in s.grants)
        then [FleetTask(last, acc.role.Max(grant))] else []
  }

  function ListTasks(s: Store, actor: User, slug: string): Result<seq<FleetTask>> {
    match Authorize(s, actor, Viewer, slug, "")
    case Ok(acc) => Ok(TasksOf(s, acc, s.tasks))
    case NotFound => NotFound
    case Forbidden => Forbidden
  }

  lemma {:induction false} ProjectIsFound(s: Store, p: Project)
    requires Valid(s) && p in s.projects
    ensures var i := IndexOfSlug(s.projects, p.slug); i < |s.projects| && s.projects[i] == p
  {
    var i := IndexOfSlug(s.projects, p.slug);
    var j :| 0 <= j < |s.projects| && s.projects[j] == p;
    if i < j {
    }
  }

  lemma {:induction false} TaskIsFound(s: Store, t: Task)
    requires Valid(s) && t in s.tasks
    ensures var i := IndexOfTask(s.tasks, t.project, t.name); i < |s.tasks| && s.tasks[i] == t
  {
    hide UniqueProjects, HasProject;
    var i := IndexOfTask(s.tasks, t.project, t.name);
    var j :| 0 <= j < |s.tasks| && s.tasks[j] == t;
    if i < j {
    }
  }

  /** Asked about one task, Access gives the effective role, and not found when there is none. */
  lemma {:induction false} AccessIsEffective(s: Store, actor: User, p: Project, t: Task)
    requires Valid(s) && p in s.projects && t in s.tasks && t.project == p.id
    ensures var r := Effective(s, actor, t);
      Resolve(s, actor, p.slug, t.name)
        == if r == NoRole then NotFound
           else Ok(ProjectAccess(p, actor.id, r, actor.admin || (p.id, actor.id) in s.members))
  {
    hide UniqueProjects, UniqueTasks, HasProject;
    ProjectIsFound(s, p);
    TaskIsFound(s, t);
  }

  /** Asked about a project, Access opens it exactly when List shows it, with the same role. */
  lemma {:induction false} EnvelopeIsListed(s: Store, actor: User, p: Project)
    requires Valid(s) && p in s.projects
    ensures Resolve(s, actor, p.slug, "") == match Listed(s, actor, p) case None => NotFound case Some(acc) => Ok(acc)
  {
    hide UniqueProjects, UniqueTasks, HasProject;
    ProjectIsFound(s, p);
    if (p.id, actor.id) in s.members {
      assert s.members[(p.id, actor.id)] != NoRole;
    }
  }

  /** Who can open a project: an administrator as its owner, a member in the role held there, the holder of a
      grant on one of its tasks as a viewer, and nobody else. */
  lemma {:induction false} ProjectsOpenTo(s: Store, actor: User, p: Project)
    requires Valid(s) && p in s.projects
    ensures var open := Resolve(s, actor, p.slug, "");
      if actor.admin then open == Ok(ProjectAccess(p, actor.id, Owner, true))
      else if (p.id, actor.id) in s.members then
        open == Ok(ProjectAccess(p, actor.id, s.members[(p.id, actor.id)], true))
      else if exists t :: t in s.tasks && t.project == p.id && (t.id, actor.id) in s.grants then
        open == Ok(ProjectAccess(p, actor.id, Viewer, false))
      else open == NotFound
  {
    hide Resolve, UniqueProjects, UniqueTasks, HasProject;
    EnvelopeIsListed(s, actor, p);
  }

  /** A route lets its caller through, with the access resolved, exactly when the role is enough. */
  lemma {:induction false} RoutesAsk(s: Store, actor: User, need: Role, slug: string, name: string)
    ensures Authorize(s, actor, need, slug, name)
         == match Resolve(s, actor, slug, name)
            case Ok(acc) => if acc.role in Enough(need) then Ok(acc) else Forbidden
            case NotFound => NotFound
            case Forbidden => Forbidden
    ensures (forall p :: p in s.projects ==> p.slug != slug) ==> Resolve(s, actor, slug, name) == NotFound
    ensures Resolve(s, actor, slug, name) != Forbidden
  {
    var r := Resolve(s, actor, slug, name);
    if r.Ok? {
      RolesInOrder(r.value.role, need);
    }
  }

  lemma {:induction false} TasksOfIsReached(s: Store, actor: User, acc: ProjectAccess, n: nat)
    requires Valid(s) && acc.project in s.projects && Listed(s, actor, acc.project) == Some(acc) && n <= |s.tasks|
    ensures TasksOf(s, acc, s.tasks[..n]) == Reached(s, actor, s.tasks[..n], acc.project.id)
  {
    hide UniqueProjects, UniqueTasks, HasProject;
    if n > 0 {
      TasksOfIsReached(s, actor, acc, n - 1);
      assert s.tasks[..n][..n - 1] == s.tasks[..n - 1];
      var t := s.tasks[n - 1];
      if (t.id, actor.id) in s.grants {
        assert s.grants[(t.id, actor.id)] in {Viewer, Operator, Member};
      }
      if (t.project, actor.id) in s.members {
        assert s.members[(t.project, actor.id)] != NoRole;
      }
    }
  }

  lemma {:induction false} UnlistedReachesNothing(s: Store, actor: User, p: Project, n: nat)
    requires Valid(s) && p in s.projects && Listed(s, actor, p).None? && n <= |s.tasks|
    ensures Reached(s, actor, s.tasks[..n], p.id) == []
  {
    hide UniqueProjects, UniqueTasks, HasProject;
    if n > 0 {
      UnlistedReachesNothing(s, actor, p, n - 1);
      assert s.tasks[..n][..n - 1] == s.tasks[..n - 1];
      assert !AnyInProject(s, p.id, actor.id);
    }
  }

  /** The task-list route and Fleet show the same tasks of a project with the same roles; where the route
      answers not found, Fleet shows none. */
  lemma {:induction false} TheListIsTheFleets(s: Store, actor: User, p: Project)
    requires Valid(s) && p in s.projects
    ensures match ListTasks(s, actor, p.slug)
      case Ok(tasks) => tasks == Reached(s, actor, s.tasks, p.id)
      case _ => ListTasks(s, actor, p.slug) == NotFound && Reached(s, actor, s.tasks, p.id) == []
  {
    hide UniqueProjects, UniqueTasks, HasProject;
    EnvelopeIsListed(s, actor, p);
    assert s.tasks[..|s.tasks|] == s.tasks;
    var l := Listed(s, actor, p);
    if l.Some? {
      if (p.id, actor.id) in s.members {
        assert s.members[(p.id, actor.id)] != NoRole;
      }
      TasksOfIsReached(s, actor, l.value, |s.tasks|);
    } else {
      UnlistedReachesNothing(s, actor, p, |s.tasks|);
    }
  }

  lemma {:induction false} ReachedHas(s: Store, actor: User, tasks: seq<Task>, project: nat, t: Task, r: Role)
    ensures FleetTask(t, r) in Reached(s, actor, tasks, project)
       <==> t in tasks && t.project == project && r == Effective(s, actor, t) && r != NoRole
  {
    hide Effective;
    if tasks != [] {
      ReachedHas(s, actor, tasks[..|tasks| - 1], project, t, r);
      assert tasks == tasks[..|tasks| - 1] + [tasks[|tasks| - 1]];
    }
  }

  /** One role: Fleet holds the task with role r exactly when Access on it yields r, and exactly when the
      project's task list shows it with r. */
  lemma {:induction false} OneRole(s: Store, actor: User, p: Project, t: Task, r: Role)
    requires Valid(s) && p in s.projects && t in s.tasks && t.project == p.id
    ensures var access := Resolve(s, actor, p.slug, t.name);
      var listed := ListTasks(s, actor, p.slug);
      var held := FleetTask(t, r) in Reached(s, actor, s.tasks, p.id);
      && (held <==> access.Ok? && access.value.role == r)
      && (held <==> listed.Ok? && FleetTask(t, r) in listed.value)
  {
    hide Valid, Resolve, ListTasks, Reached, Effective;
    AccessIsEffective(s, actor, p, t);
    TheListIsTheFleets(s, actor, p);
    ReachedHas(s, actor, s.tasks, p.id, t, r);
  }

  // ---- What Bora proposes --------------------------------------------------------------------------------

  const MAX_ACTIONS := 10

  datatype Op = TaskStart | TaskStop | TaskRestart | TaskCreate | TaskDelete | TaskUpdate | TaskEnv
              | MemberAdd | MemberChange | MemberRemove | GrantAdd | GrantRemove | ProjectUpdate | ProjectDelete

  /** The role core.BoraOps says an op needs. */
  function Need(op: Op): Role {
    match op
    case TaskStart => Operator case TaskStop => Operator case TaskRestart => Operator
    case TaskCreate => Member case TaskDelete => Member case TaskUpdate => Member case TaskEnv => Member
    case _ => Owner
  }

  datatype Route = Route(access: Role, named: bool)

  /** The route that runs an op: the access its table row asks for, and whether its path names the task. */
  function RouteOf(op: Op): Route {
    match op
    case TaskCreate => Route(Member, false)
    case TaskStart => Route(Operator, true) case TaskStop => Route(Operator, true) case TaskRestart => Route(Operator, true)
    case TaskUpdate => Route(Member, true) case TaskEnv => Route(Member, true) case TaskDelete => Route(Member, true)
    case MemberAdd => Route(Owner, false) case MemberChange => Route(Owner, false) case MemberRemove => Route(Owner, false)
    case GrantAdd => Route(Owner, true) case GrantRemove => Route(Owner, true)
    case ProjectUpdate => Route(Owner, false) case ProjectDelete => Route(Owner, false)
  }

  predicate NamesATask(op: Op) {
    op in {TaskStart, TaskStop, TaskRestart, TaskCreate, TaskDelete, TaskUpdate, TaskEnv, GrantAdd, GrantRemove}
  }

  datatype Action = Action(op: Op, project: string, task: string, user: nat)

  /** Whether the route that runs an action lets the actor through. */
  predicate RouteAllows(s: Store, actor: User, a: Action) {
    var route := RouteOf(a.op);
    Authorize(s, actor, route.access, a.project, if route.named then a.task else "").Ok?
  }

  /** What each op asks of the actor: on the task, to start, stop or restart it the operator's role and to update
      or delete it the member's; in the project, to create one the member's role; and the owner's for the rest. */
  lemma {:induction false} OpsAsk(s: Store, actor: User, a: Action)
    ensures var onTask := Resolve(s, actor, a.project, a.task);
      var inProject := Resolve(s, actor, a.project, "");
      match a.op
      case TaskStart | TaskStop | TaskRestart =>
        RouteAllows(s, actor, a) <==> onTask.Ok? && onTask.value.role in {Operator, Member, Owner}
      case TaskUpdate | TaskEnv | TaskDelete =>
        RouteAllows(s, actor, a) <==> onTask.Ok? && onTask.value.role in {Member, Owner}
      case TaskCreate =>
        RouteAllows(s, actor, a) <==> inProject.Ok? && inProject.value.role in {Member, Owner}
      case GrantAdd | GrantRemove =>
        RouteAllows(s, actor, a) <==> onTask.Ok? && onTask.value.role == Owner
      case MemberAdd | MemberChange | MemberRemove | ProjectUpdate | ProjectDelete =>
        RouteAllows(s, actor, a) <==> inProject.Ok? && inProject.value.role == Owner
  {
    hide Resolve, Authorize;
    var route := RouteOf(a.op);
    RoutesAsk(s, actor, route.access, a.project, if route.named then a.task else "");
  }

  /** A request of the model: an op when its name is one, the project and task it names, whether the task's
      name is well formed and an image is known to create it from, and what the checks of the other fields
      make of them: the user they resolve to, or a refusal. */
  datatype Proposal = Proposal(op: Option<Op>, project: string, task: string, nameOk: bool, imageOk: bool,
                               fields: Option<nat>)

  function IndexOfAccess(members: seq<ProjectAccess>, slug: string): (i: nat)
    ensures i <= |members| && (i < |members| ==> members[i].project.slug == slug)
    ensures forall j :: 0 <= j < i ==> members[j].project.slug != slug
  {
    if members == [] || members[0].project.slug == slug then 0 else 1 + IndexOfAccess(members[1..], slug)
  }

  function IndexOfName(tasks: seq<FleetTask>, name: string): (i: nat)
    ensures i <= |tasks| && (i < |tasks| ==> tasks[i].task.name == name)
    ensures forall j :: 0 <= j < i ==> tasks[j].task.name != name
  {
    if tasks == [] || tasks[0].task.name == name then 0 else 1 + IndexOfName(tasks[1..], name)
  }

  /** The role on what a proposal names, or nothing when it names it wrongly. */
  function RoleOn(acc: ProjectAccess, tasks: seq<FleetTask>, op: Op, p: Proposal): Option<Role> {
    if !NamesATask(op) then Some(acc.role)
    else
      var i := IndexOfName(tasks, p.task);
      var found := i < |tasks|;
      if !p.nameOk then None
      else if op == TaskCreate then (if found || !p.imageOk then None else Some(acc.role))
      else if found then Some(tasks[i].role)
      else None
  }

  class Bora {
    const actor: User
    const members: seq<ProjectAccess>
    const tasks: Grouped
    var tainted: bool
    var read: seq<nat>
    var actions: seq<Action>

    /** It was made from the store: it serves projects whose members the actor is one of, and sees their
        tasks as Fleet gives them. */
    ghost predicate MadeFrom(s: Store) {
      && Valid(s)
      && (forall acc :: acc in members ==> acc in List(s, actor, s.projects) && acc.allTasks)
      && forall project :: Of(tasks, project) == Reached(s, actor, s.tasks, project)
    }

    /** Every button shown runs, as far as roles go, while the store is as it was; there are at most ten,
        and no two for the same change. */
    ghost predicate Offers(s: Store)
      reads this
    {
      && |actions| <= MAX_ACTIONS
      && (forall i :: 0 <= i < |actions| ==> RouteAllows(s, actor, actions[i]))
      && (forall i, j :: 0 <= i < j < |actions| ==> actions[i] != actions[j])
    }

    constructor (s: Store, actor: User, served: seq<ProjectAccess>, tasks: Grouped)
      requires Valid(s)
      requires forall acc :: acc in served ==> acc in List(s, actor, s.projects) && acc.allTasks
      requires forall project :: Of(tasks, project) == Reached(s, actor, s.tasks, project)
      ensures MadeFrom(s) && Offers(s) && actions == [] && !tainted && this.actor == actor && members == served
    {
      this.actor, members, this.tasks := actor, served, tasks;
      tainted, read, actions := false, [], [];
    }

    /** Offers a change, or refuses it. What is offered the route lets through; and what is refused for its
        role alone the route would refuse too. */
    method Propose(p: Proposal, ghost s: Store) returns (ok: bool)
      requires MadeFrom(s) && Offers(s)
      modifies this`read, this`actions
      ensures Offers(s)
      ensures ok == (p.op.Some? && old(Accepts(p)) && RouteAllows(s, actor, ActionOf(p)))
      ensures actions == if ok then old(actions) + [ActionOf(p)] else old(actions)
      ensures ok ==>
                var action := actions[|actions| - 1];
                && action.op == p.op.value && action.project == p.project && p.fields == Some(action.user)
                && action.task == if action.op in {MemberAdd, MemberChange, MemberRemove, ProjectUpdate, ProjectDelete}
                                  then "" else p.task
    {
      hide Valid, List, Reached, RouteAllows, RoleOn;
      if p.op.None? {
        return false;
      }
      var op := p.op.value;
      if tainted && op !in {TaskStart, TaskStop, TaskRestart} {
        return false;
      }
      var i := IndexOfAccess(members, p.project);
      if i == |members| {
        return false;
      }
      var acc := members[i];
      read := read + [acc.project.id];
      if |actions| >= MAX_ACTIONS {
        return false;
      }
      var role := RoleOn(acc, Of(tasks, acc.project.id), op, p);
      if role.None? {
        return false;
      }
      RoleIsTheRoutes(s, this, p, acc);
      if role.value.Rank() < Need(op).Rank() || p.fields.None? {
        return false;
      }
      var action := ActionOf(p);
      if action in actions {
        return false;
      }
      actions := actions + [action];
      ok := true;
    }

    function ActionOf(p: Proposal): Action
      requires p.op.Some?
    {
      Action(p.op.value, p.project, if NamesATask(p.op.value) then p.task else "",
             if p.fields.Some? then p.fields.value else 0)
    }

    /** All that a proposal must meet but for the actor's role. */
    predicate Accepts(p: Proposal)
      reads this
      requires p.op.Some?
    {
      var i := IndexOfAccess(members, p.project);
      && (tainted ==> p.op.value in {TaskStart, TaskStop, TaskRestart})
      && i < |members| && |actions| < MAX_ACTIONS
      && RoleOn(members[i], Of(tasks, members[i].project.id), p.op.value, p).Some?
      && p.fields.Some? && ActionOf(p) !in actions
    }
  }

  /** What a proposal must meet, in full: nothing but start, stop and restart once tainted; at most ten; a served
      project; a well-formed name, of a task that is there, or, to create one, that is not, with an image; fields
      in order; and no button for it yet. */
  lemma {:induction false} AcceptsExactly(b: Bora, p: Proposal)
    requires p.op.Some?
    ensures var op := p.op.value;
      b.Accepts(p) <==>
      && (b.tainted ==> op == TaskStart || op == TaskStop || op == TaskRestart)
      && |b.actions| < 10 && p.fields.Some?
      && (forall a :: a in b.actions && a.op == op && a.project == p.project && a.user == p.fields.value ==>
            a.task != if op in {MemberAdd, MemberChange, MemberRemove, ProjectUpdate, ProjectDelete} then "" else p.task)
      && exists i :: 0 <= i < |b.members| && b.members[i].project.slug == p.project
           && (forall j :: 0 <= j < i ==> b.members[j].project.slug != p.project)
           && var here := Of(b.tasks, b.members[i].project.id);
           match op
           case MemberAdd | MemberChange | MemberRemove | ProjectUpdate | ProjectDelete => true
           case TaskCreate => p.nameOk && p.imageOk && forall t :: t in here ==> t.task.name != p.task
           case _ => p.nameOk && exists t :: t in here && t.task.name == p.task
  {
    hide Of;
    var i := IndexOfAccess(b.members, p.project);
    if i < |b.members| {
      NamedThere(b.members[i], Of(b.tasks, b.members[i].project.id), p.op.value, p);
    }
    NoButtonYet(b, p);
    hide RoleOn, Bora.ActionOf;
    forall k | 0 <= k < |b.members| && b.members[k].project.slug == p.project
            && forall j :: 0 <= j < k ==> b.members[j].project.slug != p.project
      ensures k == i
    {
    }
  }

  lemma {:induction false} NamedThere(acc: ProjectAccess, here: seq<FleetTask>, op: Op, p: Proposal)
    ensures RoleOn(acc, here, op, p).Some? <==>
              match op
              case MemberAdd | MemberChange | MemberRemove | ProjectUpdate | ProjectDelete => true
              case TaskCreate => p.nameOk && p.imageOk && forall t :: t in here ==> t.task.name != p.task
              case _ => p.nameOk && exists t :: t in here && t.task.name == p.task
  {
    var i := IndexOfName(here, p.task);
    if i < |here| {
      assert here[i] in here;
    } else {
      forall t | t in here ensures t.task.name != p.task {
        var j :| 0 <= j < |here| && here[j] == t;
      }
    }
  }

  lemma {:induction false} NoButtonYet(b: Bora, p: Proposal)
    requires p.op.Some?
    ensures p.fields.Some? ==>
              (b.ActionOf(p) !in b.actions <==>
               forall a :: a in b.actions && a.op == p.op.value && a.project == p.project && a.user == p.fields.value ==>
                 a.task != if p.op.value in {MemberAdd, MemberChange, MemberRemove, ProjectUpdate, ProjectDelete} then ""
                           else p.task)
  {
    if p.fields.Some? {
      var action := b.ActionOf(p);
      forall a | a in b.actions && a.op == action.op && a.project == action.project && a.user == action.user
        ensures a == action <==> a.task == action.task
      {
      }
    }
  }

  /** On a well-named subject of a served project, the role Bora compares passes exactly when the route's
      check does. */
  lemma {:induction false} RoleIsTheRoutes(s: Store, b: Bora, p: Proposal, acc: ProjectAccess)
    requires b.MadeFrom(s) && p.op.Some? && acc in b.members && acc.project.slug == p.project
    requires RoleOn(acc, Of(b.tasks, acc.project.id), p.op.value, p).Some?
    ensures var role := RoleOn(acc, Of(b.tasks, acc.project.id), p.op.value, p).value;
      role.Rank() >= Need(p.op.value).Rank() <==> RouteAllows(s, b.actor, b.ActionOf(p))
  {
    hide Valid, List, Resolve, RoleOn, Authorize;
    var op := p.op.value;
    var project := acc.project;
    assert acc in List(s, b.actor, s.projects) && project in s.projects;
    if RouteOf(op).named {
      HeldRole(s, b.actor, project, Of(b.tasks, project.id), op, p, acc);
    } else {
      EnvelopeIsListed(s, b.actor, project);
      NoTaskNamed(acc, Of(b.tasks, project.id), op, p);
    }
    hide Listed, Of;
    AuthorizeIs(s, b.actor, RouteOf(op).access, p.project, if RouteOf(op).named then b.ActionOf(p).task else "");
  }

  lemma {:induction false} AuthorizeIs(s: Store, actor: User, need: Role, slug: string, name: string)
    ensures var r := Resolve(s, actor, slug, name);
      Authorize(s, actor, need, slug, name).Ok? <==> r.Ok? && r.value.role.Rank() >= need.Rank()
  {
    hide Resolve;
  }

  lemma {:induction false} NoTaskNamed(acc: ProjectAccess, tasks: seq<FleetTask>, op: Op, p: Proposal)
    requires !RouteOf(op).named && RoleOn(acc, tasks, op, p).Some?
    ensures RoleOn(acc, tasks, op, p).value == acc.role
  {
  }

  lemma {:induction false} HeldRole(s: Store, actor: User, project: Project, tasks: seq<FleetTask>, op: Op, p: Proposal,
                                    acc: ProjectAccess)
    requires Valid(s) && project in s.projects && tasks == Reached(s, actor, s.tasks, project.id)
    requires RouteOf(op).named && RoleOn(acc, tasks, op, p).Some?
    ensures var access := Resolve(s, actor, project.slug, p.task);
      access.Ok? && access.value.role == RoleOn(acc, tasks, op, p).value
    ensures NamesATask(op)
  {
    hide Valid, Reached, Resolve, Effective;
    var held := tasks[IndexOfName(tasks, p.task)];
    assert held in tasks && held == FleetTask(held.task, held.role);
    ReachedHas(s, actor, s.tasks, project.id, held.task, held.role);
    AccessIsEffective(s, actor, project, held.task);
  }
}

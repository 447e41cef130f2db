/**
 * The lifecycle of one task (task_service.go over runtime.go): three stores that can disagree, namely
 * the database row, Docker's containers and the proxy's registry, and calls that may fail anywhere.
 *
 * The task lock makes the operations on one task sequential, and every operation touches only its own
 * row, the containers carrying its labels and its site, so one task is the whole state. A call that
 * reports an error may or may not have taken effect, and containers may vanish at any call that looks at
 * containers.
 * The server may be killed during any call; what is left of the operation then changes nothing that
 * lasts, and the server is started again before the next request.
 */
module Lifecycle {

  import opened Wrappers

  datatype Status = Creating | Starting | Running | Stopped | Error | Unknown

  /** What a container is created from: the container columns of a row (Task.Spec). */
  datatype Config = Config(image: string, port: int, labels: map<string, string>,
                           env: map<string, string>, volumes: map<string, string>)

  datatype Meta = Meta(description: string, note: string, devStatus: string, formFactor: string)

  datatype Route = Route(path: string, url: string, anyCert: bool)

  /** Container ids are never reused; 0 stands for the empty id. */
  type Id = nat

  datatype Row = Row(config: Config, meta: Meta, routes: seq<Route>, hash: string,
                     status: Status, container: Id, ip: string, pending: bool)

  datatype Hop = Hop(host: string, port: int)

  /** The fields an update sends; routes are clean and hash is of the password sent. */
  datatype Changes = Changes(meta: Option<Meta>, routes: Option<seq<Route>>, hash: Option<string>,
                             image: Option<string>, port: Option<int>, labels: Option<map<string, string>>,
                             env: Option<map<string, string>>, volumes: Option<map<string, string>>)

  datatype Answer = Ok | NotFound | Failed

  /** What Docker says of a container it has. */
  datatype Live = Live(status: Status, ip: string)

  datatype Inspection = Absent | Present(live: Live)

  datatype Request =
    | CreateTask(config: Config, meta: Meta, valid: bool) | StartTask | StopTask | RestartTask | DeleteTask
    | UpdateTask(changes: Changes, recreate: bool, valid: bool) | DeployImage(image: string, valid: bool) | Reboot

  predicate ValidPort(c: Config) { 1 <= c.port <= 65535 }

  function Or<T>(choice: Option<T>, otherwise: T): T {
    if choice.Some? then choice.value else otherwise
  }

  function Applied(c: Config, changes: Changes): (r: Config)
    ensures r.image == match changes.image case Some(image) => image case None => c.image
    ensures r.port == match changes.port case Some(port) => port case None => c.port
    ensures r.labels == match changes.labels case Some(labels) => labels case None => c.labels
    ensures r.env == match changes.env case Some(env) => env case None => c.env
    ensures r.volumes == match changes.volumes case Some(volumes) => volumes case None => c.volumes
  {
    Config(Or(changes.image, c.image), Or(changes.port, c.port), Or(changes.labels, c.labels), Or(changes.env, c.env),
           Or(changes.volumes, c.volumes))
  }

  /** A pending row stops being pending, and a row changes what it should run, only together with a
      container made during the call, that is with an id not handed out before. */
  predicate AppliedByNew(before: Option<Row>, after: Option<Row>, firstNew: Id) {
    && before.Some? && after.Some? && !after.value.pending
    && (before.value.pending || before.value.config != after.value.config)
    ==> after.value.container >= firstNew
  }

  /** What an operation that sends no changes leaves alone. */
  predicate SameSettings(before: Option<Row>, after: Option<Row>) {
    && (before.Some? <==> after.Some?)
    && (before.Some? && after.Some? ==>
          before.value.(status := after.value.status, container := after.value.container, ip := after.value.ip,
                        pending := after.value.pending)
          == after.value)
  }

  class Task {
    var row: Option<Row>
    /** Docker: what each container was created from, and how it is doing. */
    var containers: map<Id, Config>
    var docker: map<Id, Live>
    var nextId: Id
    var hop: Option<Hop>
    var routes: seq<Route>
    var lock: string
    /** No store write has failed, no deletion stopped midway and no operation was killed since the last
        clean reconcile. */
    ghost var clean: bool
    /** The server was killed and has not been started again. */
    var down: bool
    /** The images pulled and the containers asked to stop so far, in order, and the last thing Docker
        answered about a container, if it did. */
    ghost var pulls: seq<string>
    ghost var stops: seq<Id>
    ghost var seen: Option<Inspection>
    /** How many calls have answered with an error; a container that does not get ready counts as one. */
    ghost var faults: nat

    // ---- Invariants ------------------------------------------------------------------------------

    ghost predicate RowFits(r: Row)
      reads this`containers, this`nextId
    {
      && r.container < nextId
      && ValidPort(r.config)
      && (!r.pending && r.container in containers ==> containers[r.container] == r.config)
    }

    /** No configuration drift: a row that is not pending and names an existing container names one that
        was created from exactly the row's configuration. A task never has two containers. */
    ghost predicate Safe()
      reads this`row, this`containers, this`docker, this`nextId, this`clean, this`down
    {
      && nextId > 0 && (down ==> !clean)
      && (forall id :: id in containers ==> 0 < id < nextId && id in docker)
      && (forall a, b :: a in containers && b in containers ==> a == b)
      && (row.Some? ==> RowFits(row.value))
    }

    /** Requests to a running task go to its address. */
    ghost predicate HopAgrees()
      reads this`row, this`hop
    {
      row.Some? && row.value.status == Running && row.value.ip != "" ==>
        hop == Some(Hop(row.value.ip, row.value.config.port))
    }

    /** The registry serves what the row says, and nothing for a task without a row. */
    ghost predicate Agree()
      reads this`row, this`hop, this`routes, this`lock
    {
      && HopAgrees()
      && (if row.Some? then routes == row.value.routes && lock == row.value.hash
          else hop == None && routes == [] && lock == "")
    }

    ghost predicate Inv()
      reads this
    {
      Safe() && (clean ==> Agree())
    }

    constructor ()
      ensures Inv() && row == None && clean
    {
      row, containers, docker, nextId := None, map[], map[], 1;
      hop, routes, lock, clean, down := None, [], "", true, false;
      pulls, stops, seen, faults := [], [], None, 0;
    }

    /** A call to Docker leaves what is known of the stores alone, unless the server is killed at it. */
    twostate predicate Kept()
      reads this`clean, this`down
    {
      (clean ==> old(clean)) && (old(down) ==> down) && (!down ==> clean == old(clean))
    }

    twostate predicate Counted(ok: bool)
      reads this`faults
    {
      faults == old(faults) + if ok then 0 else 1
    }

    /** The containers are those of before, or some of them. */
    twostate predicate Fewer()
      reads this`containers
    {
      && containers.Keys <= old(containers.Keys)
      && forall c :: c in containers ==> containers[c] == old(containers)[c]
    }

    /** A call answers with an error, and the server may be killed at it. */
    method Fail()
      requires Safe()
      modifies this`clean, this`down, this`faults
      ensures Safe() && Kept() && Counted(false)
    {
      faults := faults + 1;
      if * {
        down, clean := true, false;
      }
    }

    // ---- Calls to Docker: each may fail, with or without effect ----------------------------------

    /** What Docker knows of a container. */
    function Truth(id: Id): Inspection
      reads this`containers, this`docker
      requires id in containers ==> id in docker
    {
      if id in containers then Present(docker[id]) else Absent
    }

    /** Containers may be gone or doing otherwise by the time a call looks; an id keeps its configuration
        for life. */
    method Lose()
      requires Safe()
      modifies this`containers, this`docker
      ensures Safe() && Fewer()
    {
      if * {
        containers := map[];
      }
      var now: map<Id, Live> := *;
      docker := map id | id in docker :: if id in now then now[id] else docker[id];
    }

    method Pull(image: string) returns (ok: bool)
      requires Safe()
      modifies this`pulls, this`clean, this`down, this`faults
      ensures Safe() && Kept() && Counted(ok)
      ensures pulls == (if ok then old(pulls) + [image] else old(pulls)) && (ok ==> !down)
    {
      ok := *;
      ok := ok && !down;
      if ok {
        pulls := pulls + [image];
      } else {
        Fail();
      }
    }

    method RuntimeStart(id: Id) returns (ok: bool)
      requires Safe()
      modifies this`containers, this`docker, this`clean, this`down, this`faults
      ensures Safe() && Fewer() && Kept() && Counted(ok)
      ensures ok ==> !down && id in containers
    {
      Lose();
      ok := *;
      ok := ok && !down && id in containers;
      if !ok {
        Fail();
      }
    }

    method RuntimeStop(id: Id) returns (answer: Answer)
      requires Safe()
      modifies this`containers, this`docker, this`clean, this`down, this`faults, this`stops
      ensures Safe() && Fewer() && Kept() && Counted(answer == Ok) && stops == old(stops) + [id]
      ensures answer == Ok ==> !down && id in containers && docker[id] == Live(Stopped, "")
    {
      Lose();
      answer := *;
      stops := stops + [id];
      if down {
        answer := Failed;
      } else if id !in containers && answer == Ok {
        answer := NotFound;
      }
      if answer == Ok {
        docker := docker[id := Live(Stopped, "")];
      } else {
        Fail();
      }
    }

    method RuntimeRemove(id: Id) returns (answer: Answer)
      requires Safe()
      modifies this`containers, this`docker, this`clean, this`down, this`faults
      ensures Safe() && Fewer() && Kept() && Counted(answer == Ok)
      ensures answer != Failed ==> !down && id !in containers
    {
      Lose();
      answer := *;
      var effect: bool := *;
      if !down && (answer == Ok || effect) {
        containers := containers - {id};
      }
      if down || id in containers {
        answer := Failed;
      }
      if answer == NotFound {
        faults := faults + 1;
      } else if answer == Failed {
        Fail();
      }
    }

    /** Answers with the truth. */
    method Inspect(id: Id) returns (ok: bool, state: Inspection)
      requires Safe()
      modifies this`containers, this`docker, this`clean, this`down, this`faults, this`seen
      ensures Safe() && Fewer() && Kept() && Counted(ok)
      ensures ok ==> !down && state == Truth(id)
      ensures seen == if ok then Some(state) else None
    {
      Lose();
      ok := *;
      ok := ok && !down;
      state := Truth(id);
      seen := if ok then Some(state) else None;
      if !ok {
        Fail();
      }
    }

    /** The call that makes a container, which is not started yet. */
    method RuntimeMake(config: Config) returns (ok: bool, id: Id)
      requires Safe() && containers == map[]
      modifies this`containers, this`docker, this`nextId, this`clean, this`down, this`faults
      ensures Safe() && nextId >= old(nextId) && Kept() && Counted(ok)
      ensures ok ==> !down && old(nextId) <= id < nextId && id in containers && containers[id] == config
    {
      id := 0;
      ok := *;
      ok := ok && !down;
      var effect: bool := *;
      if ok || (!down && effect) {
        id := nextId;
        containers, docker := map[id := config], docker[id := Live(Starting, "")];
        nextId := nextId + 1;
      }
      if !ok {
        Fail();
      }
    }

    /** Runtime.Create: the name of the task's container may be taken, by its own superseded container
        (which is removed first) or by a foreign one (which is refused). */
    method RuntimeCreate(config: Config) returns (ok: bool, id: Id)
      requires Safe()
      modifies this`containers, this`docker, this`nextId, this`clean, this`down, this`faults
      ensures Safe() && nextId >= old(nextId) && Kept()
      ensures ok ==> !down && old(nextId) <= id < nextId && id in containers && containers[id] == config
      ensures faults >= old(faults) && (!ok ==> faults > old(faults))
    {
      id := 0;
      Lose();
      ok := *;
      if !ok {
        Fail();
        return;
      }
      if holder :| holder in containers {
        var removed := RuntimeRemove(holder);
        if removed == Failed {
          ok := false;
          return;
        }
      }
      assert containers == map[];
      ok, id := RuntimeMake(config);
    }

    /** Runtime.Recreate: stop, remove, create; a container already gone does not stop it. */
    method Recreate(oldId: Id, config: Config) returns (ok: bool, id: Id)
      requires Safe()
      modifies this`containers, this`docker, this`nextId, this`clean, this`down, this`faults, this`stops
      ensures Safe() && nextId >= old(nextId) && Kept()
      ensures ok ==> !down && old(nextId) <= id < nextId && id in containers && containers[id] == config
      ensures faults >= old(faults) && (!ok ==> faults > old(faults))
      ensures stops == if oldId == 0 then old(stops) else old(stops) + [oldId]
    {
      id := 0;
      if oldId != 0 {
        var stopped := RuntimeStop(oldId);
        if stopped == Failed {
          return false, 0;
        }
        var removed := RuntimeRemove(oldId);
        if removed == Failed {
          return false, 0;
        }
      }
      ok, id := RuntimeCreate(config);
    }

    // ---- Calls to the row store ------------------------------------------------------------------

    /** The first call of an operation; a server killed here has not begun it. */
    method Get() returns (found: Option<Row>)
      modifies this`faults
      ensures found.Some? ==> found == row
      ensures faults == old(faults) ==> found == row
      ensures faults >= old(faults)
    {
      var ok: bool := *;
      if !ok {
        faults := faults + 1;
      }
      found := if ok then row else None;
    }

    method StoreInsert(r: Row) returns (ok: bool)
      requires Safe() && RowFits(r)
      modifies this`row, this`clean, this`down, this`faults
      ensures Safe() && (clean ==> old(clean))
      ensures old(row).Some? ==> !ok && row == old(row)
      ensures ok ==> !down && row == Some(r) && clean == old(clean)
      ensures !ok ==> (row == old(row) && (!down ==> clean == old(clean))) || (row == Some(r) && !clean)
      ensures Counted(ok)
    {
      ok := *;
      var effect: bool := *;
      ok := ok && !down && row.None?;
      if ok || (!down && row.None? && effect) {
        row := Some(r);
        clean := clean && ok;
      }
      if !ok {
        Fail();
      }
    }

    /** The row written must fit what exists; a write that reports an error may have happened. */
    method StoreUpdate(r: Row) returns (ok: bool)
      requires Safe() && row.Some? && RowFits(r)
      modifies this`row, this`clean, this`down, this`faults
      ensures Safe() && row.Some? && (clean ==> old(clean))
      ensures ok ==> !down && row == Some(r) && clean == old(clean)
      ensures !ok ==> (row == old(row) || row == Some(r)) && !clean
      ensures old(down) ==> !ok && row == old(row)
      ensures Counted(ok)
    {
      ok := *;
      var effect: bool := *;
      ok := ok && !down;
      if ok || (!down && effect) {
        row := Some(r);
      }
      clean := clean && ok;
      if !ok {
        Fail();
      }
    }

    method StoreDelete() returns (ok: bool)
      requires Safe()
      modifies this`row, this`clean, this`down, this`faults
      ensures Safe() && (clean ==> old(clean))
      ensures ok ==> !down && row == None
      ensures !ok ==> row == old(row) || row == None
      ensures Counted(ok)
    {
      ok := *;
      var effect: bool := *;
      ok := ok && !down;
      if ok || (!down && effect) {
        row := None;
      }
      if !ok {
        Fail();
      }
    }

    // ---- The registry: in memory; Register refuses only a blank host or a bad port ---------------

    method Register(host: string, port: int) returns (ok: bool)
      modifies this`hop
      ensures ok == (host != "" && 1 <= port <= 65535)
      ensures hop == if ok then Some(Hop(host, port)) else old(hop)
    {
      ok := host != "" && 1 <= port <= 65535;
      if ok {
        hop := Some(Hop(host, port));
      }
    }

    // ---- Shared ends of operations ---------------------------------------------------------------

    method FailTask(r: Row) returns (task: Option<Row>)
      requires Safe() && row.Some? && RowFits(r)
      modifies this`row, this`clean, this`down, this`faults
      ensures Safe() && row.Some? && (clean ==> old(clean)) && faults >= old(faults)
      ensures task == Some(r.(status := Error))
      ensures clean ==> row == task
      ensures row == old(row) || row == task
      ensures faults == old(faults) ==> row == task
    {
      var ok := StoreUpdate(r.(status := Error));
      task := Some(r.(status := Error));
    }

    /** waitReady polls until the container is reachable, has stopped or failed, or it is late. */
    method WaitReady(id: Id) returns (ready: bool, ip: string, late: bool)
      requires Safe()
      modifies this`containers, this`docker, this`clean, this`down, this`faults, this`seen
      ensures Safe() && Fewer() && (clean ==> old(clean))
      ensures ready ==> ip != "" && id in containers && docker[id] == Live(Running, ip)
      ensures !ready ==> late || (seen.Some? && seen.value.Present? && seen.value.live.status in {Error, Stopped})
      ensures faults >= old(faults) && (!ready ==> faults > old(faults))
    {
      var polls: nat := *;
      ready, ip, late := false, "", false;
      while !late
        invariant Safe() && Fewer() && (clean ==> old(clean)) && faults >= old(faults)
        decreases polls, !late
      {
        var ok, state := Inspect(id);
        if ok && state.Present? {
          if state.live.status == Error || state.live.status == Stopped {
            break;
          }
          if state.live.status == Running && state.live.ip != "" {
            var answers: bool := *;
            if answers {
              return true, state.live.ip, false;
            }
          }
        }
        late := polls == 0;
        polls := if late then 0 else polls - 1;
      }
      faults := faults + 1;
    }

    /** A task that is up: its row is Running, the container it names runs the row's configuration at the
        row's address, and the proxy sends the task's requests there. */
    ghost predicate Up(task: Option<Row>)
      reads this
    {
      && row.Some? && row == task
      && row.value.status == Running && row.value.ip != "" && !row.value.pending
      && row.value.container in containers && containers[row.value.container] == row.value.config
      && row.value.container in docker && docker[row.value.container] == Live(Running, row.value.ip)
      && hop == Some(Hop(row.value.ip, row.value.config.port))
    }

    /** The row is as r but for what starting it changes. */
    ghost predicate Same(r: Row)
      reads this`row
    {
      && row.Some?
      && row.value == r.(status := row.value.status, ip := row.value.ip, pending := row.value.pending)
      && (row.value.pending ==> r.pending)
    }

    /** r is in memory only: its container was made from its configuration, whatever its flag says. */
    method FinishStart(r: Row) returns (task: Option<Row>, err: bool)
      requires Safe() && row.Some? && RowFits(r.(pending := false)) && RowFits(r)
      modifies this`row, this`containers, this`docker, this`hop, this`clean, this`down, this`faults, this`seen
      ensures Safe() && row.Some? && (clean ==> old(clean) && row == task && HopAgrees())
      ensures containers.Keys <= old(containers.Keys)
      ensures row == old(row) || Same(r)
      ensures !err ==> row == task && row.value == r.(status := Running, ip := row.value.ip, pending := false)
      ensures !err ==> Up(task)
      ensures err ==> hop == old(hop)
      ensures err && clean ==> row.value.status == Error
      ensures faults >= old(faults) && (faults == old(faults) ==> !err)
    {
      var ready, ip, _ := WaitReady(r.container);
      if !ready {
        task := FailTask(r);
        return task, true;
      }
      var up := r.(status := Running, ip := ip, pending := false);
      var ok := StoreUpdate(up);
      if !ok {
        return None, true;
      }
      var registered := Register(up.ip, up.config.port);
      return Some(up), !registered;
    }

    /** The common tail of every operation that starts a container. */
    method Launch(r: Row) returns (task: Option<Row>, err: bool)
      requires Safe() && row.Some? && RowFits(r.(pending := false)) && RowFits(r)
      modifies this`row, this`containers, this`docker, this`hop, this`clean, this`down, this`faults, this`seen
      ensures Safe() && row.Some? && (clean ==> old(clean) && row == task && HopAgrees())
      ensures containers.Keys <= old(containers.Keys)
      ensures row == old(row) || Same(r)
      ensures !err ==> row == task && row.value == r.(status := Running, ip := row.value.ip, pending := false)
      ensures !err ==> Up(task)
      ensures err ==> hop == old(hop)
      ensures err && clean ==> row.value.status == Error
      ensures faults >= old(faults) && (faults == old(faults) ==> !err)
    {
      var ok := RuntimeStart(r.container);
      if !ok {
        task := FailTask(r);
        return task, true;
      }
      task, err := FinishStart(r);
    }

    /** Nothing but the count of errors is different: the operation was refused, or could not begin. */
    twostate predicate Untouched()
      reads this
    {
      && row == old(row) && containers == old(containers) && docker == old(docker)
      && hop == old(hop) && routes == old(routes) && lock == old(lock)
      && pulls == old(pulls) && stops == old(stops) && clean == old(clean)
    }

    // ---- The operations --------------------------------------------------------------------------

    /** valid is what the checks of the other fields say. */
    method Create(config: Config, meta: Meta, valid: bool) returns (task: Option<Row>, err: bool)
      requires Inv()
      modifies this
      ensures Inv()
      ensures old(row).Some? ==> err && row == old(row)
      ensures row.Some? && old(row).None? ==> row.value.config == config && row.value.meta == meta && !row.value.pending
      ensures !err ==> Up(task) && row.value.routes == [] && row.value.hash == "" && pulls == old(pulls) + [config.image]
      ensures faults == old(faults) ==> (err <==> !valid || !ValidPort(config))
      ensures !valid || !ValidPort(config) ==> err && Untouched()
      ensures err && clean ==> Untouched() || (row.Some? && row.value.status == Error)
    {
      if !valid || !ValidPort(config) {
        return None, true;
      }
      var r := Row(config, meta, [], "", Creating, 0, "", false);
      var ok := StoreInsert(r);
      if !ok {
        return None, true;
      }
      ok := Pull(config.image);
      if !ok {
        task := FailTask(r);
        return task, true;
      }
      task, err := CreateContainer(r);
    }

    /** The part of a creation that makes the container of the row just inserted. */
    method CreateContainer(r: Row) returns (task: Option<Row>, err: bool)
      requires Inv() && row == Some(r) && !r.pending
      modifies this`row, this`containers, this`docker, this`nextId, this`hop, this`clean, this`down, this`faults, this`seen
      ensures Inv() && row.Some?
      ensures row.value == r.(status := row.value.status, container := row.value.container, ip := row.value.ip)
      ensures !err ==> Up(task)
      ensures err && clean ==> row.value.status == Error
      ensures faults >= old(faults) && (faults == old(faults) ==> !err)
    {
      var ok, id := RuntimeCreate(r.config);
      if !ok {
        task := FailTask(r);
        return task, true;
      }
      ok := SaveCreated(r.(container := id, status := Starting));
      if !ok {
        return None, true;
      }
      task, err := Launch(r.(container := id, status := Starting));
    }

    /** A new container that could not be saved is removed again, if that can be done. */
    method SaveCreated(next: Row) returns (ok: bool)
      requires Safe() && row.Some? && RowFits(next)
      modifies this`row, this`containers, this`docker, this`clean, this`down, this`faults
      ensures Safe() && row.Some? && Fewer() && (clean ==> old(clean))
      ensures if ok then row == Some(next) && containers == old(containers) && clean == old(clean) && !down
              else (row == old(row) || row == Some(next)) && !clean
      ensures faults >= old(faults) && (ok <==> faults == old(faults))
      ensures faults == old(faults) + 1 ==> next.container !in containers
    {
      ok := StoreUpdate(next);
      if !ok {
        var _ := RuntimeRemove(next.container);
      }
    }

    method Start() returns (task: Option<Row>, err: bool)
      requires Inv()
      modifies this
      ensures Inv()
      ensures SameSettings(old(row), row) && AppliedByNew(old(row), row, old(nextId))
      ensures !err ==> Up(task)
      ensures !err ==> if old(row).value.pending || old(row).value.container == 0 then row.value.container >= old(nextId)
                       else row.value.container == old(row).value.container
      ensures var refused := old(row).None? || old(row).value.status in {Running, Starting, Creating};
        (refused ==> err && Untouched()) && (faults == old(faults) ==> (err <==> refused))
      ensures err && clean ==> Untouched() || (row.Some? && row.value.status == Error)
    {
      var found := Get();
      if found.None? {
        return None, true;
      }
      var r := found.value;
      if r.status == Running || r.status == Starting || r.status == Creating {
        return None, true;
      }
      task, err := Begin(r.(status := Starting));
    }

    /** The part of a start that writes; r is the row marked starting. */
    method Begin(r: Row) returns (task: Option<Row>, err: bool)
      requires Inv() && row.Some? && r == row.value.(status := Starting)
      modifies this`row, this`containers, this`docker, this`nextId, this`hop, this`clean, this`down, this`faults,
               this`stops, this`seen
      ensures Inv()
      ensures SameSettings(old(row), row) && AppliedByNew(old(row), row, old(nextId))
      ensures !err ==> Up(task)
      ensures !err ==> if r.pending || r.container == 0 then row.value.container >= old(nextId)
                       else row.value.container == r.container
      ensures err && clean ==> row.value.status == Error
      ensures faults >= old(faults) && (faults == old(faults) ==> !err)
    {
      var ok := StoreUpdate(r);
      if !ok {
        return None, true;
      }
      var next := r;
      if r.pending || r.container == 0 {
        var id;
        ok, id := Recreate(r.container, r.config);
        if !ok {
          task := FailTask(r);
          return task, true;
        }
        next := r.(container := id, pending := false);
      }
      task, err := Launch(next);
    }

    method Stop() returns (task: Option<Row>, err: bool)
      requires Inv()
      modifies this
      ensures Inv()
      ensures SameSettings(old(row), row) && AppliedByNew(old(row), row, old(nextId))
      ensures !err ==> task.Some? && row == task && hop == None
      ensures !err ==> row == Some(Or(old(row), task.value).(status := Stopped, ip := ""))
      ensures !err && row.value.container != 0 ==>
        row.value.container in docker && docker[row.value.container] == Live(Stopped, "")
      ensures var refused := old(row).None? || old(row).value.status in {Stopped, Creating, Starting};
        (refused ==> err && Untouched()) && (faults == old(faults) ==> (err <==> refused))
      ensures err && clean ==> Untouched() || (row.Some? && row.value.status == Error)
    {
      var found := Get();
      if found.None? {
        return None, true;
      }
      var r := found.value;
      if r.status == Stopped || r.status == Creating || r.status == Starting {
        return None, true;
      }
      task, err := Halt(r);
    }

    /** The part of a stop that acts. */
    method Halt(r: Row) returns (task: Option<Row>, err: bool)
      requires Inv() && row == Some(r)
      modifies this`row, this`containers, this`docker, this`hop, this`clean, this`down, this`faults, this`stops
      ensures Inv()
      ensures row.Some? && row.value == r.(status := row.value.status, ip := row.value.ip)
      ensures !err ==> row == task && row.value.status == Stopped && row.value.ip == "" && hop == None
      ensures !err && r.container != 0 ==> r.container in docker && docker[r.container] == Live(Stopped, "")
      ensures err && clean ==> row.value.status == Error
      ensures faults >= old(faults) && (faults == old(faults) ==> !err)
    {
      if r.container != 0 {
        var stopped := RuntimeStop(r.container);
        if stopped != Ok {
          task := FailTask(r);
          return task, true;
        }
      }
      hop := None;
      var halted := r.(status := Stopped, ip := "");
      var ok := StoreUpdate(halted);
      return if ok then Some(halted) else None, !ok;
    }

    /** Saves r, whose container was just made, and starts it. */
    method Relaunch(r: Row) returns (task: Option<Row>, err: bool)
      requires Safe() && row.Some? && RowFits(r) && !r.pending
      modifies this`row, this`containers, this`docker, this`hop, this`clean, this`down, this`faults, this`seen
      ensures Safe() && row.Some? && (clean ==> old(clean) && row == task && HopAgrees())
      ensures row == old(row) || Same(r)
      ensures !err ==> Up(task) && row.value == r.(status := Running, ip := row.value.ip)
      ensures err && clean ==> row.value.status == Error
      ensures faults >= old(faults) && (faults == old(faults) ==> !err)
    {
      var ok := StoreUpdate(r);
      if !ok {
        return None, true;
      }
      task, err := Launch(r);
    }

    method Restart() returns (task: Option<Row>, err: bool)
      requires Inv()
      modifies this
      ensures Inv()
      ensures SameSettings(old(row), row) && AppliedByNew(old(row), row, old(nextId))
      ensures !err ==> Up(task) && task.value.container >= old(nextId) && pulls == old(pulls) + [task.value.config.image]
      ensures var refused := old(row).None? || old(row).value.status in {Creating, Starting};
        (refused ==> err && Untouched()) && (faults == old(faults) ==> (err <==> refused))
      ensures err && pulls == old(pulls) ==> row == old(row) && hop == old(hop) && containers == old(containers)
      ensures err && clean ==> Untouched() || (row.Some? && row.value.status == Error)
    {
      var found := Get();
      if found.None? {
        return None, true;
      }
      var r := found.value;
      if r.status == Creating || r.status == Starting {
        return None, true;
      }
      var ok := Pull(r.config.image);
      if !ok {
        return None, true;
      }
      task, err := Renew(r);
    }

    /** The part of a restart that replaces the container. */
    method Renew(r: Row) returns (task: Option<Row>, err: bool)
      requires Inv() && row == Some(r)
      modifies this`row, this`containers, this`docker, this`nextId, this`hop, this`clean, this`down, this`faults,
               this`stops, this`seen
      ensures Inv()
      ensures SameSettings(old(row), row) && AppliedByNew(old(row), row, old(nextId))
      ensures !err ==> Up(task) && task.value.container >= old(nextId) && task.value.config == r.config
      ensures err && clean ==> row.Some? && row.value.status == Error
      ensures faults >= old(faults) && (faults == old(faults) ==> !err)
    {
      hop := None;
      var ok, id := Recreate(r.container, r.config);
      if !ok {
        task := FailTask(r);
        return task, true;
      }
      task, err := Relaunch(r.(container := id, pending := false, status := Starting));
    }

    /** A deletion that stops midway leaves the row as it was, maybe Running, without hop, routes or lock. */
    method Delete() returns (err: bool)
      requires Inv()
      modifies this
      ensures Inv()
      ensures !err ==> row == None && hop == None && routes == [] && lock == ""
      ensures !err && old(row).Some? ==> old(row).value.container !in containers
      ensures err ==> row == old(row) || row == None
      ensures err ==> (row == old(row) && hop == old(hop) && routes == old(routes) && lock == old(lock)) ||
                      (hop == None && routes == [] && lock == "" && !clean)
      ensures !err && old(row).Some? && old(row).value.container != 0 ==>
        stops == if Ran(seen) then old(stops) + [old(row).value.container] else old(stops)
      ensures (old(row).None? ==> err && Untouched()) && (faults == old(faults) ==> (err <==> old(row).None?))
    {
      var found := Get();
      if found.None? {
        return true;
      }
      err := Erase(found.value);
    }

    /** The part of a deletion that acts. */
    method Erase(r: Row) returns (err: bool)
      requires Inv() && row == Some(r)
      modifies this`row, this`containers, this`docker, this`hop, this`routes, this`lock, this`clean, this`down,
               this`faults, this`stops, this`seen
      ensures Inv() && hop == None && routes == [] && lock == ""
      ensures if err then (row == old(row) || row == None) && !clean else row == None && r.container !in containers
      ensures !err ==> stops == if r.container != 0 && Ran(seen) then old(stops) + [r.container] else old(stops)
      ensures faults >= old(faults) && (faults == old(faults) ==> !err)
    {
      hop, routes, lock := None, [], "";
      ghost var was := clean;
      clean := false;
      var gone := Discard(r.container);
      if !gone {
        return true;
      }
      var ok := StoreDelete();
      clean := was && ok;
      return !ok;
    }

    /** Docker answered that the container runs. */
    ghost predicate Ran(answer: Option<Inspection>) {
      answer.Some? && answer.value.Present? && answer.value.live.status == Running
    }

    /** Stops a container that runs, and removes it; one already gone is gone. */
    method Discard(id: Id) returns (gone: bool)
      requires Safe()
      modifies this`containers, this`docker, this`clean, this`down, this`faults, this`stops, this`seen
      ensures Safe() && containers.Keys <= old(containers.Keys) && (clean ==> old(clean))
      ensures gone ==> id !in containers
      ensures stops == if id != 0 && Ran(seen) then old(stops) + [id] else old(stops)
      ensures faults >= old(faults) && (faults == old(faults) ==> gone)
    {
      if id == 0 {
        return true;
      }
      var ok, state := Inspect(id);
      if ok && state.Present? && state.live.status == Running {
        var stopped := RuntimeStop(id);
        if stopped != Ok {
          return false;
        }
      }
      var removed := RuntimeRemove(id);
      gone := removed != Failed;
    }

    // ---- Update and Deploy -----------------------------------------------------------------------

    /** The settings an update leaves: what was sent over what was there. */
    function Settled(r: Row, changes: Changes): (s: Row)
      ensures s.config == Applied(r.config, changes)
      ensures s.meta == match changes.meta case Some(meta) => meta case None => r.meta
      ensures s.routes == match changes.routes case Some(routes) => routes case None => r.routes
      ensures s.hash == match changes.hash case Some(hash) => hash case None => r.hash
      ensures s.status == r.status && s.container == r.container && s.ip == r.ip && s.pending == r.pending
    {
      r.(config := Applied(r.config, changes), meta := Or(changes.meta, r.meta),
         routes := Or(changes.routes, r.routes), hash := Or(changes.hash, r.hash))
    }

    /** Whether an update needs a new container, now or later. */
    ghost predicate NeedsContainer(r: Row, changes: Changes, recreate: bool) {
      Applied(r.config, changes) != r.config || (recreate && r.pending)
    }

    /** The containers an update asks to stop: the one that ran, and again the one it replaces. */
    ghost function Stopping(r: Row, recreate: bool): seq<Id> {
      (if r.status == Running then [r.container] else []) + (if recreate && r.container != 0 then [r.container] else [])
    }

    /** The inner update: r is the row as read. It answers None when it saved nothing it can vouch for. */
    method Change(r: Row, changes: Changes, recreate: bool, valid: bool) returns (task: Option<Row>, err: bool)
      requires Inv() && row == Some(r)
      modifies this`row, this`containers, this`docker, this`nextId, this`hop, this`clean, this`down, this`pulls,
               this`faults, this`stops, this`seen
      ensures Safe() && row.Some? && (clean ==> old(clean)) && nextId >= old(nextId)
      ensures clean ==> HopAgrees() && row == if task.Some? then task else old(row)
      ensures clean && task.Some? ==>
        row.value.routes == Settled(r, changes).routes && row.value.hash == Settled(r, changes).hash
      ensures row.value.config == r.config || row.value.config == Applied(r.config, changes)
      ensures AppliedByNew(old(row), row, old(nextId))
      ensures !err ==> row == task && row.value == Settled(r, changes).(status := row.value.status,
        container := row.value.container, ip := row.value.ip, pending := row.value.pending)
      ensures !err && recreate ==> !row.value.pending
      ensures !err ==> pulls == if recreate && row.value.config.image != r.config.image
                                then old(pulls) + [row.value.config.image] else old(pulls)
      ensures !err && NeedsContainer(r, changes, recreate) ==> stops == old(stops) + Stopping(r, recreate)
      ensures !NeedsContainer(r, changes, recreate) ==>
        containers == old(containers) && docker == old(docker) && hop == old(hop) && stops == old(stops) && pulls == old(pulls)
      ensures !err && !NeedsContainer(r, changes, recreate) ==> row == Some(Settled(r, changes))
      ensures !err && recreate && (r.pending || Applied(r.config, changes) != r.config) && r.status == Running ==> Up(task)
      ensures !err && !recreate && Applied(r.config, changes) != r.config ==>
        row.value.pending && row.value.status == Stopped
      ensures var refused := !valid || !ValidPort(Applied(r.config, changes));
        (refused ==> err && task.None? && Untouched()) && (faults == old(faults) ==> (err <==> refused))
      ensures faults >= old(faults)
      ensures err && clean ==> Untouched() || (row.Some? && row.value.status == Error)
    {
      var config := Applied(r.config, changes);
      if !valid || !ValidPort(config) {
        return None, true;
      }
      var next := Settled(r, changes).(config := r.config);
      var containerChanged := (recreate && r.pending) || config != r.config;
      if next == r && !containerChanged {
        return Some(r), false;
      }
      if !containerChanged {
        var ok := StoreUpdate(next);
        return if ok then Some(next) else None, !ok;
      }
      if config.image != r.config.image && recreate {
        var ok := Pull(config.image);
        if !ok {
          return None, true;
        }
      }
      task, err := ChangeContainer(r, next, config, recreate);
    }

    /** The part of an update that needs a new container; next is r with the other changes made. */
    method ChangeContainer(r: Row, next: Row, config: Config, recreate: bool) returns (task: Option<Row>, err: bool)
      requires Inv() && row == Some(r) && ValidPort(config)
      requires next == r.(meta := next.meta, routes := next.routes, hash := next.hash)
      modifies this`row, this`containers, this`docker, this`nextId, this`hop, this`clean, this`down, this`faults,
               this`stops, this`seen
      ensures Safe() && row.Some? && (clean ==> old(clean)) && nextId >= old(nextId)
      ensures clean ==> HopAgrees() && row == task && row.value.routes == next.routes && row.value.hash == next.hash
      ensures row.value.config == r.config || row.value.config == config
      ensures AppliedByNew(old(row), row, old(nextId))
      ensures !err ==> row == task && row.value == next.(config := config, status := row.value.status,
        container := row.value.container, ip := row.value.ip, pending := row.value.pending)
      ensures !err && recreate ==> !row.value.pending && (r.status == Running ==> Up(task))
      ensures !err && !recreate ==> row.value.pending && row.value.status == Stopped
      ensures !err ==> stops == old(stops) + Stopping(r, recreate)
      ensures err && clean ==> row.value.status == Error
      ensures faults >= old(faults) && (faults == old(faults) ==> !err)
    {
      var wasRunning := r.status == Running;
      if wasRunning {
        var stopped := RuntimeStop(r.container);
        if stopped != Ok {
          task := FailTask(next);
          return task, true;
        }
        hop := None;
      }
      task, err := SaveChange(next.(config := config, pending := true, status := Stopped, ip := ""), wasRunning, recreate);
    }

    /** Saves the change, and applies it now or leaves it for later. */
    method SaveChange(changed: Row, wasRunning: bool, recreate: bool) returns (task: Option<Row>, err: bool)
      requires Safe() && row.Some? && RowFits(changed) && changed.pending && changed.status == Stopped && changed.ip == ""
      modifies this`row, this`containers, this`docker, this`nextId, this`hop, this`clean, this`down, this`faults,
               this`stops, this`seen
      ensures Safe() && row.Some? && (clean ==> old(clean)) && nextId >= old(nextId)
      ensures clean ==> HopAgrees() && row == task && row.value.routes == changed.routes && row.value.hash == changed.hash
      ensures row == old(row) || row.value == changed.(status := row.value.status, container := row.value.container,
                                                      ip := row.value.ip, pending := row.value.pending)
      ensures row != old(row) && !row.value.pending ==> row.value.container >= old(nextId)
      ensures !err ==> row == task && row.value == changed.(status := row.value.status, container := row.value.container,
                                                           ip := row.value.ip, pending := row.value.pending)
      ensures !err && recreate ==> !row.value.pending && row.value.container >= old(nextId) && (wasRunning ==> Up(task))
      ensures !err && !recreate ==> row == Some(changed)
      ensures !err ==> stops == if recreate && changed.container != 0 then old(stops) + [changed.container] else old(stops)
      ensures err && clean ==> row.value.status == Error
      ensures faults >= old(faults) && (faults == old(faults) ==> !err)
    {
      var ok := StoreUpdate(changed);
      if !ok {
        return None, true;
      }
      if !recreate {
        return Some(changed), false;
      }
      task, err := Apply(changed, wasRunning);
    }

    /** Applies the change that was saved, and starts the container again if it ran. */
    method Apply(changed: Row, wasRunning: bool) returns (task: Option<Row>, err: bool)
      requires Safe() && row == Some(changed) && changed.pending && changed.status == Stopped && changed.ip == ""
      requires clean ==> HopAgrees()
      modifies this`row, this`containers, this`docker, this`nextId, this`hop, this`clean, this`down, this`faults,
               this`stops, this`seen
      ensures Safe() && row.Some? && (clean ==> old(clean)) && nextId >= old(nextId)
      ensures clean ==> HopAgrees() && row == task
      ensures row.value == changed.(status := row.value.status, container := row.value.container, ip := row.value.ip,
                                    pending := row.value.pending)
      ensures !row.value.pending ==> row.value.container >= old(nextId)
      ensures !err ==> row == task && !row.value.pending
      ensures !err ==> if wasRunning then Up(task) else row.value.status == Stopped && hop == old(hop)
      ensures stops == if changed.container == 0 then old(stops) else old(stops) + [changed.container]
      ensures err && clean ==> row.value.status == Error
      ensures faults >= old(faults) && (faults == old(faults) ==> !err)
    {
      var ok, id := Recreate(changed.container, changed.config);
      if !ok {
        task := FailTask(changed);
        return task, true;
      }
      var applied := changed.(container := id, pending := false);
      if !wasRunning {
        ok := StoreUpdate(applied);
        return if ok then Some(applied) else None, !ok;
      }
      task, err := Launch(applied);
    }

    /** A failed container change still answers the row it saved, so its routes and lock are served. */
    method Serve(before: Row, updated: Option<Row>)
      modifies this`routes, this`lock
      ensures routes == if updated.Some? && updated.value.routes != before.routes then updated.value.routes else old(routes)
      ensures lock == if updated.Some? && updated.value.hash != before.hash then updated.value.hash else old(lock)
    {
      if updated.Some? && updated.value.routes != before.routes {
        routes := updated.value.routes;
      }
      if updated.Some? && updated.value.hash != before.hash {
        lock := updated.value.hash;
      }
    }

    method Update(changes: Changes, recreate: bool, valid: bool) returns (task: Option<Row>, err: bool)
      requires Inv()
      modifies this
      ensures Inv()
      ensures row.Some? <==> old(row).Some?
      ensures row.Some? ==> var was := Or(old(row), row.value).config;
        row.value.config == was || row.value.config == Applied(was, changes)
      ensures AppliedByNew(old(row), row, old(nextId))
      ensures !err ==> old(row).Some? && row.Some? && row == task
      ensures !err ==> row.value == Settled(old(row).value, changes).(status := row.value.status,
        container := row.value.container, ip := row.value.ip, pending := row.value.pending)
      ensures !err ==> var changed := row.value.config != old(row).value.config;
        if recreate then !row.value.pending && (changed && old(row).value.status == Running ==> Up(task))
        else changed ==> row.value.pending && row.value.status == Stopped
      ensures !err ==> pulls == if recreate && row.value.config.image != old(row).value.config.image
                                then old(pulls) + [row.value.config.image] else old(pulls)
      ensures !err && NeedsContainer(old(row).value, changes, recreate) ==>
        stops == old(stops) + Stopping(old(row).value, recreate)
      ensures !err && !NeedsContainer(old(row).value, changes, recreate) ==>
        row == Some(Settled(old(row).value, changes)) && containers == old(containers) && hop == old(hop) && stops == old(stops)
      ensures var refused := old(row).None? || !valid || !ValidPort(Applied(old(row).value.config, changes));
        (refused ==> err && Untouched()) && (faults == old(faults) ==> (err <==> refused))
      ensures err && clean ==> Untouched() || (row.Some? && row.value.status == Error)
    {
      var found := Get();
      if found.None? {
        return None, true;
      }
      task, err := Change(found.value, changes, recreate, valid);
      Serve(found.value, task);
    }

    /** The image is immutable, so deploying the one that already runs is a retry and changes nothing. */
    method Deploy(image: string, valid: bool) returns (task: Option<Row>, err: bool)
      requires Inv()
      modifies this
      ensures Inv()
      ensures row.Some? <==> old(row).Some?
      ensures AppliedByNew(old(row), row, old(nextId))
      ensures old(row).Some? && old(row).value.config.image == image && !old(row).value.pending ==> Untouched()
      ensures !err ==> old(row).Some? && row.Some? && row == task && !row.value.pending
      ensures !err ==> row.value == old(row).value.(config := old(row).value.config.(image := image),
        status := row.value.status, container := row.value.container, ip := row.value.ip, pending := false)
      ensures !err && old(row).value.status == Running && row != old(row) ==> Up(task)
      ensures var refused := !valid || old(row).None?;
        (refused ==> err && Untouched()) && (faults == old(faults) ==> (err <==> refused))
      ensures err && clean ==> Untouched() || (row.Some? && row.value.status == Error)
    {
      if !valid {
        return None, true;
      }
      var found := Get();
      if found.None? {
        return None, true;
      }
      var r := found.value;
      if r.config.image == image && !r.pending {
        return Some(r), false;
      }
      task, err := Change(r, Changes(None, None, None, Some(image), None, None, None, None), true, true);
    }

    // ---- Start-up ----------------------------------------------------------------------------------

    /** The row and the registry say of the container what Docker says: a container that runs at an address
        is served there, another one has its status in the row, and one that is gone is unknown. */
    ghost predicate Mirrors()
      reads this`row, this`containers, this`docker, this`hop
    {
      row.Some? ==>
        var r := row.value;
        if r.container !in containers then r.status == Unknown && r.ip == "" && hop == None
        else (
          && r.container in docker && Live(r.status, r.ip) == docker[r.container]
          && hop == if r.status == Running && r.ip != "" then Some(Hop(r.ip, r.config.port)) else None)
    }

    /** Start-up, after a shutdown or a kill during any call: the registry is new and the row is
        repaired. Once it could be written, the registry serves exactly what the row says; and when no call
        failed, both say what Docker says. */
    method Boot() returns (err: bool)
      requires Safe()
      modifies this
      ensures Inv() && (!err ==> clean && Agree())
      ensures SameSettings(old(row), row) && AppliedByNew(old(row), row, old(nextId))
      ensures faults == old(faults) ==> !err && Mirrors()
      ensures !err && old(row).Some? && seen.None? ==> row.value.status == Unknown && row.value.ip == "" && hop == None
    {
      hop, routes, lock := None, [], "";
      down, clean := false, true;
      err := Reconcile();
    }

    method Reconcile() returns (err: bool)
      requires Safe() && !down && (row.None? ==> clean && Agree())
      modifies this`row, this`containers, this`docker, this`hop, this`routes, this`lock, this`clean, this`down,
               this`faults, this`seen
      ensures Inv() && (!err ==> clean && Agree())
      ensures SameSettings(old(row), row) && AppliedByNew(old(row), row, old(nextId))
      ensures faults == old(faults) ==> !err && Mirrors()
      ensures !err && old(row).Some? && seen.None? ==> row.value.status == Unknown && row.value.ip == "" && hop == None
    {
      if row.None? {
        return false;
      }
      var r := row.value;
      routes, lock := r.routes, r.hash;
      clean := true;
      var next, registered := Look(r);
      var written := StoreUpdate(next);
      err := !registered || !written;
    }

    /** The row as Docker answers, with the hop to match. */
    method Look(r: Row) returns (next: Row, registered: bool)
      requires Safe() && row == Some(r)
      modifies this`containers, this`docker, this`hop, this`clean, this`down, this`faults, this`seen
      ensures Safe() && Fewer() && Kept() && registered
      ensures next == r.(status := next.status, ip := next.ip)
      ensures hop == if next.status == Running && next.ip != "" then Some(Hop(next.ip, r.config.port)) else None
      ensures faults == old(faults) + if seen.None? then 1 else 0
      ensures match seen
        case None => next.status == Unknown && next.ip == ""
        case Some(state) =>
          && state == Truth(r.container)
          && Live(next.status, next.ip) == if state.Present? then state.live else Live(Unknown, "")
    {
      registered := true;
      var ok, state := Inspect(r.container);
      if !ok || state.Absent? {
        next := r.(status := Unknown, ip := "");
        hop := None;
      } else {
        next := r.(status := state.live.status, ip := state.live.ip);
        if state.live.status == Running && state.live.ip != "" {
          registered := Register(state.live.ip, r.config.port);
        } else {
          hop := None;
        }
      }
    }

    // ---- Runs ------------------------------------------------------------------------------------

    method Handle(request: Request)
      requires Inv() && !down
      modifies this
      ensures Inv()
    {
      match request
      case CreateTask(config, meta, valid) => var _, _ := Create(config, meta, valid);
      case StartTask => var _, _ := Start();
      case StopTask => var _, _ := Stop();
      case RestartTask => var _, _ := Restart();
      case DeleteTask => var _ := Delete();
      case UpdateTask(changes, recreate, valid) => var _, _ := Update(changes, recreate, valid);
      case DeployImage(image, valid) => var _, _ := Deploy(image, valid);
      case Reboot => var _ := Boot();
    }
  }

  /** Every state a task can reach is free of drift and, unless a store failed or the server was killed, in
      agreement: after any requests, whatever calls fail and during whichever the server is killed. It is
      started again, which it may be killed at too, before it serves the next request. */
  method AnyRun(requests: seq<Request>) returns (task: Task)
    ensures task.Inv()
  {
    task := new Task();
    for i := 0 to |requests|
      invariant fresh(task) && task.Inv()
    {
      if task.down {
        var _ := task.Boot();
      }
      if !task.down {
        task.Handle(requests[i]);
      }
    }
  }
}

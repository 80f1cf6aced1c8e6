/** The API server's object store, one namespace of it. Every write takes a new revision; an update
    carrying an old version is refused; GameServer writes pass admission; deletion waits for finalizers. */
module Store {
  import opened Types
  import opened Webhook

  datatype Error = NotFound | AlreadyExists | Conflict | Invalid | Unavailable

  /** What a pass asks of its work queue. */
  datatype Result = Return | Requeue | After(seconds: nat) | Fail(error: Error)

  /** A conflict asks for another try at once, any other error is reported. */
  function OnError(err: Error): Result {
    if err == Conflict then Requeue else Fail(err)
  }

  datatype World = World(now: nat, revision: nat, fleets: map<Name, Fleet>, servers: map<Name, GameServer>,
                         sets: map<Name, StatefulSet>, services: map<Name, Service>)

  /** What a call does when it is neither dropped nor its reply lost. */
  datatype Reply = Reply(world: World, err: Option<Error>)

  function Refuse(w: World, e: Error): Reply {
    Reply(w, Some(e))
  }

  const NEW_STATUS := ServerStatus(Unset, false, [], 0)

  // ---- GameServers ----

  function PutServer(w: World, n: Name, gs: GameServer): World {
    w.(revision := w.revision + 1,
       servers := if gs.deleting && gs.finalizers == [] then w.servers - {n} else w.servers[n := gs])
  }

  function CreateServer(w: World, n: Name, gs: GameServer): Reply {
    var spec := DefaultSpec(gs.spec);
    if n in w.servers then Refuse(w, AlreadyExists)
    else if !ValidSpec(spec) then Refuse(w, Invalid)
    else
      var r := w.revision + 1;
      Reply(PutServer(w, n, GameServer(r, r, 1, gs.finalizers, false, gs.labels, gs.annotations, spec, NEW_STATUS)),
            None)
  }

  function UpdateServer(w: World, n: Name, gs: GameServer): Reply {
    var spec := DefaultSpec(gs.spec);
    if n !in w.servers then Refuse(w, NotFound)
    else if gs.version != w.servers[n].version then Refuse(w, Conflict)
    else if !ValidUpdate(w.servers[n].spec, spec) then Refuse(w, Invalid)
    else
      var before := w.servers[n];
      Reply(PutServer(w, n, before.(version := w.revision + 1,
                                    generation :=
                                      if spec == before.spec then before.generation else before.generation + 1,
                                    finalizers := gs.finalizers, labels := gs.labels, annotations := gs.annotations,
                                    spec := spec)), None)
  }

  function UpdateServerStatus(w: World, n: Name, gs: GameServer): Reply {
    if n !in w.servers then Refuse(w, NotFound)
    else if gs.version != w.servers[n].version then Refuse(w, Conflict)
    else Reply(PutServer(w, n, w.servers[n].(version := w.revision + 1, status := gs.status)), None)
  }

  /** A merge patch of the hash annotation alone: no version is checked. */
  function PatchServerHash(w: World, n: Name, hash: string): Reply {
    if n !in w.servers then Refuse(w, NotFound)
    else if !ValidUpdate(w.servers[n].spec, DefaultSpec(w.servers[n].spec)) then Refuse(w, Invalid)
    else
      var before := w.servers[n];
      var spec := DefaultSpec(before.spec);
      Reply(PutServer(w, n, before.(version := w.revision + 1,
                                    generation :=
                                      if spec == before.spec then before.generation else before.generation + 1,
                                    annotations := before.annotations[HASH_ANNOTATION := hash], spec := spec)), None)
  }

  function DeleteServer(w: World, n: Name): Reply {
    if n !in w.servers then Refuse(w, NotFound)
    else if w.servers[n].deleting then Reply(w, None)
    else Reply(PutServer(w, n, w.servers[n].(version := w.revision + 1, deleting := true,
                                             generation := w.servers[n].generation + 1)), None)
  }

  // ---- fleets ----

  function PutFleet(w: World, f: Name, fleet: Fleet): World {
    w.(revision := w.revision + 1,
       fleets := if fleet.deleting && fleet.finalizers == [] then w.fleets - {f} else w.fleets[f := fleet])
  }

  function UpdateFleet(w: World, f: Name, fleet: Fleet): Reply {
    if f !in w.fleets then Refuse(w, NotFound)
    else if fleet.version != w.fleets[f].version then Refuse(w, Conflict)
    else
      var before := w.fleets[f];
      Reply(PutFleet(w, f, before.(version := w.revision + 1, finalizers := fleet.finalizers,
                                   template := fleet.template,
                                   generation := if fleet.template == before.template then before.generation
                                                 else before.generation + 1)), None)
  }

  /** With the CRD's maxItems enforced, a status with more than ten history records is invalid. */
  function UpdateFleetStatus(cfg: Config, w: World, f: Name, fleet: Fleet): Reply {
    if f !in w.fleets then Refuse(w, NotFound)
    else if fleet.version != w.fleets[f].version then Refuse(w, Conflict)
    else if cfg.capHistory && |fleet.status.history| > 10 then Refuse(w, Invalid)
    else Reply(PutFleet(w, f, w.fleets[f].(version := w.revision + 1, status := fleet.status)), None)
  }

  function DeleteFleet(w: World, f: Name): Reply {
    if f !in w.fleets then Refuse(w, NotFound)
    else if w.fleets[f].deleting then Reply(w, None)
    else Reply(PutFleet(w, f, w.fleets[f].(version := w.revision + 1, deleting := true,
                                           generation := w.fleets[f].generation + 1)), None)
  }

  // ---- StatefulSets and Services ----

  function PutSet(w: World, n: Name, sts: StatefulSet): World {
    w.(revision := w.revision + 1, sets := w.sets[n := sts.(version := w.revision + 1)])
  }

  function CreateSet(w: World, n: Name, sts: StatefulSet): Reply {
    if n in w.sets then Refuse(w, AlreadyExists) else Reply(PutSet(w, n, sts), None)
  }

  /** Selector and service name of a StatefulSet are immutable, and the selector must match the pod labels. */
  function UpdateSet(w: World, n: Name, sts: StatefulSet): Reply {
    if n !in w.sets then Refuse(w, NotFound)
    else if sts.version != w.sets[n].version then Refuse(w, Conflict)
    else if sts.selector != w.sets[n].selector || sts.serviceName != w.sets[n].serviceName
      || sts.podLabels != sts.selector then Refuse(w, Invalid)
    else Reply(PutSet(w, n, sts), None)
  }

  function PutService(w: World, name: Name, svc: Service): World {
    w.(revision := w.revision + 1, services := w.services[name := svc])
  }

  /** The second half of CreateOrUpdate: create what was not found, or update what was found and has not
      changed since. */
  function SaveService(w: World, name: Name, fetched: Option<Service>, svc: Service): Reply {
    if fetched == None then
      if name in w.services then Refuse(w, AlreadyExists) else Reply(PutService(w, name, svc), None)
    else if name !in w.services then Refuse(w, NotFound)
    else if w.services[name] != fetched.value then Refuse(w, Conflict)
    else Reply(PutService(w, name, svc), None)
  }

  function DeleteService(w: World, name: Name): Reply {
    if name !in w.services then Refuse(w, NotFound)
    else Reply(w.(revision := w.revision + 1, services := w.services - {name}), None)
  }
}

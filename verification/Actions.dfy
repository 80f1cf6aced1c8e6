/** Every write and every bookkeeping step of the running system, as atomic actions on one state:
    the fleet controller per fleet, the GameServer controller per GameServer, and everybody else. */
module Actions {
  import opened Types
  import opened Conditions
  import opened Live
  import opened Webhook
  import opened TemplateHash
  import opened Builders
  import opened Store

  // ---- bookkeeping beside the store ----

  /** Per fleet name: every template hash since the fleet was created, the one its GameServer carries,
      the number of in-place spec writes, and every rollout record ever written. */
  datatype FleetLog = FleetLog(hashes: seq<string>, stamp: nat, writes: nat, rollouts: seq<Rollout>)

  /** What a steady fleet pass read: the fleet, and the position of its template in the hash log. */
  datatype FleetSnap = FleetSnap(fleet: Fleet, epoch: nat)

  /** The steady passes in flight with what they read, and the logs. */
  datatype Ledger = Ledger(fleetPass: map<Name, FleetSnap>, serverPass: map<Name, GameServer>,
                           logs: map<Name, FleetLog>)

  datatype State = State(w: World, l: Ledger)

  const START := State(World(0, 0, map[], map[], map[], map[]), Ledger(map[], map[], map[]))

  // ---- objects the fleet controller writes ----

  /** buildGameServer. */
  function BuildServer(cfg: Config, f: Name, t: Template): GameServer {
    GameServer(0, 0, 0, [], false, t.labels[FLEET_LABEL := f],
               t.annotations[HASH_ANNOTATION := ComputeTemplateHash(cfg, t)], t.spec, NEW_STATUS)
  }

  /** The in-place update: the template's spec and labels on top of the object read. */
  function Redeploy(cfg: Config, f: Name, gs: GameServer, t: Template): GameServer {
    gs.(spec := t.spec, annotations := gs.annotations[HASH_ANNOTATION := ComputeTemplateHash(cfg, t)],
        labels := (gs.labels + t.labels)[FLEET_LABEL := f])
  }

  // ---- fleet status edits ----

  /** syncStatus, without the write. */
  function SyncEdit(st: FleetStatus, generation: int, gs: Option<ServerStatus>, now: nat): FleetStatus {
    if gs == None then
      FleetPut(st.(readyReplicas := 0, phase := Progressing), "Available", False, "NoGameServer",
               "No GameServer found", now)
    else
      (if gs.value.ready then
         FleetPut(FleetPut(st.(readyReplicas := 1, phase := Available),
                           "Available", True, "Available", "GameServer is ready", now),
                  "Progressing", False, "Available", "GameServer is ready", now)
       else
         FleetPut(
           if gs.value.phase == Failed then
             FleetPut(st.(readyReplicas := 0, phase := FleetFailed),
                      "Degraded", True, "GameServerFailed", "GameServer is in Failed phase", now)
           else
             FleetPut(st.(readyReplicas := 0, phase := Degraded),
                      "Degraded", True, "GameServerNotReady", "GameServer is not ready", now),
           "Available", False, "NotAvailable", "GameServer is not ready", now))
      .(observedGeneration := generation)
  }

  /** The edits of startSpecUpdate. */
  function StartEdit(st: FleetStatus, from: string, to: string, now: nat): FleetStatus {
    FleetPut(st.(phase := Progressing, history := st.history + [Rollout(now, None, from, to, "", "")]),
             "Progressing", True, "Updating", "GameServer spec updated", now)
  }

  function CompletedMessage(version: string): string {
    "Update to version " + version + " completed"
  }

  function Close(r: Rollout, version: string, now: nat): Rollout {
    if r.completedAt == None then
      r.(completedAt := Some(now), result := "Success", message := CompletedMessage(version))
    else r
  }

  function CloseLast(h: seq<Rollout>, version: string, now: nat): seq<Rollout> {
    if h == [] then h else h[|h| - 1 := Close(h[|h| - 1], version, now)]
  }

  function LastTen(h: seq<Rollout>): seq<Rollout> {
    if |h| > 10 then h[|h| - 10..] else h
  }

  /** The edits of completeUpdate. */
  function CompleteEdit(st: FleetStatus, generation: int, n: Name, version: string, now: nat): FleetStatus {
    FleetPut(FleetPut(st.(phase := Available, current := n, readyReplicas := 1),
                      "Available", True, "Available", "GameServer is ready", now),
             "Progressing", False, "Available", "Rolling update completed", now)
    .(history := LastTen(CloseLast(st.history, version, now)), observedGeneration := generation)
  }

  /** The edits of createGameServer. */
  function CreatedEdit(st: FleetStatus, n: Name, now: nat): FleetStatus {
    FleetPut(st.(current := n, phase := Progressing), "Progressing", True, "Creating", "GameServer created", now)
  }

  /** The edits of handleFailedGS. */
  function ResetEdit(st: FleetStatus): FleetStatus {
    st.(current := "", phase := Progressing)
  }

  // ---- GameServer status edits ----

  datatype Probe = NoProbe | Probe(ready: bool, reason: string, message: string)

  /** The status a steady GameServer pass ends with: the phase leaves Unset or Pending, a ready
      StatefulSet makes it Running, and only a pass that got to its end records the generation. */
  function ProbeEdit(st: ServerStatus, generation: int, probe: Probe, observe: bool, now: nat): ServerStatus {
    var a := if st.phase == Unset || st.phase == Pending then st.(phase := Provisioning) else st;
    var b := if probe.NoProbe? then a
             else ReadyPut(if probe.ready then a.(phase := Running) else a,
                           probe.ready, probe.reason, probe.message, now);
    if observe then b.(observedGeneration := generation) else b
  }

  /** The status of a GameServer whose game type has no adapter. */
  function UnregisteredEdit(st: ServerStatus, message: string, now: nat): ServerStatus {
    ReadyPut(st.(phase := Failed), false, "AdapterNotFound", message, now)
  }

  // ---- fleet controller ----

  predicate OwnedBy(w: World, f: Name, n: Name) {
    n in w.servers && LabelOf(w.servers[n].labels) == Some(f)
  }

  ghost predicate NoneOwned(w: World, f: Name) {
    forall n :: n in w.servers ==> LabelOf(w.servers[n].labels) != Some(f)
  }

  predicate Held(w: World, f: Name) {
    f in w.fleets && FLEET_FINALIZER in w.fleets[f].finalizers
  }

  /** The latest time a rollout record mentions. */
  function LastTime(h: seq<Rollout>): nat {
    if h == [] then 0
    else var r := h[|h| - 1]; if r.completedAt.Some? then r.completedAt.value else r.startedAt
  }

  /** A steady pass is in flight and the fleet it read still exists and still carries the finalizer. */
  predicate Steady(s: State, f: Name) {
    && f in s.l.fleetPass && f in s.l.logs && Held(s.w, f)
    && s.w.fleets[f].uid == s.l.fleetPass[f].fleet.uid
  }

  /** The template the pass in flight works from. */
  function Wanted(s: State, f: Name): Template
    requires f in s.l.fleetPass
  {
    s.l.fleetPass[f].fleet.template
  }

  /** The store answered the call, without error, with `t`'s objects. */
  predicate Done(r: Reply, t: State) {
    r == Reply(t.w, None)
  }

  ghost predicate FBegin(s: State, f: Name, t: State) {
    && f in s.w.fleets && !s.w.fleets[f].deleting && f !in s.l.fleetPass && f in s.l.logs && s.l.logs[f].hashes != []
    && t == s.(l := s.l.(fleetPass := s.l.fleetPass[f := FleetSnap(s.w.fleets[f], |s.l.logs[f].hashes| - 1)]))
  }

  ghost predicate FEnd(s: State, f: Name, t: State) {
    f in s.l.fleetPass && t == s.(l := s.l.(fleetPass := s.l.fleetPass - {f}))
  }

  ghost predicate FAddFinalizer(s: State, f: Name, t: State) {
    && f in s.w.fleets && !s.w.fleets[f].deleting && FLEET_FINALIZER !in s.w.fleets[f].finalizers
    && Done(UpdateFleet(s.w, f, s.w.fleets[f].(finalizers := s.w.fleets[f].finalizers + [FLEET_FINALIZER])), t)
    && t.l == s.l
  }

  function Stamped(s: State, f: Name, more: nat): Ledger
    requires f in s.l.fleetPass && f in s.l.logs
  {
    s.l.(logs := s.l.logs[f := s.l.logs[f].(stamp := s.l.fleetPass[f].epoch, writes := s.l.logs[f].writes + more)])
  }

  ghost predicate FCreateGs(cfg: Config, s: State, f: Name, t: State) {
    && Steady(s, f)
    && Done(CreateServer(s.w, OwnedName(f), BuildServer(cfg, f, Wanted(s, f))), t)
    && t.l == Stamped(s, f, 0)
  }

  ghost predicate FUpdateGs(cfg: Config, s: State, f: Name, t: State) {
    var n := OwnedName(f);
    && Steady(s, f) && OwnedBy(s.w, f, n)
    && HashOf(s.w.servers[n].annotations) != ""
    && HashOf(s.w.servers[n].annotations) != ComputeTemplateHash(cfg, Wanted(s, f))
    && Done(UpdateServer(s.w, n, Redeploy(cfg, f, s.w.servers[n], Wanted(s, f))), t)
    && t.l == Stamped(s, f, 1)
  }

  /** The hash is stamped on whatever object has the name; the log follows the fleet's own. */
  ghost predicate FPatchHash(cfg: Config, s: State, f: Name, t: State) {
    && Steady(s, f)
    && Done(PatchServerHash(s.w, OwnedName(f), ComputeTemplateHash(cfg, Wanted(s, f))), t)
    && t.l == if OwnedBy(s.w, f, OwnedName(f)) then Stamped(s, f, 0) else s.l
  }

  ghost predicate FDeleteFailed(cfg: Config, s: State, f: Name, t: State) {
    var n := OwnedName(f);
    && Steady(s, f) && (OwnedBy(s.w, f, n) ==> s.w.servers[n].spec.gameType !in cfg.registered)
    && Done(DeleteServer(s.w, n), t)
    && t.l == s.l
  }

  /** A status write lands on the version it was computed from. */
  ghost predicate FStatus(cfg: Config, s: State, f: Name, after: FleetStatus, t: State) {
    Steady(s, f) && Done(UpdateFleetStatus(cfg, s.w, f, s.w.fleets[f].(status := after)), t)
  }

  ghost predicate FSyncStatus(cfg: Config, s: State, f: Name, gs: ServerStatus, now: nat, t: State) {
    && gs.phase != Failed && now <= s.w.now
    && f in s.w.fleets && FStatus(cfg, s, f, SyncEdit(s.w.fleets[f].status, s.w.fleets[f].generation, Some(gs), now), t)
    && t.l == s.l
  }

  ghost predicate FStartStatus(cfg: Config, s: State, f: Name, from: string, now: nat, t: State) {
    && f in s.w.fleets && f in s.l.logs && LastTime(s.w.fleets[f].status.history) <= now <= s.w.now
    && FStatus(cfg, s, f, StartEdit(s.w.fleets[f].status, from, s.w.fleets[f].template.spec.version, now), t)
    && t.l == s.l.(logs := s.l.logs[f := s.l.logs[f].(rollouts := s.l.logs[f].rollouts
                             + [Rollout(now, None, from, s.w.fleets[f].template.spec.version, "", "")])])
  }

  /** `unsynced` tells that the pass's preceding status sync was not stored, and when it was computed. */
  ghost predicate FCompleteStatus(cfg: Config, s: State, f: Name, gs: ServerStatus, unsynced: Option<nat>,
                                  version: string, now: nat, t: State) {
    && gs.ready && gs.phase != Failed
    && f in s.w.fleets && f in s.l.logs && LastTime(s.w.fleets[f].status.history) <= now <= s.w.now
    && (var fleet := s.w.fleets[f];
        var synced := if unsynced == None then fleet.status
                      else SyncEdit(fleet.status, fleet.generation, Some(gs), unsynced.value);
        FStatus(cfg, s, f, CompleteEdit(synced, fleet.generation, OwnedName(f), version, now), t))
    && t.l == if s.w.fleets[f].status.history == [] then s.l
              else s.l.(logs := s.l.logs[f := s.l.logs[f].(rollouts := CloseLast(s.l.logs[f].rollouts, version, now))])
  }

  ghost predicate FCreatedStatus(cfg: Config, s: State, f: Name, now: nat, t: State) {
    && f in s.w.fleets && now <= s.w.now
    && FStatus(cfg, s, f, CreatedEdit(s.w.fleets[f].status, OwnedName(f), now), t) && t.l == s.l
  }

  ghost predicate FResetStatus(cfg: Config, s: State, f: Name, t: State) {
    f in s.w.fleets && FStatus(cfg, s, f, ResetEdit(s.w.fleets[f].status), t) && t.l == s.l
  }

  /** The fleet Service selects the fleet's own GameServer. */
  ghost predicate FServe(s: State, f: Name, svc: Service, gameType: string, t: State) {
    var n := OwnedName(f);
    && Steady(s, f) && svc.selector == GameServerLabels(n, gameType)
    && (OwnedBy(s.w, f, n) ==> s.w.servers[n].spec.gameType == gameType)
    && t == s.(w := PutService(s.w, f, svc))
  }

  ghost predicate Finalizing(s: State, f: Name) {
    f !in s.l.fleetPass && f in s.w.fleets && s.w.fleets[f].deleting
  }

  ghost predicate FStripGs(s: State, f: Name, t: State) {
    var n := OwnedName(f);
    && Finalizing(s, f) && OwnedBy(s.w, f, n) && !s.w.servers[n].deleting
    && Done(UpdateServer(s.w, n, s.w.servers[n].(finalizers := Without(s.w.servers[n].finalizers, SERVER_FINALIZER))),
            t)
    && t.l == s.l
  }

  ghost predicate FDeleteGs(s: State, f: Name, t: State) {
    && Finalizing(s, f) && OwnedBy(s.w, f, OwnedName(f))
    && Done(DeleteServer(s.w, OwnedName(f)), t) && t.l == s.l
  }

  ghost predicate FDropService(s: State, f: Name, t: State) {
    Finalizing(s, f) && NoneOwned(s.w, f) && Done(DeleteService(s.w, f), t) && t.l == s.l
  }

  ghost predicate FRelease(s: State, f: Name, t: State) {
    && Finalizing(s, f) && NoneOwned(s.w, f)
    && Done(UpdateFleet(s.w, f, s.w.fleets[f].(finalizers := Without(s.w.fleets[f].finalizers, FLEET_FINALIZER))), t)
    && t.l == s.l
  }

  // ---- GameServer controller ----

  /** The write is checked against the version the pass read. */
  predicate Fresh(s: State, n: Name) {
    n in s.l.serverPass && n in s.w.servers && s.w.servers[n].version == s.l.serverPass[n].version
  }

  predicate Drained(w: World, n: Name) {
    n !in w.sets || (w.sets[n].replicas == Some(0) && w.sets[n].readyReplicas == 0)
  }

  ghost predicate SBegin(s: State, n: Name, t: State) {
    && n in s.w.servers && !s.w.servers[n].deleting && n !in s.l.serverPass
    && t == s.(l := s.l.(serverPass := s.l.serverPass[n := s.w.servers[n]]))
  }

  ghost predicate SEnd(s: State, n: Name, t: State) {
    n in s.l.serverPass && t == s.(l := s.l.(serverPass := s.l.serverPass - {n}))
  }

  ghost predicate SAddFinalizer(s: State, n: Name, t: State) {
    && Fresh(s, n) && SERVER_FINALIZER !in s.w.servers[n].finalizers
    && Done(UpdateServer(s.w, n, s.w.servers[n].(finalizers := s.w.servers[n].finalizers + [SERVER_FINALIZER])), t)
    && t.l == s.l
  }

  ghost predicate SStatus(s: State, n: Name, after: ServerStatus, t: State) {
    n in s.w.servers && Done(UpdateServerStatus(s.w, n, s.w.servers[n].(status := after)), t) && t.l == s.l
  }

  ghost predicate SUnregistered(cfg: Config, s: State, n: Name, message: string, now: nat, t: State) {
    && Fresh(s, n) && s.w.servers[n].spec.gameType !in cfg.registered && now <= s.w.now
    && SStatus(s, n, UnregisteredEdit(s.w.servers[n].status, message, now), t)
  }

  ghost predicate SProbe(cfg: Config, s: State, n: Name, probe: Probe, observe: bool, now: nat, t: State) {
    && Fresh(s, n) && s.w.servers[n].spec.gameType in cfg.registered && now <= s.w.now
    && SStatus(s, n, ProbeEdit(s.w.servers[n].status, s.w.servers[n].generation, probe, observe, now), t)
  }

  ghost predicate SCreateSet(cfg: Config, s: State, n: Name, t: State) {
    && n in s.l.serverPass && s.l.serverPass[n].spec.gameType in cfg.registered
    && Done(CreateSet(s.w, n, StatefulSetFor(n, s.l.serverPass[n])), t) && t.l == s.l
  }

  ghost predicate SSyncSet(cfg: Config, s: State, n: Name, t: State) {
    && n in s.l.serverPass && s.l.serverPass[n].spec.gameType in cfg.registered && n in s.w.sets
    && Done(UpdateSet(s.w, n, SyncSet(s.w.sets[n], StatefulSetFor(n, s.l.serverPass[n]))), t) && t.l == s.l
  }

  /** The external and the headless Service of a GameServer select that GameServer. */
  ghost predicate SServe(s: State, n: Name, name: Name, svc: Service, t: State) {
    && n in s.l.serverPass && (name == n || name == n + "-headless")
    && svc.selector == GameServerLabels(n, s.l.serverPass[n].spec.gameType)
    && t == s.(w := PutService(s.w, name, svc))
  }

  ghost predicate Leaving(s: State, n: Name) {
    n !in s.l.serverPass && n in s.w.servers && s.w.servers[n].deleting
  }

  ghost predicate SScaleDown(s: State, n: Name, t: State) {
    && Leaving(s, n) && n in s.w.sets
    && Done(UpdateSet(s.w, n, s.w.sets[n].(replicas := Some(0))), t) && t.l == s.l
  }

  ghost predicate SStopping(s: State, n: Name, t: State) {
    Leaving(s, n) && SStatus(s, n, s.w.servers[n].status.(phase := Stopping), t)
  }

  /** The GameServer controller lets go only when no pod is wanted and none is ready. */
  ghost predicate SRelease(s: State, n: Name, t: State) {
    && Leaving(s, n) && Drained(s.w, n)
    && Done(UpdateServer(s.w, n, s.w.servers[n].(finalizers := Without(s.w.servers[n].finalizers, SERVER_FINALIZER))),
            t)
    && t.l == s.l
  }

  // ---- everybody else ----

  /** Pods only move toward the replica count asked for; readiness may be lost at any time. */
  predicate Toward(sts: StatefulSet, replicas: int, ready: int) {
    && 0 <= ready <= replicas
    && sts.replicas.Some?
    && (replicas <= sts.statusReplicas || replicas <= sts.replicas.value)
    && (ready <= sts.readyReplicas || ready <= sts.replicas.value)
  }

  ghost predicate ETick(s: State, d: nat, t: State) {
    t == s.(w := s.w.(now := s.w.now + d))
  }

  ghost predicate EMoveSet(s: State, n: Name, replicas: int, ready: int, t: State) {
    && n in s.w.sets && Toward(s.w.sets[n], replicas, ready)
    && t == s.(w := PutSet(s.w, n, s.w.sets[n].(statusReplicas := replicas, readyReplicas := ready)))
  }

  ghost predicate ECollectSet(s: State, n: Name, t: State) {
    && n in s.w.sets && (n in s.w.servers ==> s.w.servers[n].uid != s.w.sets[n].owner)
    && t == s.(w := s.w.(revision := s.w.revision + 1, sets := s.w.sets - {n}))
  }

  /** The owners of Services are not recorded: any Service may be collected, at any time. */
  ghost predicate ECollectService(s: State, k: Name, t: State) {
    k in s.w.services && t == s.(w := s.w.(revision := s.w.revision + 1, services := s.w.services - {k}))
  }

  const NEW_FLEET_STATUS := FleetStatus(NoPhase, 0, 0, [], "", [])

  function NewFleet(w: World, template: Template, finalizers: seq<string>): Fleet {
    Fleet(w.revision + 1, w.revision + 1, 1, finalizers, false, template, NEW_FLEET_STATUS)
  }

  /** A new fleet starts a new hash log. */
  ghost predicate ECreateFleet(cfg: Config, s: State, f: Name, template: Template, finalizers: seq<string>, t: State) {
    && f !in s.w.fleets
    && t == State(PutFleet(s.w, f, NewFleet(s.w, template, finalizers)),
                  s.l.(logs := s.l.logs[f := FleetLog([ComputeTemplateHash(cfg, template)], 0, 0, [])]))
  }

  function Rehash(log: FleetLog, hash: string): FleetLog
    requires log.hashes != []
  {
    if hash == log.hashes[|log.hashes| - 1] then log else log.(hashes := log.hashes + [hash])
  }

  /** An edit of the template extends the hash log when it changes the hash. */
  ghost predicate EEditFleet(cfg: Config, s: State, f: Name, template: Template, t: State) {
    && f in s.w.fleets && f in s.l.logs && s.l.logs[f].hashes != []
    && Done(UpdateFleet(s.w, f, s.w.fleets[f].(template := template)), t)
    && t.l == s.l.(logs := s.l.logs[f := Rehash(s.l.logs[f], ComputeTemplateHash(cfg, template))])
  }

  ghost predicate EDeleteFleet(s: State, f: Name, t: State) {
    Done(DeleteFleet(s.w, f), t) && t.l == s.l
  }

  /** A GameServer outside any fleet. */
  ghost predicate ECreateServer(s: State, n: Name, gs: GameServer, t: State) {
    LabelOf(gs.labels) == None && Done(CreateServer(s.w, n, gs), t) && t.l == s.l
  }

  ghost predicate EUpdateServer(s: State, n: Name, gs: GameServer, t: State) {
    && n in s.w.servers && LabelOf(s.w.servers[n].labels) == None && LabelOf(gs.labels) == None
    && gs.finalizers == s.w.servers[n].finalizers
    && Done(UpdateServer(s.w, n, gs), t) && t.l == s.l
  }

  ghost predicate EDeleteServer(s: State, n: Name, t: State) {
    n in s.w.servers && LabelOf(s.w.servers[n].labels) == None && Done(DeleteServer(s.w, n), t) && t.l == s.l
  }

  /** Somebody drops the hash annotation of a GameServer. */
  ghost predicate EUnstamp(s: State, n: Name, t: State) {
    && n in s.w.servers
    && Done(UpdateServer(s.w, n, s.w.servers[n].(annotations := s.w.servers[n].annotations - {HASH_ANNOTATION})), t)
    && t.l == s.l
  }

  // ---- the actions ----

  datatype FleetAct =
    | Begin | End | AddFinalizer                      // a steady pass: read the fleet, return
    | CreateGs | UpdateGs | PatchHash | DeleteFailed
    | SyncStatus(gs: ServerStatus, now: nat)
    | StartStatus(from: string, now: nat)
    | CompleteStatus(gs: ServerStatus, unsynced: Option<nat>, version: string, now: nat)
    | CreatedStatus(now: nat) | ResetStatus
    | ServeFleet(svc: Service, gameType: string)
    | StripGs | DeleteGs | DropService | Release      // finalize

  datatype ServerAct =
    | BeginServer | EndServer | AddServerFinalizer
    | MarkUnregistered(message: string, now: nat)
    | Report(probe: Probe, observe: bool, now: nat)
    | MakeSet | Resync
    | Serve(name: Name, svc: Service)
    | ScaleDown | MarkStopping | ReleaseServer        // finalize

  datatype EnvAct =
    | Tick(d: nat)
    | MoveSet(n: Name, replicas: int, ready: int)     // the StatefulSet controller and the kubelet
    | CollectSet(n: Name) | CollectService(k: Name)   // the garbage collector
    | UserCreateFleet(f: Name, template: Template, finalizers: seq<string>)
    | UserEditFleet(f: Name, template: Template)
    | UserDeleteFleet(f: Name)
    | UserCreateServer(n: Name, gs: GameServer)
    | UserUpdateServer(n: Name, gs: GameServer)
    | UserDeleteServer(n: Name)
    | UserUnstamp(n: Name)

  datatype Action = FleetCtl(f: Name, fact: FleetAct) | ServerCtl(n: Name, sact: ServerAct) | Env(eact: EnvAct)

  ghost predicate FleetStep(cfg: Config, s: State, f: Name, act: FleetAct, t: State) {
    match act
    case Begin => FBegin(s, f, t)
    case End => FEnd(s, f, t)
    case AddFinalizer => FAddFinalizer(s, f, t)
    case CreateGs => FCreateGs(cfg, s, f, t)
    case UpdateGs => FUpdateGs(cfg, s, f, t)
    case PatchHash => FPatchHash(cfg, s, f, t)
    case DeleteFailed => FDeleteFailed(cfg, s, f, t)
    case SyncStatus(gs, now) => FSyncStatus(cfg, s, f, gs, now, t)
    case StartStatus(from, now) => FStartStatus(cfg, s, f, from, now, t)
    case CompleteStatus(gs, unsynced, version, now) => FCompleteStatus(cfg, s, f, gs, unsynced, version, now, t)
    case CreatedStatus(now) => FCreatedStatus(cfg, s, f, now, t)
    case ResetStatus => FResetStatus(cfg, s, f, t)
    case ServeFleet(svc, gameType) => FServe(s, f, svc, gameType, t)
    case StripGs => FStripGs(s, f, t)
    case DeleteGs => FDeleteGs(s, f, t)
    case DropService => FDropService(s, f, t)
    case Release => FRelease(s, f, t)
  }

  ghost predicate ServerStep(cfg: Config, s: State, n: Name, act: ServerAct, t: State) {
    match act
    case BeginServer => SBegin(s, n, t)
    case EndServer => SEnd(s, n, t)
    case AddServerFinalizer => SAddFinalizer(s, n, t)
    case MarkUnregistered(message, now) => SUnregistered(cfg, s, n, message, now, t)
    case Report(probe, observe, now) => SProbe(cfg, s, n, probe, observe, now, t)
    case MakeSet => SCreateSet(cfg, s, n, t)
    case Resync => SSyncSet(cfg, s, n, t)
    case Serve(name, svc) => SServe(s, n, name, svc, t)
    case ScaleDown => SScaleDown(s, n, t)
    case MarkStopping => SStopping(s, n, t)
    case ReleaseServer => SRelease(s, n, t)
  }

  ghost predicate EnvStep(cfg: Config, s: State, act: EnvAct, t: State) {
    match act
    case Tick(d) => ETick(s, d, t)
    case MoveSet(n, replicas, ready) => EMoveSet(s, n, replicas, ready, t)
    case CollectSet(n) => ECollectSet(s, n, t)
    case CollectService(k) => ECollectService(s, k, t)
    case UserCreateFleet(f, template, finalizers) => ECreateFleet(cfg, s, f, template, finalizers, t)
    case UserEditFleet(f, template) => EEditFleet(cfg, s, f, template, t)
    case UserDeleteFleet(f) => EDeleteFleet(s, f, t)
    case UserCreateServer(n, gs) => ECreateServer(s, n, gs, t)
    case UserUpdateServer(n, gs) => EUpdateServer(s, n, gs, t)
    case UserDeleteServer(n) => EDeleteServer(s, n, t)
    case UserUnstamp(n) => EUnstamp(s, n, t)
  }

  /** Action `a` takes state `s` to state `t`. */
  ghost predicate Step(cfg: Config, s: State, a: Action, t: State) {
    match a
    case FleetCtl(f, act) => FleetStep(cfg, s, f, act, t)
    case ServerCtl(n, act) => ServerStep(cfg, s, n, act, t)
    case Env(act) => EnvStep(cfg, s, act, t)
  }

  // ---- runs ----

  /** `path` lists the states of a run: each follows from the one before by the action between them. */
  ghost predicate Runs(cfg: Config, path: seq<State>, acts: seq<Action>) {
    && |path| == |acts| + 1
    && forall i :: 0 <= i < |acts| ==> Step(cfg, path[i], acts[i], path[i + 1])
  }
}

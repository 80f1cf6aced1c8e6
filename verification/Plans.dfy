/** What an undisturbed pass does: the decision table of each controller, as the list of its actions. */
module Plans {
  import opened Types
  import opened Live
  import opened Webhook
  import opened TemplateHash
  import opened Builders
  import opened Store
  import opened Actions

  function FleetActs(f: Name, acts: seq<FleetAct>): (r: seq<Action>)
    ensures |r| == |acts|
  {
    seq(|acts|, i requires 0 <= i < |acts| => FleetCtl(f, acts[i]))
  }

  function ServerActs(n: Name, acts: seq<ServerAct>): (r: seq<Action>)
    ensures |r| == |acts|
  {
    seq(|acts|, i requires 0 <= i < |acts| => ServerCtl(n, acts[i]))
  }

  // ---- CreateOrUpdate of the Services ----

  function FleetServiceSync(w: World, f: Name, n: Name, gs: GameServer): Service {
    var built := FleetService(f, n, gs);
    if f in w.services then
      w.services[f].(selector := built.selector, serviceType := built.serviceType, ports := built.ports,
                     annotations := built.annotations)
    else built
  }

  function HeadlessSync(w: World, n: Name, gs: GameServer): Service {
    var built := HeadlessService(n, gs);
    if n + "-headless" in w.services then
      w.services[n + "-headless"].(labels := built.labels, selector := built.selector, ports := built.ports)
    else built
  }

  function ExternalSync(w: World, n: Name, gs: GameServer): Service {
    var built := ExternalService(n, gs);
    if n in w.services then
      w.services[n].(labels := built.labels, annotations := built.annotations, serviceType := built.serviceType,
                     selector := built.selector, ports := built.ports)
    else built
  }

  predicate HasService(w: World, name: Name, svc: Service) {
    name in w.services && w.services[name] == svc
  }

  // ---- fleet controller ----

  function ServePlan(w: World, f: Name, gs: GameServer): seq<FleetAct> {
    var svc := FleetServiceSync(w, f, OwnedName(f), gs);
    if HasService(w, f, svc) then [] else [ServeFleet(svc, gs.spec.gameType)]
  }

  /** The fleet owns nothing: create its GameServer, note it in the status, serve it. */
  function CreatePlan(cfg: Config, w: World, f: Name, fleet: Fleet): seq<FleetAct> {
    var n := OwnedName(f);
    var built := BuildServer(cfg, f, fleet.template);
    if CreateServer(w, n, built).err != None then []
    else [CreateGs, CreatedStatus(w.now)] + ServePlan(w, f, CreateServer(w, n, built).world.servers[n])
  }

  /** The stored hash differs from the template's: write the template in place, and record the start if the
      history has room. */
  function UpdatePlan(cfg: Config, w: World, f: Name, fleet: Fleet, gs: GameServer): seq<FleetAct>
    requires OwnedName(f) in w.servers
  {
    if UpdateServer(w, OwnedName(f), Redeploy(cfg, f, gs, fleet.template)).err != None then []
    else if cfg.capHistory && |fleet.status.history| >= 10 then [UpdateGs]
    else [UpdateGs, StartStatus(gs.spec.version, w.now)]
  }

  predicate CompletesNow(fleet: Fleet, gs: GameServer) {
    fleet.status.phase == Progressing && gs.status.ready && fleet.generation >= gs.generation
  }

  /** No drift: report the GameServer's state, close the rollout if this pass ends one, serve it. */
  function SyncPlan(w: World, f: Name, fleet: Fleet, gs: GameServer): seq<FleetAct> {
    [SyncStatus(gs.status, w.now)]
    + (if CompletesNow(fleet, gs) then [CompleteStatus(gs.status, None, gs.spec.version, w.now)] else [])
    + ServePlan(w, f, gs)
  }

  /** handleSteadyState. */
  function SteadyPlan(cfg: Config, w: World, f: Name, fleet: Fleet): seq<FleetAct> {
    var n := OwnedName(f);
    if !OwnedBy(w, f, n) then CreatePlan(cfg, w, f, fleet)
    else
      var gs := w.servers[n];
      var hash := ComputeTemplateHash(cfg, fleet.template);
      var current := HashOf(gs.annotations);
      if gs.status.phase == Failed then [DeleteFailed, ResetStatus]
      else if current != "" && current != hash then UpdatePlan(cfg, w, f, fleet, gs)
      else (if current == "" then [PatchHash] else []) + SyncPlan(w, f, fleet, gs)
  }

  /** finalize. */
  function FinalizePlan(w: World, f: Name): seq<FleetAct> {
    var n := OwnedName(f);
    if OwnedBy(w, f, n) then
      var gs := w.servers[n];
      if gs.deleting then [] else (if SERVER_FINALIZER in gs.finalizers then [StripGs] else []) + [DeleteGs]
    else (if f in w.services then [DropService] else []) + [Release]
  }

  /** Reconcile. */
  function FleetPlan(cfg: Config, w: World, f: Name): seq<FleetAct> {
    if f !in w.fleets then []
    else
      var fleet := w.fleets[f];
      if fleet.deleting then FinalizePlan(w, f)
      else if FLEET_FINALIZER !in fleet.finalizers then [Begin, AddFinalizer, End]
      else [Begin] + SteadyPlan(cfg, w, f, fleet) + [End]
  }

  const FLEET_INTERVAL := 10

  function CreateOutcome(cfg: Config, w: World, f: Name, fleet: Fleet): Result {
    match CreateServer(w, OwnedName(f), BuildServer(cfg, f, fleet.template)).err
    case Some(e) => Fail(e)
    case None => After(FLEET_INTERVAL)
  }

  function UpdateOutcome(cfg: Config, w: World, f: Name, fleet: Fleet, gs: GameServer): Result {
    match UpdateServer(w, OwnedName(f), Redeploy(cfg, f, gs, fleet.template)).err
    case Some(e) => Fail(e)
    case None => if cfg.capHistory && |fleet.status.history| >= 10 then Fail(Invalid) else After(FLEET_INTERVAL)
  }

  /** When an undisturbed steady pass wants to be called again. */
  function SteadyOutcome(cfg: Config, w: World, f: Name, fleet: Fleet): Result {
    var n := OwnedName(f);
    if !OwnedBy(w, f, n) then CreateOutcome(cfg, w, f, fleet)
    else
      var current := HashOf(w.servers[n].annotations);
      if w.servers[n].status.phase != Failed && current != "" && current != ComputeTemplateHash(cfg, fleet.template)
      then UpdateOutcome(cfg, w, f, fleet, w.servers[n]) else After(FLEET_INTERVAL)
  }

  function FleetOutcome(cfg: Config, w: World, f: Name): Result {
    if f !in w.fleets then Return
    else if w.fleets[f].deleting then if OwnedBy(w, f, OwnedName(f)) then After(2) else Return
    else if FLEET_FINALIZER !in w.fleets[f].finalizers then Requeue
    else SteadyOutcome(cfg, w, f, w.fleets[f])
  }

  // ---- GameServer controller ----

  const REQUEUE_INTERVAL := 30

  const AVAILABLE := Probe(true, "Available", "GameServer is running")
  const NOT_READY := Probe(false, "Provisioning", "StatefulSet not ready")
  const SET_FAILED := Probe(false, "StatefulSetReconcileFailed", "Could not reconcile StatefulSet")
  const HEADLESS_FAILED := Probe(false, "ServiceReconcileFailed", "Could not reconcile headless Service")
  const EXTERNAL_FAILED := Probe(false, "ServiceReconcileFailed", "Could not reconcile external Service")

  function NoAdapterMessage(gameType: string): string {
    "No adapter for game type \"" + gameType + "\""
  }

  function HeadlessPlan(w: World, n: Name, gs: GameServer): seq<ServerAct> {
    var svc := HeadlessSync(w, n, gs);
    if HasService(w, n + "-headless", svc) then [] else [Serve(n + "-headless", svc)]
  }

  function ExternalPlan(w: World, n: Name, gs: GameServer): seq<ServerAct> {
    var svc := ExternalSync(w, n, gs);
    if HasService(w, n, svc) then [] else [Serve(n, svc)]
  }

  /** Whether the StatefulSet's readiness makes the GameServer Running. */
  function ProbeOf(w: World, n: Name): Probe {
    if n in w.sets && w.sets[n].readyReplicas >= 1 then AVAILABLE else NOT_READY
  }

  function SetPlan(w: World, n: Name, gs: GameServer): seq<ServerAct> {
    if n !in w.sets then [MakeSet]
    else if Builders.SyncSet(w.sets[n], StatefulSetFor(n, gs)) == w.sets[n] then []
    else [Resync]
  }

  predicate SetRefused(w: World, n: Name, gs: GameServer) {
    n in w.sets && w.sets[n].selector != StatefulSetFor(n, gs).selector
  }

  function RestPlan(w: World, n: Name, gs: GameServer): seq<ServerAct> {
    if SetRefused(w, n, gs) then [Report(SET_FAILED, false, w.now)]
    else SetPlan(w, n, gs) + ExternalPlan(w, n, gs) + [Report(ProbeOf(w, n), true, w.now)]
  }

  function ServerSteadyPlan(cfg: Config, w: World, n: Name, gs: GameServer): seq<ServerAct> {
    if SERVER_FINALIZER !in gs.finalizers then [AddServerFinalizer]
    else if gs.spec.gameType !in cfg.registered then [MarkUnregistered(NoAdapterMessage(gs.spec.gameType), w.now)]
    else HeadlessPlan(w, n, gs) + RestPlan(w, n, gs)
  }

  predicate ScalesDown(w: World, n: Name) {
    n in w.sets && (w.sets[n].statusReplicas == 0 || (w.sets[n].replicas.Some? && w.sets[n].replicas.value != 0))
  }

  /** finalize of the GameServer controller. */
  function ServerFinalizePlan(w: World, n: Name): seq<ServerAct>
    requires n in w.servers
  {
    (if ScalesDown(w, n) then [ScaleDown] else [])
    + if n in w.sets && w.sets[n].readyReplicas > 0 then [MarkStopping]
      else if SERVER_FINALIZER in w.servers[n].finalizers then [ReleaseServer] else []
  }

  function ServerPlan(cfg: Config, w: World, n: Name): seq<ServerAct> {
    if n !in w.servers then []
    else if w.servers[n].deleting then ServerFinalizePlan(w, n)
    else [BeginServer] + ServerSteadyPlan(cfg, w, n, w.servers[n]) + [EndServer]
  }

  function ServerOutcome(cfg: Config, w: World, n: Name): Result {
    if n !in w.servers then Return
    else
      var gs := w.servers[n];
      if gs.deleting then if n in w.sets && w.sets[n].readyReplicas > 0 then After(5) else Return
      else if SERVER_FINALIZER !in gs.finalizers then Requeue
      else if gs.spec.gameType in cfg.registered && SetRefused(w, n, gs) then Fail(Invalid)
      else After(REQUEUE_INTERVAL)
  }
}

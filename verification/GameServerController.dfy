/** The GameServer controller: one pass over one GameServer, call by call, with others acting in between. */
module GameServerController {
  import opened Types
  import opened Conditions
  import opened Live
  import opened Webhook
  import opened Builders
  import opened Store
  import opened Actions
  import opened Invariants
  import opened Preservation
  import opened Evolution
  import opened Servers
  import opened Deletion
  import opened Plans
  import opened Rely
  import opened Traces
  import opened Cluster

  // ---- what a pass did ----

  /** From trace `x` to trace `y` the pass did exactly `acts`, in this order, whatever others did in between. */
  ghost predicate ServerDid(n: Name, quiet: bool, x: Log, y: Log, acts: seq<ServerAct>) {
    Did(Of(ServerController(n)), quiet, x, y, ServerActs(n, acts))
  }

  lemma ServerThen(n: Name, quiet: bool, x: Log, y: Log, z: Log, a: seq<ServerAct>, b: seq<ServerAct>)
    requires ServerDid(n, quiet, x, y, a) && ServerDid(n, quiet, y, z, b)
    ensures ServerDid(n, quiet, x, z, a + b) && (a == [] ==> a + b == b) && (b == [] ==> a + b == a)
  {
    DidThen(Of(ServerController(n)), quiet, x, y, z, ServerActs(n, a), ServerActs(n, b));
    assert ServerActs(n, a + b) == ServerActs(n, a) + ServerActs(n, b);
  }

  lemma ServerIdle(n: Name, quiet: bool, x: Log)
    ensures ServerDid(n, quiet, x, x, [])
  {
    DidNothing(Of(ServerController(n)), quiet, x);
    assert ServerActs(n, []) == [];
  }

  /** A pause and a write. */
  lemma ServerWrote(n: Name, quiet: bool, x: Log, y: Log, z: Log, act: ServerAct, took: bool)
    requires ServerDid(n, quiet, x, y, [])
    requires Did(Of(ServerController(n)), quiet, y, z, if took then [ServerCtl(n, act)] else [])
    ensures ServerDid(n, quiet, x, z, if took then [act] else [])
  {
    assert ServerActs(n, [act]) == [ServerCtl(n, act)] && ServerActs(n, []) == [];
    ServerThen(n, quiet, x, y, z, [], if took then [act] else []);
  }

  /** The place of an action within a pass over GameServer `n`. */
  function ServerPlace(n: Name, act: ServerAct): nat {
    match act
    case BeginServer => 0
    case AddServerFinalizer => 1
    case Serve(name, _) => if name == n then 4 else 2
    case MakeSet => 3
    case Resync => 3
    case MarkUnregistered(_, _) => 5
    case Report(_, _, _) => 5
    case ScaleDown => 6
    case MarkStopping => 7
    case ReleaseServer => 7
    case EndServer => 8
  }

  ghost predicate ServerInOrder(n: Name, acts: seq<ServerAct>) {
    forall i, j :: 0 <= i < j < |acts| ==> ServerPlace(n, acts[i]) < ServerPlace(n, acts[j])
  }

  ghost predicate ServerWithin(n: Name, acts: seq<ServerAct>, lo: nat, hi: nat) {
    forall i :: 0 <= i < |acts| ==> lo <= ServerPlace(n, acts[i]) <= hi
  }

  lemma JoinServerOrder(n: Name, a: seq<ServerAct>, b: seq<ServerAct>, lo: nat, mid: nat, next: nat, hi: nat)
    requires ServerInOrder(n, a) && ServerWithin(n, a, lo, mid) && ServerInOrder(n, b) && ServerWithin(n, b, next, hi)
    requires lo <= mid < next <= hi
    ensures ServerInOrder(n, a + b) && ServerWithin(n, a + b, lo, hi)
  {
  }

  // ---- calls ----

  method PauseServer(c: Cluster, n: Name)
    requires c.Valid()
    modifies c`world, c`ledger, c`path, c`run
    ensures c.Valid() && Inv(c.cfg, c.Here()) && ServerRely(old(c.Here()), c.Here(), n)
    ensures ServerDid(n, c.quiet, old(c.Past()), c.Past(), [])
    ensures c.quiet ==> c.Here() == old(c.Here())
  {
    hide Inv, Step, ServerRely;
    c.Others(ServerController(n));
    c.Reachable();
    OthersRelyServer(c.cfg, old(c.path), old(c.run), c.path, c.run, n);
    OthersDid(Of(ServerController(n)), c.quiet, old(c.Past()), c.Past());
    assert ServerActs(n, []) == [];
  }

  lemma OthersRelyServer(cfg: Config, path: seq<State>, run: seq<Action>, path': seq<State>, run': seq<Action>, n: Name)
    requires Runs(cfg, path, run) && Runs(cfg, path', run') && Inv(cfg, path'[0])
    requires path <= path' && run <= run' && NoneOf(Of(ServerController(n)), run'[|run|..])
    ensures ServerRely(path[|run|], path'[|run'|], n)
  {
    hide Inv, Step, ServerRely;
    forall k | |run| <= k < |run'| ensures !By(ServerController(n), run'[k]) {
      assert run'[k] == run'[|run|..][k - |run|];
    }
    ServerRelyRun(cfg, path', run', n, |run|, |run'|);
  }

  // ---- the steady pass ----

  /** The steady pass in flight for `n` read `snap`. */
  ghost predicate InServerPass(cfg: Config, s: State, n: Name, snap: GameServer) {
    Inv(cfg, s) && n in s.l.serverPass && s.l.serverPass[n] == snap
  }

  method PauseServing(c: Cluster, n: Name, ghost snap: GameServer)
    requires c.Valid() && InServerPass(c.cfg, c.Here(), n, snap)
    modifies c`world, c`ledger, c`path, c`run
    ensures c.Valid() && InServerPass(c.cfg, c.Here(), n, snap) && ServerRely(old(c.Here()), c.Here(), n)
    ensures old(c.world.now) <= c.world.now
    ensures ServerDid(n, c.quiet, old(c.Past()), c.Past(), [])
    ensures c.quiet ==> c.Here() == old(c.Here())
  {
    hide Inv, Cluster.Valid, ServerDid;
    PauseServer(c, n);
  }

  lemma ServingWrote(cfg: Config, s: State, t: State, n: Name, snap: GameServer, act: ServerAct)
    requires InServerPass(cfg, s, n, snap) && ServerStep(cfg, s, n, act, t) && !act.EndServer? && t.l == s.l
    ensures InServerPass(cfg, t, n, snap)
  {
    hide ServerStep, Inv;
    ServerStepKeeps(cfg, s, n, act, t);
  }

  /** The status an act of a steady pass writes. */
  function ServerStatusFrom(snap: GameServer, act: ServerAct): ServerStatus {
    match act
    case MarkUnregistered(message, now) => UnregisteredEdit(snap.status, message, now)
    case Report(probe, observe, now) => ProbeEdit(snap.status, snap.generation, probe, observe, now)
    case _ => snap.status
  }

  predicate ServerStatusReady(cfg: Config, snap: GameServer, act: ServerAct, clock: nat) {
    match act
    case MarkUnregistered(_, now) => snap.spec.gameType !in cfg.registered && now <= clock
    case Report(_, _, now) => snap.spec.gameType in cfg.registered && now <= clock
    case _ => false
  }

  lemma ServerStatusIsAction(cfg: Config, s: State, n: Name, snap: GameServer, memory: GameServer, act: ServerAct)
    requires InServerPass(cfg, s, n, snap) && memory.version == snap.version
    requires memory.status == ServerStatusFrom(snap, act) && ServerStatusReady(cfg, snap, act, s.w.now)
    ensures var r := UpdateServerStatus(s.w, n, memory);
            && (if r.err == None then ServerStep(cfg, s, n, act, State(r.world, s.l)) else r.world == s.w)
            && (n in s.w.servers && s.w.servers[n] == snap ==> r.err == None)
  {
    hide ProbeEdit, UnregisteredEdit;
    assert PassOk(s, n);
  }

  /** Status().Update at the end of a steady pass: on the version that was read, or not at all. */
  method SaveServerStatus(c: Cluster, n: Name, gs: LiveServer, ghost snap: GameServer, ghost act: ServerAct)
    returns (err: Option<Error>, ghost acts: seq<ServerAct>)
    requires c.Valid() && InServerPass(c.cfg, c.Here(), n, snap)
    requires gs.o == snap.(status := ServerStatusFrom(snap, act)) && ServerStatusReady(c.cfg, snap, act, c.world.now)
    modifies c`world, c`ledger, c`path, c`run
    ensures c.Valid() && InServerPass(c.cfg, c.Here(), n, snap)
    ensures ServerDid(n, c.quiet, old(c.Past()), c.Past(), acts) && (acts == [] || acts == [act])
    ensures err == None ==> acts == [act]
    ensures c.quiet && old(n in c.world.servers && c.world.servers[n] == snap) ==> err == None
  {
    hide Inv, ServerStep, ServerStatusFrom, UpdateServerStatus, ServerRely, ServerDid, Did, Cluster.Valid;
    PauseServing(c, n, snap);
    ghost var s, y := c.Here(), c.Past();
    ServerStatusIsAction(c.cfg, s, n, snap, gs.o, act);
    ghost var took;
    err, took := c.Write(UpdateServerStatus(c.world, n, gs.o), ServerController(n), ServerCtl(n, act), s.l);
    ServerWrote(n, c.quiet, old(c.Past()), y, c.Past(), act, took);
    acts := if took then [act] else [];
    if took {
      ServingWrote(c.cfg, s, c.Here(), n, snap, act);
    }
  }

  // ---- Services ----

  lemma SaveServiceIsAction(cfg: Config, s: State, n: Name, snap: GameServer, name: Name, fetched: Option<Service>,
                            svc: Service)
    requires InServerPass(cfg, s, n, snap) && (name == n || name == n + "-headless")
    requires svc.selector == GameServerLabels(n, snap.spec.gameType)
    ensures var r := SaveService(s.w, name, fetched, svc);
            && (if r.err == None then SServe(s, n, name, svc, State(r.world, s.l)) else r.world == s.w)
            && (fetched == (if name in s.w.services then Some(s.w.services[name]) else None) ==> r.err == None)
  {
  }

  /** The second half of CreateOrUpdate for a Service: nothing is written when the mutated object is what was found. */
  method SaveIfChanged(c: Cluster, n: Name, name: Name, fetched: Option<Service>, svc: Service, ghost snap: GameServer)
    returns (err: Option<Error>, ghost acts: seq<ServerAct>)
    requires c.Valid() && InServerPass(c.cfg, c.Here(), n, snap) && (name == n || name == n + "-headless")
    requires svc.selector == GameServerLabels(n, snap.spec.gameType)
    modifies c`world, c`ledger, c`path, c`run
    ensures c.Valid() && InServerPass(c.cfg, c.Here(), n, snap)
    ensures ServerDid(n, c.quiet, old(c.Past()), c.Past(), acts) && (acts == [] || acts == [Serve(name, svc)])
    ensures err == None && fetched != Some(svc) ==> acts != []
    ensures c.quiet && old(fetched == (if name in c.world.services then Some(c.world.services[name]) else None)) ==>
              && err == None && acts == (if old(HasService(c.world, name, svc)) then [] else [Serve(name, svc)])
              && c.world == old(c.world).(revision := c.world.revision, services := c.world.services)
              && forall k :: k != name ==> (k in c.world.services <==> k in old(c.world.services))
                                           && (k in c.world.services ==>
                                               c.world.services[k] == old(c.world.services)[k])
  {
    hide Inv, GameServerLabels, ServerRely, SServe, ServerDid, Did, Cluster.Valid;
    err, acts := None, [];
    ServerIdle(n, c.quiet, c.Past());
    if fetched != Some(svc) {
      PauseServing(c, n, snap);
      ghost var s, y := c.Here(), c.Past();
      SaveServiceIsAction(c.cfg, s, n, snap, name, fetched, svc);
      ghost var took;
      err, took := c.Write(SaveService(c.world, name, fetched, svc), ServerController(n),
                           ServerCtl(n, Serve(name, svc)), s.l);
      ServerWrote(n, c.quiet, old(c.Past()), y, c.Past(), Serve(name, svc), took);
      acts := if took then [Serve(name, svc)] else [];
      if took {
        ServingWrote(c.cfg, s, c.Here(), n, snap, Serve(name, svc));
      }
    }
  }

  method DesiredHeadless(fetched: Option<Service>, n: Name, gs: GameServer) returns (svc: Service)
    ensures svc.selector == GameServerLabels(n, gs.spec.gameType)
    ensures forall w: World ::
              (fetched == if n + "-headless" in w.services then Some(w.services[n + "-headless"]) else None) ==>
                svc == HeadlessSync(w, n, gs)
  {
    hide GameServerLabels;
    var built := BuildHeadlessService(n, gs);
    svc := if fetched == None then built else fetched.value;
    svc := svc.(labels := built.labels, selector := built.selector, ports := built.ports);
  }

  method DesiredExternal(fetched: Option<Service>, n: Name, gs: GameServer) returns (svc: Service)
    ensures svc.selector == GameServerLabels(n, gs.spec.gameType)
    ensures forall w: World :: fetched == (if n in w.services then Some(w.services[n]) else None) ==>
              svc == ExternalSync(w, n, gs)
  {
    hide GameServerLabels;
    var built := BuildService(n, gs);
    svc := if fetched == None then built else fetched.value;
    svc := svc.(labels := built.labels, annotations := built.annotations, serviceType := built.serviceType,
                selector := built.selector, ports := built.ports);
  }

  /** The Service is the one built for the GameServer, in every field the operator keeps. */
  predicate Built(act: ServerAct, name: Name, built: Service, annotated: bool) {
    && act.Serve? && act.name == name
    && act.svc.selector == built.selector && act.svc.ports == built.ports && act.svc.labels == built.labels
    && (annotated ==> act.svc.serviceType == built.serviceType && act.svc.annotations == built.annotations)
  }

  /** CreateOrUpdate of the headless Service. */
  method SyncHeadless(c: Cluster, n: Name, gs: LiveServer, ghost snap: GameServer)
    returns (err: Option<Error>, ghost acts: seq<ServerAct>)
    requires c.Valid() && InServerPass(c.cfg, c.Here(), n, snap) && gs.o.spec == snap.spec
    modifies c`world, c`ledger, c`path, c`run
    ensures c.Valid() && InServerPass(c.cfg, c.Here(), n, snap)
    ensures ServerDid(n, c.quiet, old(c.Past()), c.Past(), acts) && |acts| <= 1
    ensures |acts| == 1 ==> Built(acts[0], n + "-headless", HeadlessService(n, gs.o), false)
    ensures c.quiet ==> err == None && acts == HeadlessPlan(old(c.world), n, gs.o)
                        && c.world == old(c.world).(revision := c.world.revision, services := c.world.services)
                        && forall k :: k != n + "-headless" ==>
                                         (k in c.world.services <==> k in old(c.world.services))
                                         && (k in c.world.services ==> c.world.services[k] == old(c.world.services)[k])
  {
    hide Inv, GameServerLabels, ServerRely, HeadlessSync, HeadlessService, ServerDid, Cluster.Valid;
    PauseServing(c, n, snap);
    err := c.Reach();
    if err != None {
      return err, [];
    }
    var name := n + "-headless";
    var fetched := if name in c.world.services then Some(c.world.services[name]) else None;
    var svc := DesiredHeadless(fetched, n, gs.o);
    assert svc == HeadlessSync(c.world, n, gs.o);
    HeadlessIsBuilt(c.world, n, gs.o);
    ghost var y := c.Past();
    err, acts := SaveIfChanged(c, n, name, fetched, svc, snap);
    ServerThen(n, c.quiet, old(c.Past()), y, c.Past(), [], acts);
  }

  lemma HeadlessIsBuilt(w: World, n: Name, gs: GameServer)
    ensures Built(Serve(n + "-headless", HeadlessSync(w, n, gs)), n + "-headless", HeadlessService(n, gs), false)
  {
  }

  lemma ExternalIsBuilt(w: World, n: Name, gs: GameServer)
    ensures Built(Serve(n, ExternalSync(w, n, gs)), n, ExternalService(n, gs), true)
  {
  }

  /** CreateOrUpdate of the external Service. */
  method SyncExternal(c: Cluster, n: Name, gs: LiveServer, ghost snap: GameServer)
    returns (err: Option<Error>, ghost acts: seq<ServerAct>)
    requires c.Valid() && InServerPass(c.cfg, c.Here(), n, snap) && gs.o.spec == snap.spec
    modifies c`world, c`ledger, c`path, c`run
    ensures c.Valid() && InServerPass(c.cfg, c.Here(), n, snap)
    ensures ServerDid(n, c.quiet, old(c.Past()), c.Past(), acts) && |acts| <= 1
    ensures |acts| == 1 ==> Built(acts[0], n, ExternalService(n, gs.o), true)
    ensures c.quiet ==> err == None && acts == ExternalPlan(old(c.world), n, gs.o)
                        && c.world == old(c.world).(revision := c.world.revision, services := c.world.services)
  {
    hide Inv, GameServerLabels, ServerRely, ExternalSync, ExternalService, ServerDid, Cluster.Valid;
    PauseServing(c, n, snap);
    err := c.Reach();
    if err != None {
      return err, [];
    }
    var fetched := if n in c.world.services then Some(c.world.services[n]) else None;
    var svc := DesiredExternal(fetched, n, gs.o);
    assert svc == ExternalSync(c.world, n, gs.o);
    ExternalIsBuilt(c.world, n, gs.o);
    ghost var y := c.Past();
    err, acts := SaveIfChanged(c, n, n, fetched, svc, snap);
    ServerThen(n, c.quiet, old(c.Past()), y, c.Past(), [], acts);
  }

  // ---- the StatefulSet ----

  lemma MakeSetIsAction(cfg: Config, s: State, n: Name, snap: GameServer, sts: StatefulSet)
    requires InServerPass(cfg, s, n, snap) && snap.spec.gameType in cfg.registered && sts == StatefulSetFor(n, snap)
    ensures var r := CreateSet(s.w, n, sts);
            && (if r.err == None then ServerStep(cfg, s, n, MakeSet, State(r.world, s.l)) else r.world == s.w)
            && (n !in s.w.sets ==> r.err == None && n in r.world.sets && ProbeOf(r.world, n) == ProbeOf(s.w, n))
            && r.world == s.w.(revision := r.world.revision, sets := r.world.sets)
            && r.err != Some(Invalid)
  {
    hide GameServerLabels, ContainerPorts;
  }

  /** The set stored when the update arrives is the one that was read, or the update is refused. */
  lemma SyncSetIsAction(cfg: Config, s0: State, s: State, n: Name, snap: GameServer, fetched: StatefulSet)
    requires InServerPass(cfg, s, n, snap) && snap.spec.gameType in cfg.registered
    requires n in s0.w.sets && s0.w.sets[n] == fetched && ServerRely(s0, s, n)
    ensures var r := UpdateSet(s.w, n, Builders.SyncSet(fetched, StatefulSetFor(n, snap)));
            && (if r.err == None then ServerStep(cfg, s, n, Resync, State(r.world, s.l)) else r.world == s.w)
            && (s.w == s0.w ==> r.err == (if SetRefused(s.w, n, snap) then Some(Invalid) else None))
            && (s.w == s0.w && r.err == None ==> n in r.world.sets && ProbeOf(r.world, n) == ProbeOf(s.w, n))
            && r.world == s.w.(revision := r.world.revision, sets := r.world.sets)
            && (r.err == Some(Invalid) ==> SetRefused(s.w, n, snap))
  {
    hide GameServerLabels, ContainerPorts, ServerSince, Evolves;
    if n in s.w.sets {
      SyncAccepted(cfg, s, n);
    }
  }

  /** CreateOrUpdate of the StatefulSet. It is refused as invalid only when the stored set carries another selector, and
      in quiet times exactly then. */
  method EnsureSet(c: Cluster, n: Name, gs: LiveServer, ghost snap: GameServer)
    returns (err: Option<Error>, ghost acts: seq<ServerAct>)
    requires c.Valid() && InServerPass(c.cfg, c.Here(), n, snap) && snap.spec.gameType in c.cfg.registered
    requires gs.o.spec == snap.spec && gs.o.uid == snap.uid
    modifies c`world, c`ledger, c`path, c`run
    ensures c.Valid() && InServerPass(c.cfg, c.Here(), n, snap)
    ensures ServerDid(n, c.quiet, old(c.Past()), c.Past(), acts)
            && (acts == [] || acts == [MakeSet] || acts == [Resync])
    ensures err == Some(Invalid) ==> acts == [] && SetRefused(c.world, n, snap)
    ensures c.quiet ==> && err == (if SetRefused(old(c.world), n, snap) then Some(Invalid) else None)
                        && (err == None ==> acts == SetPlan(old(c.world), n, snap))
                        && c.world == old(c.world).(revision := c.world.revision, sets := c.world.sets)
                        && (err == None ==> n in c.world.sets) && ProbeOf(c.world, n) == ProbeOf(old(c.world), n)
  {
    hide Inv, GameServerLabels, ServerRely, ServerStep, CreateSet, UpdateSet, ProbeOf, ServerDid, Did, Cluster.Valid;
    acts := [];
    ghost var x := c.Past();
    var built := BuildStatefulSet(c.cfg, n, gs.o);
    assert built == Some(StatefulSetFor(n, snap));
    PauseServing(c, n, snap);
    err := c.Reach();
    if err != None {
      return;
    }
    ghost var s0, y := c.Here(), c.Past();
    if n !in c.world.sets {
      PauseServing(c, n, snap);
      ServerThen(n, c.quiet, x, y, c.Past(), [], []);
      ghost var s, z := c.Here(), c.Past();
      MakeSetIsAction(c.cfg, s, n, snap, built.value);
      ghost var took;
      err, took := c.Write(CreateSet(c.world, n, built.value), ServerController(n), ServerCtl(n, MakeSet), s.l);
      ServerWrote(n, c.quiet, x, z, c.Past(), MakeSet, took);
      acts := if took then [MakeSet] else [];
      if took {
        ServingWrote(c.cfg, s, c.Here(), n, snap, MakeSet);
      }
      return;
    }
    var fetched := c.world.sets[n];
    var sts := Builders.SyncSet(fetched, built.value);
    SameSelector(fetched, built.value);
    if sts != fetched {
      PauseServing(c, n, snap);
      ServerThen(n, c.quiet, x, y, c.Past(), [], []);
      ghost var s, z := c.Here(), c.Past();
      SyncSetIsAction(c.cfg, s0, s, n, snap, fetched);
      ghost var took;
      err, took := c.Write(UpdateSet(c.world, n, sts), ServerController(n), ServerCtl(n, Resync), s.l);
      ServerWrote(n, c.quiet, x, z, c.Past(), Resync, took);
      acts := if took then [Resync] else [];
      if took {
        ServingWrote(c.cfg, s, c.Here(), n, snap, Resync);
      }
    }
  }

  lemma SameSelector(fetched: StatefulSet, built: StatefulSet)
    ensures Builders.SyncSet(fetched, built) == fetched ==> fetched.selector == built.selector
  {
  }

  // ---- the status ----

  /** What a pass has in memory once it knows there is an adapter. */
  function Provisioned(snap: GameServer): GameServer {
    snap.(status := ProbeEdit(snap.status, snap.generation, NoProbe, false, 0))
  }

  /** A child could not be reconciled: not ready, and the write's error is ignored. */
  method ReportFailure(c: Cluster, n: Name, gs: LiveServer, probe: Probe, ghost snap: GameServer)
    returns (ghost acts: seq<ServerAct>)
    requires c.Valid() && InServerPass(c.cfg, c.Here(), n, snap) && snap.spec.gameType in c.cfg.registered
    requires gs.o == Provisioned(snap) && probe.Probe? && !probe.ready
    modifies c`world, c`ledger, c`path, c`run, gs
    ensures c.Valid() && InServerPass(c.cfg, c.Here(), n, snap)
    ensures ServerDid(n, c.quiet, old(c.Past()), c.Past(), acts)
    ensures acts == [] || acts == [Report(probe, false, old(c.world.now))]
    ensures c.quiet && old(n in c.world.servers && c.world.servers[n] == snap) ==> acts != []
  {
    hide Inv, Cluster.Valid, ReadyPut, ServerDid;
    var now := c.world.now;
    gs.SetReady(false, probe.reason, probe.message, now);
    var ignored;
    ignored, acts := SaveServerStatus(c, n, gs, snap, Report(probe, false, now));
  }

  /** The in-memory half of a pass's end: readiness as the StatefulSet that was read tells it, if one was. */
  method EditState(gs: LiveServer, sts: Option<StatefulSet>, now: nat, ghost snap: GameServer)
    returns (ghost probe: Probe)
    requires gs.o == Provisioned(snap)
    modifies gs
    ensures gs.o == snap.(status := ProbeEdit(snap.status, snap.generation, probe, true, now))
    ensures probe == if sts == None then NoProbe else if sts.value.readyReplicas >= 1 then AVAILABLE else NOT_READY
  {
    hide ReadyPut;
    probe := NoProbe;
    if sts != None {
      if sts.value.readyReplicas >= 1 {
        probe := AVAILABLE;
        gs.SetPhase(Running);
        gs.SetReady(true, "Available", "GameServer is running", now);
      } else {
        probe := NOT_READY;
        gs.SetReady(false, "Provisioning", "StatefulSet not ready", now);
      }
    }
    gs.o := gs.o.(status := gs.o.status.(observedGeneration := gs.o.generation));
  }

  /** The end of a pass: the StatefulSet's readiness, read once more, and the generation. A pass that cannot
      read the set leaves readiness as it was. */
  method ReportState(c: Cluster, n: Name, gs: LiveServer, ghost snap: GameServer)
    returns (result: Result, ghost acts: seq<ServerAct>)
    requires c.Valid() && InServerPass(c.cfg, c.Here(), n, snap) && snap.spec.gameType in c.cfg.registered
    requires gs.o == Provisioned(snap)
    modifies c`world, c`ledger, c`path, c`run, gs
    ensures result != Return
    ensures c.Valid() && InServerPass(c.cfg, c.Here(), n, snap)
    ensures ServerDid(n, c.quiet, old(c.Past()), c.Past(), acts) && |acts| <= 1
    ensures |acts| == 1 ==> acts[0].Report? && acts[0].observe && acts[0].probe in {NoProbe, AVAILABLE, NOT_READY}
    ensures result == After(REQUEUE_INTERVAL) ==> |acts| == 1
    ensures c.quiet && old(n in c.world.sets && n in c.world.servers && c.world.servers[n] == snap) ==>
              && result == After(REQUEUE_INTERVAL)
              && acts == [Report(ProbeOf(old(c.world), n), true, old(c.world.now))]
  {
    hide Inv, Cluster.Valid, ProbeEdit, ServerRely, ServerDid;
    PauseServing(c, n, snap);
    ghost var y := c.Past();
    var now := c.world.now;
    var err := c.Reach();
    ghost var probe := EditState(gs, if err == None && n in c.world.sets then Some(c.world.sets[n])
                                 else None, now, snap);
    err, acts := SaveServerStatus(c, n, gs, snap, Report(probe, true, now));
    ServerThen(n, c.quiet, old(c.Past()), y, c.Past(), [], acts);
    if err != None {
      return OnError(err.value), acts;
    }
    result := After(REQUEUE_INTERVAL);
  }

  // ---- Reconcile ----

  lemma AddFinalizerIsAction(cfg: Config, s: State, n: Name, snap: GameServer)
    requires InServerPass(cfg, s, n, snap) && SERVER_FINALIZER !in snap.finalizers
    ensures var r := UpdateServer(s.w, n, snap.(finalizers := snap.finalizers + [SERVER_FINALIZER]));
            && (if r.err == None then ServerStep(cfg, s, n, AddServerFinalizer, State(r.world, s.l))
                else r.world == s.w)
            && (n in s.w.servers && s.w.servers[n] == snap ==> r.err == None)
  {
    assert PassOk(s, n);
    if n in s.w.servers && s.w.servers[n].version == snap.version {
      StripAccepted(cfg, s, n, snap.finalizers + [SERVER_FINALIZER]);
    }
  }

  /** AddFinalizer: true when it was written, false when it was there already. */
  method AddTo(c: Cluster, n: Name, gs: LiveServer, ghost snap: GameServer)
    returns (added: bool, err: Option<Error>, ghost acts: seq<ServerAct>)
    requires c.Valid() && InServerPass(c.cfg, c.Here(), n, snap) && gs.o == snap
    modifies c`world, c`ledger, c`path, c`run, gs
    ensures c.Valid() && InServerPass(c.cfg, c.Here(), n, snap)
    ensures ServerDid(n, c.quiet, old(c.Past()), c.Past(), acts) && (acts == [] || acts == [AddServerFinalizer])
    ensures added <==> SERVER_FINALIZER !in snap.finalizers && err == None
    ensures added ==> acts != []
    ensures SERVER_FINALIZER in snap.finalizers ==>
              err == None && gs.o == snap && c.Here() == old(c.Here()) && c.Past() == old(c.Past()) && acts == []
    ensures c.quiet && old(n in c.world.servers && c.world.servers[n] == snap) ==> err == None
  {
    hide Inv, ServerStep, UpdateServer, ServerRely, ServerDid, Did, Cluster.Valid;
    ServerIdle(n, c.quiet, c.Past());
    if SERVER_FINALIZER in gs.o.finalizers {
      return false, None, [];
    }
    gs.o := gs.o.(finalizers := gs.o.finalizers + [SERVER_FINALIZER]);
    PauseServing(c, n, snap);
    ghost var s, y := c.Here(), c.Past();
    AddFinalizerIsAction(c.cfg, s, n, snap);
    ghost var took;
    err, took := c.Write(UpdateServer(c.world, n, gs.o), ServerController(n), ServerCtl(n, AddServerFinalizer), s.l);
    ServerWrote(n, c.quiet, old(c.Past()), y, c.Past(), AddServerFinalizer, took);
    acts := if took then [AddServerFinalizer] else [];
    if took {
      ServingWrote(c.cfg, s, c.Here(), n, snap, AddServerFinalizer);
    }
    added := err == None;
  }

  /** The plans look at a GameServer's spec only. */
  lemma PlansFollowSpec(w: World, v: World, n: Name, a: GameServer, b: GameServer)
    requires a.spec == b.spec
    ensures HeadlessPlan(w, n, a) == HeadlessPlan(w, n, b) && ExternalPlan(w, n, a) == ExternalPlan(w, n, b)
    ensures (n in w.services <==> n in v.services) && (n in w.services ==> w.services[n] == v.services[n]) ==>
              ExternalPlan(w, n, a) == ExternalPlan(v, n, a)
  {
  }

  lemma PlansFollowSets(w: World, v: World, n: Name, gs: GameServer)
    requires w.sets == v.sets
    ensures SetPlan(w, n, gs) == SetPlan(v, n, gs) && SetRefused(w, n, gs) == SetRefused(v, n, gs)
    ensures ProbeOf(w, n) == ProbeOf(v, n)
  {
  }

  /** No adapter is registered for the game type. */
  method Unregistered(c: Cluster, n: Name, gs: LiveServer, ghost snap: GameServer)
    returns (result: Result, ghost acts: seq<ServerAct>)
    requires c.Valid() && InServerPass(c.cfg, c.Here(), n, snap) && gs.o == snap
    requires snap.spec.gameType !in c.cfg.registered
    modifies c`world, c`ledger, c`path, c`run, gs
    ensures result != Return
    ensures c.Valid() && InServerPass(c.cfg, c.Here(), n, snap) && result == After(30)
    ensures ServerDid(n, c.quiet, old(c.Past()), c.Past(), acts)
    ensures acts == [] || acts == [MarkUnregistered(NoAdapterMessage(snap.spec.gameType), old(c.world.now))]
    ensures c.quiet && old(n in c.world.servers && c.world.servers[n] == snap) ==> acts != []
  {
    hide Inv, Cluster.Valid, ReadyPut, ServerDid;
    var now := c.world.now;
    var message := NoAdapterMessage(gs.o.spec.gameType);
    gs.SetPhase(Failed);
    gs.SetReady(false, "AdapterNotFound", message, now);
    var ignored;
    ignored, acts := SaveServerStatus(c, n, gs, snap, MarkUnregistered(message, now));
    result := After(30);
  }

  /** The children's actions of a pass: headless Service, StatefulSet, external Service, report, each at most once and
      in this order. The report observes the generation only when nothing before it failed. */
  ghost predicate ChildrenOf(n: Name, acts: seq<ServerAct>) {
    && ServerInOrder(n, acts) && ServerWithin(n, acts, 2, 5)
    && forall i :: 0 <= i < |acts| ==> acts[i].Serve? || acts[i] == MakeSet || acts[i] == Resync || acts[i].Report?
  }

  lemma OneChild(n: Name, acts: seq<ServerAct>, place: nat)
    requires |acts| <= 1 && 2 <= place <= 5
    requires |acts| == 1 ==> ServerPlace(n, acts[0]) == place
    requires |acts| == 1 ==> acts[0].Serve? || acts[0] == MakeSet || acts[0] == Resync || acts[0].Report?
    ensures ChildrenOf(n, acts) && ServerWithin(n, acts, place, place)
  {
  }

  lemma MoreChildren(n: Name, a: seq<ServerAct>, b: seq<ServerAct>, mid: nat, next: nat)
    requires ChildrenOf(n, a) && ServerWithin(n, a, 2, mid) && ChildrenOf(n, b) && ServerWithin(n, b, next, 5)
    requires 2 <= mid < next <= 5
    ensures ChildrenOf(n, a + b)
  {
    JoinServerOrder(n, a, b, 2, mid, next, 5);
  }

  /** The external Service and the report, after the StatefulSet. */
  method FinishServing(c: Cluster, n: Name, gs: LiveServer, ghost snap: GameServer)
    returns (result: Result, ghost acts: seq<ServerAct>)
    requires c.Valid() && InServerPass(c.cfg, c.Here(), n, snap) && snap.spec.gameType in c.cfg.registered
    requires gs.o == Provisioned(snap)
    modifies c`world, c`ledger, c`path, c`run, gs
    ensures result != Return
    ensures c.Valid() && InServerPass(c.cfg, c.Here(), n, snap)
    ensures ServerDid(n, c.quiet, old(c.Past()), c.Past(), acts)
    ensures ChildrenOf(n, acts) && ServerWithin(n, acts, 4, 5)
    ensures result == After(REQUEUE_INTERVAL) ==> acts != [] && acts[|acts| - 1].Report? && acts[|acts| - 1].observe
    ensures c.quiet && old(n in c.world.sets && n in c.world.servers && c.world.servers[n] == snap) ==>
              && acts == ExternalPlan(old(c.world), n, snap)
                 + [Report(ProbeOf(old(c.world), n), true, old(c.world.now))]
              && result == After(REQUEUE_INTERVAL)
  {
    hide Inv, ExternalPlan, ProbeOf, ProbeEdit, ServerDid, ChildrenOf, ServerWithin, Built, ExternalService,
      Cluster.Valid;
    ghost var w, x := c.world, c.Past();
    PlansFollowSpec(w, w, n, gs.o, snap);
    var err;
    ghost var ext, more;
    err, ext := SyncExternal(c, n, gs, snap);
    ghost var y := c.Past();
    ServedInPlace(n, ext, gs.o);
    if err != None {
      more := ReportFailure(c, n, gs, EXTERNAL_FAILED, snap);
      OneChild(n, more, 5);
      Children(n, c.quiet, x, y, c.Past(), ext, more, 4, 5);
      return Fail(err.value), ext + more;
    }
    if c.quiet {
      PlansFollowSets(w, c.world, n, snap);
    }
    result, more := ReportState(c, n, gs, snap);
    OneChild(n, more, 5);
    Children(n, c.quiet, x, y, c.Past(), ext, more, 4, 5);
    acts := ext + more;
  }

  /** The StatefulSet, the external Service and the report, after the headless Service. */
  method EnsureRest(c: Cluster, n: Name, gs: LiveServer, ghost snap: GameServer)
    returns (result: Result, ghost acts: seq<ServerAct>)
    requires c.Valid() && InServerPass(c.cfg, c.Here(), n, snap) && snap.spec.gameType in c.cfg.registered
    requires gs.o == Provisioned(snap)
    modifies c`world, c`ledger, c`path, c`run, gs
    ensures result != Return
    ensures c.Valid() && InServerPass(c.cfg, c.Here(), n, snap)
    ensures ServerDid(n, c.quiet, old(c.Past()), c.Past(), acts)
    ensures ChildrenOf(n, acts) && ServerWithin(n, acts, 3, 5)
    ensures result == After(REQUEUE_INTERVAL) ==> acts != [] && acts[|acts| - 1].Report? && acts[|acts| - 1].observe
    ensures c.quiet && old(n in c.world.servers && c.world.servers[n] == snap) ==>
              && acts == RestPlan(old(c.world), n, snap)
              && result == if SetRefused(old(c.world), n, snap) then Fail(Invalid) else After(REQUEUE_INTERVAL)
  {
    hide Inv, ExternalPlan, SetPlan, SetRefused, ProbeOf, ProbeEdit, ServerDid, ChildrenOf, ServerWithin, Cluster.Valid;
    ghost var w, x := c.world, c.Past();
    var err;
    ghost var made, more;
    err, made := EnsureSet(c, n, gs, snap);
    ghost var y := c.Past();
    OneChild(n, made, 3);
    if err != None {
      more := ReportFailure(c, n, gs, SET_FAILED, snap);
      OneChild(n, more, 5);
      Children(n, c.quiet, x, y, c.Past(), made, more, 3, 5);
      return Fail(err.value), made + more;
    }
    PlansFollowSpec(w, c.world, n, snap, snap);
    result, more := FinishServing(c, n, gs, snap);
    Children(n, c.quiet, x, y, c.Past(), made, more, 3, 4);
    acts := made + more;
    AllThree(made, ExternalPlan(w, n, snap), Report(ProbeOf(w, n), true, w.now));
  }

  lemma AllThree(a: seq<ServerAct>, b: seq<ServerAct>, last: ServerAct)
    ensures a + (b + [last]) == a + b + [last]
  {
  }

  lemma ServedInPlace(n: Name, acts: seq<ServerAct>, gs: GameServer)
    requires |acts| <= 1 && (|acts| == 1 ==> Built(acts[0], n, ExternalService(n, gs), true))
    ensures ChildrenOf(n, acts) && ServerWithin(n, acts, 4, 4)
  {
  }

  lemma Children(n: Name, quiet: bool, x: Log, y: Log, z: Log, a: seq<ServerAct>, b: seq<ServerAct>, mid: nat,
                 next: nat)
    requires ServerDid(n, quiet, x, y, a) && ServerDid(n, quiet, y, z, b)
    requires ChildrenOf(n, a) && ServerWithin(n, a, mid, mid) && ChildrenOf(n, b) && ServerWithin(n, b, next, 5)
    requires 2 <= mid < next <= 5
    ensures ServerDid(n, quiet, x, z, a + b) && ChildrenOf(n, a + b) && ServerWithin(n, a + b, mid, 5)
  {
    hide ServerDid;
    ServerThen(n, quiet, x, y, z, a, b);
    MoreChildren(n, a, b, mid, next);
  }

  /** The children of a GameServer with an adapter, one after the other; the first failure ends the pass. */
  method EnsureChildren(c: Cluster, n: Name, gs: LiveServer, ghost snap: GameServer)
    returns (result: Result, ghost acts: seq<ServerAct>)
    requires c.Valid() && InServerPass(c.cfg, c.Here(), n, snap) && gs.o == snap
             && snap.spec.gameType in c.cfg.registered
    modifies c`world, c`ledger, c`path, c`run, gs
    ensures result != Return
    ensures c.Valid() && InServerPass(c.cfg, c.Here(), n, snap)
    ensures ServerDid(n, c.quiet, old(c.Past()), c.Past(), acts) && ChildrenOf(n, acts)
    ensures result == After(REQUEUE_INTERVAL) ==> acts != [] && acts[|acts| - 1].Report? && acts[|acts| - 1].observe
    ensures c.quiet && old(n in c.world.servers && c.world.servers[n] == snap) ==>
              && acts == HeadlessPlan(old(c.world), n, snap) + RestPlan(old(c.world), n, snap)
              && result == if SetRefused(old(c.world), n, snap) then Fail(Invalid) else After(REQUEUE_INTERVAL)
  {
    hide Inv, HeadlessPlan, RestPlan, GameServerLabels, ServerDid, ChildrenOf, ServerWithin, Built, HeadlessService,
      Cluster.Valid;
    ghost var w, x := c.world, c.Past();
    if gs.o.status.phase == Unset || gs.o.status.phase == Pending {
      gs.SetPhase(Provisioning);
    }
    assert gs.o == Provisioned(snap);
    PlansFollowSpec(w, w, n, gs.o, snap);
    var err;
    ghost var first, more;
    err, first := SyncHeadless(c, n, gs, snap);
    ghost var y := c.Past();
    HeadlessInPlace(n, first, gs.o);
    if err != None {
      more := ReportFailure(c, n, gs, HEADLESS_FAILED, snap);
      OneChild(n, more, 5);
      Children(n, c.quiet, x, y, c.Past(), first, more, 2, 5);
      return Fail(err.value), first + more;
    }
    if c.quiet {
      RestFollows(w, c.world, n, snap);
    }
    result, more := EnsureRest(c, n, gs, snap);
    Children(n, c.quiet, x, y, c.Past(), first, more, 2, 3);
    acts := first + more;
  }

  lemma HeadlessInPlace(n: Name, acts: seq<ServerAct>, gs: GameServer)
    requires |acts| <= 1 && (|acts| == 1 ==> Built(acts[0], n + "-headless", HeadlessService(n, gs), false))
    ensures ChildrenOf(n, acts) && ServerWithin(n, acts, 2, 2)
  {
    assert |n + "-headless"| > |n|;
  }

  lemma RestFollows(w: World, v: World, n: Name, gs: GameServer)
    requires w.sets == v.sets && w.now == v.now
    requires (n in w.services <==> n in v.services) && (n in w.services ==> w.services[n] == v.services[n])
    ensures RestPlan(w, n, gs) == RestPlan(v, n, gs) && SetRefused(w, n, gs) == SetRefused(v, n, gs)
  {
    PlansFollowSets(w, v, n, gs);
    PlansFollowSpec(w, v, n, gs, gs);
  }

  /** The actions of a steady pass: the finalizer alone, the mark of a missing adapter alone, or the children's. */
  ghost predicate ServingActs(cfg: Config, n: Name, snap: GameServer, acts: seq<ServerAct>) {
    if SERVER_FINALIZER !in snap.finalizers then acts == [] || acts == [AddServerFinalizer]
    else if snap.spec.gameType !in cfg.registered then |acts| <= 1 && (|acts| == 1 ==> acts[0].MarkUnregistered?)
    else ChildrenOf(n, acts)
  }

  /** The pass over a GameServer that is not marked, past its read. */
  method Serving(c: Cluster, n: Name, gs: LiveServer, ghost snap: GameServer)
    returns (result: Result, ghost acts: seq<ServerAct>)
    requires c.Valid() && InServerPass(c.cfg, c.Here(), n, snap) && gs.o == snap
    requires n in c.world.servers && c.world.servers[n] == snap
    modifies c`world, c`ledger, c`path, c`run, gs
    ensures result != Return
    ensures c.Valid() && InServerPass(c.cfg, c.Here(), n, snap)
    ensures ServerDid(n, c.quiet, old(c.Past()), c.Past(), acts) && ServingActs(c.cfg, n, snap, acts)
    ensures c.quiet ==> acts == ServerSteadyPlan(c.cfg, old(c.world), n, snap)
    ensures c.quiet ==> result == if SERVER_FINALIZER !in snap.finalizers then Requeue
                                  else if snap.spec.gameType in c.cfg.registered && SetRefused(old(c.world), n, snap)
                                  then Fail(Invalid) else After(REQUEUE_INTERVAL)
  {
    hide Inv, HeadlessPlan, RestPlan, ServerDid, ChildrenOf, Cluster.Valid;
    var added, err;
    added, err, acts := AddTo(c, n, gs, snap);
    if err != None {
      return OnError(err.value), acts;
    }
    if added {
      return Requeue, acts;
    }
    if gs.o.spec.gameType !in c.cfg.registered {
      result, acts := Unregistered(c, n, gs, snap);
      return;
    }
    result, acts := EnsureChildren(c, n, gs, snap);
  }

  // ---- finalize ----

  /** A finalizing pass: no steady pass is in flight, and the marked GameServer it read is still that one, with
      the finalizers it had. */
  ghost predicate AtStop(cfg: Config, s: State, n: Name, read: GameServer) {
    && Inv(cfg, s) && n !in s.l.serverPass && read.deleting
    && n in s.w.servers && Evolves(read, s.w.servers[n]) && s.w.servers[n].finalizers == read.finalizers
  }

  method PauseStopping(c: Cluster, n: Name, ghost read: GameServer)
    requires c.Valid() && AtStop(c.cfg, c.Here(), n, read)
    modifies c`world, c`ledger, c`path, c`run
    ensures c.Valid() && AtStop(c.cfg, c.Here(), n, read) && ServerRely(old(c.Here()), c.Here(), n)
    ensures ServerDid(n, c.quiet, old(c.Past()), c.Past(), [])
    ensures c.quiet ==> c.Here() == old(c.Here())
  {
    hide Inv, Evolves, ServerSince, SetEvolves, ServerDid, Cluster.Valid;
    PauseServer(c, n);
    StillMarked(read, old(c.world.servers[n]));
    EvolvesTransitive(read, old(c.world.servers[n]), c.world.servers[n]);
  }

  /** What a finalizing pass may conclude from the StatefulSet it read: no pod is wanted and none is ready, and
      so it stays. */
  lemma DrainedStays(s0: State, s: State, n: Name)
    requires Drained(s0.w, n) && ServerRely(s0, s, n) && SetSane(s, n)
    ensures Drained(s.w, n)
  {
    hide ServerSince, Evolves;
  }

  predicate SetSane(s: State, n: Name) {
    n in s.w.sets ==> s.w.sets[n].readyReplicas >= 0
  }

  lemma SetsSane(cfg: Config, s: State, n: Name)
    requires Inv(cfg, s)
    ensures SetSane(s, n)
  {
    assert SetOk(s, n);
  }

  lemma ScaleIsAction(cfg: Config, s0: State, s: State, n: Name, read: GameServer, fetched: StatefulSet)
    requires AtStop(cfg, s, n, read)
    requires n in s0.w.sets && s0.w.sets[n] == fetched && ServerRely(s0, s, n)
    ensures var r := UpdateSet(s.w, n, fetched.(replicas := Some(0)));
            && (if r.err == None then
                  && SScaleDown(s, n, State(r.world, s.l)) && AtStop(cfg, State(r.world, s.l), n, read)
                  && r.world.sets[n] == fetched.(replicas := Some(0), version := s.w.revision + 1) && n in r.world.sets
                else r.world == s.w)
            && (s.w == s0.w ==> r.err == None && r.world.servers == s.w.servers)
  {
    hide Inv, ServerSince, Evolves;
    StillMarked(read, s.w.servers[n]);
    var r := UpdateSet(s.w, n, fetched.(replicas := Some(0)));
    if n in s.w.sets {
      ScaleDownAccepted(cfg, s, n);
    }
    if r.err == None {
      OneServerStep(cfg, s, n, ScaleDown, State(r.world, s.l));
      ServerStepKeeps(cfg, s, n, ScaleDown, State(r.world, s.l));
    }
  }

  lemma OneServerStep(cfg: Config, s: State, n: Name, act: ServerAct, t: State)
    requires act == ScaleDown && SScaleDown(s, n, t)
    ensures ServerStep(cfg, s, n, act, t)
  {
    hide SScaleDown;
  }

  lemma StoppingIsAction(cfg: Config, s: State, n: Name, read: GameServer)
    requires AtStop(cfg, s, n, read)
    ensures var r := UpdateServerStatus(s.w, n, read.(status := read.status.(phase := Stopping)));
            && (if r.err == None then SStopping(s, n, State(r.world, s.l)) else r.world == s.w)
            && (s.w.servers[n] == read ==> r.err == None)
  {
    hide Inv;
  }

  lemma LettingGoIsAction(cfg: Config, s: State, n: Name, read: GameServer, memory: GameServer)
    requires AtStop(cfg, s, n, read) && Drained(s.w, n)
    requires memory == read.(status := memory.status, finalizers := Without(read.finalizers, SERVER_FINALIZER))
    ensures var r := UpdateServer(s.w, n, memory);
            && (if r.err == None then SRelease(s, n, State(r.world, s.l)) else r.world == s.w)
            && (s.w.servers[n] == read ==> r.err == None)
  {
    hide Inv;
    if s.w.servers[n].version == read.version {
      StripAccepted(cfg, s, n, memory.finalizers);
      assert UpdateServer(s.w, n, memory) == UpdateServer(s.w, n, read.(finalizers := memory.finalizers));
    }
  }

  /** RemoveFinalizer: nothing is written when the finalizer is not there; otherwise it is taken off the version that
      was read, while the StatefulSet is absent or drained, or not at all. */
  method RemoveFrom(c: Cluster, n: Name, gs: LiveServer, ghost read: GameServer)
    returns (err: Option<Error>, ghost acts: seq<ServerAct>)
    requires c.Valid() && AtStop(c.cfg, c.Here(), n, read) && Drained(c.world, n)
    requires gs.o == read.(status := gs.o.status)
    modifies c`world, c`ledger, c`path, c`run, gs
    ensures c.Valid() && n !in c.ledger.serverPass
    ensures ServerDid(n, c.quiet, old(c.Past()), c.Past(), acts) && (acts == [] || acts == [ReleaseServer])
    ensures err == None ==> (acts == [] <==> SERVER_FINALIZER !in read.finalizers)
    ensures acts != [] ==> |c.path| >= 2 && Drained(c.path[|c.path| - 2].w, n)
    ensures c.quiet && old(c.world.servers[n] == read) ==> err == None
  {
    hide Inv, ServerRely, Evolves, UpdateServer, SRelease, Drained, ServerDid, Did;
    ServerIdle(n, c.quiet, c.Past());
    if SERVER_FINALIZER !in gs.o.finalizers {
      return None, [];
    }
    var rest := Strip(gs.o.finalizers, SERVER_FINALIZER);
    gs.o := gs.o.(finalizers := rest);
    ghost var s0 := c.Here();
    PauseStopping(c, n, read);
    ghost var s, y := c.Here(), c.Past();
    SetsSane(c.cfg, s, n);
    DrainedStays(s0, s, n);
    LettingGoIsAction(c.cfg, s, n, read, gs.o);
    c.Now();
    ghost var took;
    err, took := c.Write(UpdateServer(c.world, n, gs.o), ServerController(n), ServerCtl(n, ReleaseServer), c.ledger);
    ServerWrote(n, c.quiet, old(c.Past()), y, c.Past(), ReleaseServer, took);
    acts := if took then [ReleaseServer] else [];
  }

  /** The update of a StatefulSet to no replicas, on the version that was read. */
  method ScaleToZero(c: Cluster, n: Name, sts: StatefulSet, ghost read: GameServer)
    returns (err: Option<Error>, ghost acts: seq<ServerAct>)
    requires c.Valid() && AtStop(c.cfg, c.Here(), n, read) && n in c.world.sets && c.world.sets[n] == sts
    modifies c`world, c`ledger, c`path, c`run
    ensures c.Valid() && AtStop(c.cfg, c.Here(), n, read)
    ensures ServerDid(n, c.quiet, old(c.Past()), c.Past(), acts) && (acts == [] || acts == [ScaleDown])
    ensures err == None ==> acts != [] && n in c.world.sets
                            && c.world.sets[n] == sts.(replicas := Some(0), version := c.world.sets[n].version)
    ensures c.quiet ==> err == None && c.world.servers == old(c.world.servers)
  {
    hide Inv, ServerRely, Evolves, UpdateSet, SScaleDown, ServerDid, Did;
    ghost var s0 := c.Here();
    PauseStopping(c, n, read);
    ghost var s, y := c.Here(), c.Past();
    ScaleIsAction(c.cfg, s0, s, n, read, sts);
    ghost var took;
    err, took := c.Write(UpdateSet(c.world, n, sts.(replicas := Some(0))), ServerController(n),
                         ServerCtl(n, ScaleDown), c.ledger);
    ServerWrote(n, c.quiet, old(c.Past()), y, c.Past(), ScaleDown, took);
    acts := if took then [ScaleDown] else [];
  }

  /** Pods are still ready: record Stopping, whose write error is ignored, and come back. */
  method AwaitPods(c: Cluster, n: Name, gs: LiveServer, ghost read: GameServer)
    returns (result: Result, ghost acts: seq<ServerAct>)
    requires c.Valid() && AtStop(c.cfg, c.Here(), n, read) && gs.o == read.(status := read.status.(phase := Stopping))
    modifies c`world, c`ledger, c`path, c`run
    ensures result != Return
    ensures c.Valid() && n !in c.ledger.serverPass && result == After(5)
    ensures ServerDid(n, c.quiet, old(c.Past()), c.Past(), acts) && (acts == [] || acts == [MarkStopping])
    ensures c.quiet && old(c.world.servers[n] == read) ==> acts != []
  {
    hide Inv, ServerRely, Evolves, UpdateServerStatus, SStopping, ServerDid, Did;
    PauseStopping(c, n, read);
    ghost var y := c.Past();
    StoppingIsAction(c.cfg, c.Here(), n, read);
    var ignored;
    ghost var took;
    ignored, took := c.Write(UpdateServerStatus(c.world, n, gs.o), ServerController(n), ServerCtl(n, MarkStopping),
                             c.ledger);
    ServerWrote(n, c.quiet, old(c.Past()), y, c.Past(), MarkStopping, took);
    acts := if took then [MarkStopping] else [];
    result := After(5);
  }

  /** No scale-down was due, so none is wanted; with none ready the set is drained. */
  lemma NothingToScale(cfg: Config, s: State, n: Name)
    requires Inv(cfg, s) && n in s.w.sets && !ScalesDown(s.w, n)
    ensures s.w.sets[n].replicas == Some(0)
  {
    assert SetOk(s, n);
  }

  /** Scale down if that is due; afterwards the stored set wants no pods and is otherwise the one that was read. */
  method ScaleIfDue(c: Cluster, n: Name, sts: StatefulSet, ghost read: GameServer)
    returns (err: Option<Error>, ghost acts: seq<ServerAct>)
    requires c.Valid() && AtStop(c.cfg, c.Here(), n, read) && n in c.world.sets && c.world.sets[n] == sts
    modifies c`world, c`ledger, c`path, c`run
    ensures c.Valid() && AtStop(c.cfg, c.Here(), n, read)
    ensures ServerDid(n, c.quiet, old(c.Past()), c.Past(), acts) && (acts == [] || acts == [ScaleDown])
    ensures err == None ==> (acts != [] <==> ScalesDown(old(c.world), n))
    ensures err == None && sts.readyReplicas <= 0 ==> Drained(c.world, n)
    ensures c.quiet ==> err == None && c.world.servers == old(c.world.servers)
  {
    hide Inv, ServerRely, Evolves, ServerDid, Cluster.Valid;
    SetsSane(c.cfg, c.Here(), n);
    ServerIdle(n, c.quiet, c.Past());
    err, acts := None, [];
    if sts.statusReplicas == 0 || (sts.replicas.Some? && sts.replicas.value != 0) {
      err, acts := ScaleToZero(c, n, sts, read);
    } else {
      NothingToScale(c.cfg, c.Here(), n);
    }
  }

  /** Scale-down first, then the Stopping mark or the release. */
  ghost predicate StoppedBy(acts: seq<ServerAct>) {
    acts in [[], [ScaleDown], [MarkStopping], [ReleaseServer], [ScaleDown, MarkStopping], [ScaleDown, ReleaseServer]]
  }

  /** finalize: scale the StatefulSet down, wait for its pods, then release. The finalizer goes only at a moment when
      the StatefulSet is absent, or wants no pod and has none ready. */
  method Finalize(c: Cluster, n: Name, gs: LiveServer, ghost read: GameServer)
    returns (result: Result, ghost acts: seq<ServerAct>)
    requires c.Valid() && AtStop(c.cfg, c.Here(), n, read) && gs.o == read
    modifies c`world, c`ledger, c`path, c`run, gs
    ensures c.Valid() && n !in c.ledger.serverPass
    ensures ServerDid(n, c.quiet, old(c.Past()), c.Past(), acts) && StoppedBy(acts)
    ensures ReleaseServer in acts ==> |c.path| >= 2 && Drained(c.path[|c.path| - 2].w, n)
    ensures result == Return && SERVER_FINALIZER in read.finalizers ==> ReleaseServer in acts
    ensures c.quiet && old(c.world.servers[n] == read) ==>
              && acts == ServerFinalizePlan(old(c.world), n)
              && result == if n in old(c.world.sets) && old(c.world.sets[n].readyReplicas) > 0 then After(5) else Return
  {
    hide Inv, ServerRely, Evolves, Cluster.Valid, Drained, ScalesDown, ServerDid;
    ghost var x := c.Past();
    acts := [];
    gs.SetPhase(Stopping);
    PauseStopping(c, n, read);
    ghost var w, y := c.world, c.Past();
    var err := c.Reach();
    if err != None {
      return Fail(err.value), [];
    }
    if n in c.world.sets {
      var sts := c.world.sets[n];
      err, acts := ScaleIfDue(c, n, sts, read);
      ServerThen(n, c.quiet, x, y, c.Past(), [], acts);
      if err != None {
        return OnError(err.value), acts;
      }
      if sts.readyReplicas > 0 {
        ghost var z, more := c.Past(), [];
        result, more := AwaitPods(c, n, gs, read);
        ServerThen(n, c.quiet, x, z, c.Past(), acts, more);
        acts := acts + more;
        assert [ScaleDown] + [MarkStopping] == [ScaleDown, MarkStopping];
        return;
      }
    } else {
      NothingLeft(w, n);
    }
    ghost var z, more := c.Past(), [];
    err, more := RemoveFrom(c, n, gs, read);
    ServerThen(n, c.quiet, x, z, c.Past(), acts, more);
    acts := acts + more;
    assert [ScaleDown] + [ReleaseServer] == [ScaleDown, ReleaseServer];
    if err != None {
      return OnError(err.value), acts;
    }
    result := Return;
  }

  lemma NothingLeft(w: World, n: Name)
    requires n !in w.sets
    ensures Drained(w, n) && !ScalesDown(w, n)
  {
  }

  /** The actions of a whole pass that met the store `met` when it read the GameServer. Nothing if the read failed, or
      the GameServer was not there. */
  ghost predicate ServerPassOf(cfg: Config, n: Name, met: Option<World>, acts: seq<ServerAct>) {
    if met == None || n !in met.value.servers then acts == []
    else
      var read := met.value.servers[n];
      if read.deleting then StoppedBy(acts)
      else exists middle :: ServingActs(cfg, n, read, middle) && acts == [BeginServer] + middle + [EndServer]
  }

  lemma NoteServerDid(n: Name, quiet: bool, x: Log, y: Log, act: ServerAct)
    requires Did(Of(ServerController(n)), quiet, x, y, [ServerCtl(n, act)])
    ensures ServerDid(n, quiet, x, y, [act])
  {
    assert ServerActs(n, [act]) == [ServerCtl(n, act)];
  }

  lemma NoRelease(cfg: Config, n: Name, snap: GameServer, middle: seq<ServerAct>)
    requires ServingActs(cfg, n, snap, middle)
    ensures ReleaseServer !in [BeginServer] + middle + [EndServer]
  {
  }

  /** The pass over an unmarked GameServer, from its read to its return. */
  method SteadyPass(c: Cluster, n: Name, gs: LiveServer) returns (result: Result, ghost acts: seq<ServerAct>)
    requires c.Valid() && n !in c.ledger.serverPass
    requires n in c.world.servers && c.world.servers[n] == gs.o && !gs.o.deleting
    modifies c`world, c`ledger, c`path, c`run, gs
    ensures result != Return
    ensures c.Valid() && n !in c.ledger.serverPass
    ensures ServerDid(n, c.quiet, old(c.Past()), c.Past(), acts)
    ensures ServerPassOf(c.cfg, n, Some(old(c.world)), acts)
    ensures ReleaseServer !in acts
    ensures c.quiet ==> acts == ServerPlan(c.cfg, old(c.world), n) && result == ServerOutcome(c.cfg, old(c.world), n)
  {
    hide Inv, ServerSteadyPlan, ServerDid, Did, ServingActs;
    ghost var read, x := gs.o, c.Past();
    c.Note(ServerController(n), ServerCtl(n, BeginServer), c.ledger.(serverPass := c.ledger.serverPass[n := read]));
    ghost var y := c.Past();
    NoteServerDid(n, c.quiet, x, y, BeginServer);
    c.Reachable();
    ghost var middle;
    result, middle := Serving(c, n, gs, read);
    ghost var z := c.Past();
    ServerThen(n, c.quiet, x, y, z, [BeginServer], middle);
    c.Note(ServerController(n), ServerCtl(n, EndServer), c.ledger.(serverPass := c.ledger.serverPass - {n}));
    NoteServerDid(n, c.quiet, z, c.Past(), EndServer);
    ServerThen(n, c.quiet, x, z, c.Past(), [BeginServer] + middle, [EndServer]);
    acts := [BeginServer] + middle + [EndServer];
    NoRelease(c.cfg, n, read, middle);
  }

  lemma ServerExtends(n: Name, quiet: bool, x: Log, y: Log, acts: seq<ServerAct>)
    requires ServerDid(n, quiet, x, y, acts)
    ensures x.path <= y.path && x.run <= y.run
  {
  }

  /** Reconcile: one pass over GameServer `n`. Whatever others do and whatever calls fail, nothing recorded is lost, and
      what the GameServer controller does meanwhile is this pass's actions: those that what it read calls for, in order,
      each at most once, every one allowed by the state it meets. In quiet times it is exactly what ServerPlan says. */
  method Reconcile(c: Cluster, n: Name)
    returns (result: Result, ghost met: Option<World>, ghost acts: seq<ServerAct>)
    requires c.Valid() && n !in c.ledger.serverPass
    modifies c`world, c`ledger, c`path, c`run
    ensures result == Return ==>
              && met.Some?
              && (n !in met.value.servers || ReleaseServer in acts
                  || SERVER_FINALIZER !in met.value.servers[n].finalizers)
    ensures c.Valid() && n !in c.ledger.serverPass
    ensures ServerDid(n, c.quiet, old(c.Past()), c.Past(), acts) && ServerPassOf(c.cfg, n, met, acts)
    ensures met.Some? ==> Saw(c.path, |old(c.path)| - 1, met.value)
    ensures ReleaseServer in acts ==> |c.path| >= 2 && Drained(c.path[|c.path| - 2].w, n)
    ensures c.quiet ==> acts == ServerPlan(c.cfg, old(c.world), n) && result == ServerOutcome(c.cfg, old(c.world), n)
  {
    hide Inv, ServerSteadyPlan, ServerFinalizePlan, ServerSince, SetEvolves, ServerDid, ServingActs, StoppedBy, Saw,
      Cluster.Valid, Drained;
    met := None;
    ghost var x := c.Past();
    c.Now();
    PauseServer(c, n);
    ghost var y := c.Past();
    var err := c.Reach();
    if err != None {
      return Fail(err.value), None, [];
    }
    met := Some(c.world);
    c.Now();
    ServerExtends(n, c.quiet, x, y, []);
    SawLast(c.path, |x.path| - 1, c.world);
    if n !in c.world.servers {
      return Return, met, [];
    }
    var gs := new LiveServer(c.world.servers[n]);
    if gs.o.deleting {
      result, acts := Finalize(c, n, gs, gs.o);
    } else {
      result, acts := SteadyPass(c, n, gs);
    }
    ServerThen(n, c.quiet, x, y, c.Past(), [], acts);
    ServerExtends(n, c.quiet, y, c.Past(), acts);
    SawStill(y.path, c.path, |x.path| - 1, |x.path| - 1, met.value);
  }
}

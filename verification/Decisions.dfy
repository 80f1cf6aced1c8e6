/** The decision tables read the other way round: for every write, exactly when an undisturbed pass makes it, in terms
    of what is stored. */
module Decisions {
  import opened Types
  import opened Live
  import opened Webhook
  import opened TemplateHash
  import opened Builders
  import opened Store
  import opened Actions
  import opened Plans
  import opened Drift

  // ---- fleets ----

  /** The GameServer of fleet `f` is there, has not failed, and bears no stamp or that of the template. */
  ghost predicate InStep(cfg: Config, w: World, f: Name, template: Template) {
    && OwnedBy(w, f, f + "-gs") && w.servers[f + "-gs"].status.phase != Failed
    && HashOf(w.servers[f + "-gs"].annotations) in {"", ComputeTemplateHash(cfg, template)}
  }

  lemma ServesOnly(w: World, f: Name, gs: GameServer, act: FleetAct)
    ensures act in ServePlan(w, f, gs) ==> act.ServeFleet?
  {
  }

  /** The plan, branch by branch. */
  lemma BranchOf(cfg: Config, w: World, f: Name, fleet: Fleet, act: FleetAct)
    requires act in SteadyPlan(cfg, w, f, fleet)
    ensures if !OwnedBy(w, f, f + "-gs") then act.CreateGs? || act.CreatedStatus? || act.ServeFleet?
            else if w.servers[f + "-gs"].status.phase == Failed then act.DeleteFailed? || act.ResetStatus?
            else if !InStep(cfg, w, f, fleet.template) then act.UpdateGs? || act.StartStatus?
            else act.PatchHash? || act.SyncStatus? || act.CompleteStatus? || act.ServeFleet?
  {
    hide ComputeTemplateHash, UpdateServer, DefaultSpec, ValidSpec, Redeploy, ServePlan;
    var n := OwnedName(f);
    if OwnedBy(w, f, n) {
      ServesOnly(w, f, w.servers[n], act);
    } else {
      var r := CreateServer(w, n, BuildServer(cfg, f, fleet.template));
      if r.err == None {
        ServesOnly(w, f, r.world.servers[n], act);
      }
    }
  }

  /** A GameServer is created exactly when the fleet owns none, nothing has the name, and the template is valid; then it
      is noted in the status. */
  lemma CreatesExactly(cfg: Config, w: World, f: Name, fleet: Fleet, now: nat)
    ensures CreateGs in SteadyPlan(cfg, w, f, fleet)
            <==> !OwnedBy(w, f, f + "-gs") && f + "-gs" !in w.servers && ValidSpec(fleet.template.spec)
    ensures CreatedStatus(now) in SteadyPlan(cfg, w, f, fleet)
            <==> CreateGs in SteadyPlan(cfg, w, f, fleet) && now == w.now
  {
    hide ComputeTemplateHash, UpdateServer, DefaultSpec, ValidSpec, Redeploy, ServePlan, UpdatePlan, SyncPlan;
    DefaultKeepsVerdict(fleet.template.spec);
    var plan := SteadyPlan(cfg, w, f, fleet);
    if CreateGs in plan {
      BranchOf(cfg, w, f, fleet, CreateGs);
    }
    if CreatedStatus(now) in plan {
      BranchOf(cfg, w, f, fleet, CreatedStatus(now));
    }
    if !OwnedBy(w, f, OwnedName(f)) {
      var r := CreateServer(w, OwnedName(f), BuildServer(cfg, f, fleet.template));
      if r.err == None {
        ServesOnly(w, f, r.world.servers[OwnedName(f)], CreateGs);
        ServesOnly(w, f, r.world.servers[OwnedName(f)], CreatedStatus(now));
        assert plan[0] == CreateGs && plan[1] == CreatedStatus(w.now);
      }
    }
  }

  /** A failed GameServer, and only that, is deleted, and the status reset. */
  lemma RetriesExactly(cfg: Config, w: World, f: Name, fleet: Fleet)
    ensures DeleteFailed in SteadyPlan(cfg, w, f, fleet)
            <==> OwnedBy(w, f, f + "-gs") && w.servers[f + "-gs"].status.phase == Failed
    ensures ResetStatus in SteadyPlan(cfg, w, f, fleet) <==> DeleteFailed in SteadyPlan(cfg, w, f, fleet)
  {
    hide ComputeTemplateHash, CreatePlan, UpdatePlan, SyncPlan;
    if DeleteFailed in SteadyPlan(cfg, w, f, fleet) {
      BranchOf(cfg, w, f, fleet, DeleteFailed);
    }
    if ResetStatus in SteadyPlan(cfg, w, f, fleet) {
      BranchOf(cfg, w, f, fleet, ResetStatus);
    }
  }

  /** A start is recorded exactly with an update for which the history has room: from the version the GameServer has, at
      the time of the pass. When an update is made says UpdatesExactly. */
  lemma StartsExactly(cfg: Config, w: World, f: Name, fleet: Fleet, from: string, now: nat)
    ensures StartStatus(from, now) in SteadyPlan(cfg, w, f, fleet)
            <==> && UpdateGs in SteadyPlan(cfg, w, f, fleet) && (cfg.capHistory ==> |fleet.status.history| < 10)
                 && from == w.servers[f + "-gs"].spec.version && now == w.now
  {
    hide ComputeTemplateHash, UpdateServer, Redeploy, CreatePlan, SyncPlan;
    if UpdateGs in SteadyPlan(cfg, w, f, fleet) {
      BranchOf(cfg, w, f, fleet, UpdateGs);
    }
    if StartStatus(from, now) in SteadyPlan(cfg, w, f, fleet) {
      BranchOf(cfg, w, f, fleet, StartStatus(from, now));
    }
  }

  /** A GameServer without a stamp, and only that, is stamped. */
  lemma PatchesExactly(cfg: Config, w: World, f: Name, fleet: Fleet)
    ensures PatchHash in SteadyPlan(cfg, w, f, fleet)
            <==> InStep(cfg, w, f, fleet.template) && HashOf(w.servers[f + "-gs"].annotations) == ""
  {
    hide ComputeTemplateHash, CreatePlan, UpdatePlan;
    if PatchHash in SteadyPlan(cfg, w, f, fleet) {
      BranchOf(cfg, w, f, fleet, PatchHash);
      ServesOnly(w, f, w.servers[f + "-gs"], PatchHash);
    }
  }

  /** The status is synced exactly with the status of a GameServer in step. */
  lemma SyncsExactly(cfg: Config, w: World, f: Name, fleet: Fleet, gs: ServerStatus, now: nat)
    ensures FleetAct.SyncStatus(gs, now) in SteadyPlan(cfg, w, f, fleet)
            <==> InStep(cfg, w, f, fleet.template) && gs == w.servers[f + "-gs"].status && now == w.now
  {
    hide ComputeTemplateHash, CreatePlan, UpdatePlan;
    if FleetAct.SyncStatus(gs, now) in SteadyPlan(cfg, w, f, fleet) {
      BranchOf(cfg, w, f, fleet, FleetAct.SyncStatus(gs, now));
    }
    if InStep(cfg, w, f, fleet.template) {
      ServesOnly(w, f, w.servers[f + "-gs"], FleetAct.SyncStatus(gs, now));
    }
  }

  /** A rollout is completed exactly when the fleet shows one under way, the GameServer is in step and ready, and the
      fleet's generation has caught up with the GameServer's. */
  lemma CompletesExactly(cfg: Config, w: World, f: Name, fleet: Fleet)
    ensures (exists act :: act in SteadyPlan(cfg, w, f, fleet) && act.CompleteStatus?)
            <==> && OwnedBy(w, f, f + "-gs") && w.servers[f + "-gs"].status.phase != Failed
                 && HashOf(w.servers[f + "-gs"].annotations) in {"", ComputeTemplateHash(cfg, fleet.template)}
                 && fleet.status.phase == Progressing && w.servers[f + "-gs"].status.ready
                 && fleet.generation >= w.servers[f + "-gs"].generation
    ensures forall act :: act in SteadyPlan(cfg, w, f, fleet) && act.CompleteStatus? ==>
              && f + "-gs" in w.servers
              && act == CompleteStatus(w.servers[f + "-gs"].status, None, w.servers[f + "-gs"].spec.version, w.now)
  {
    hide ComputeTemplateHash, CreatePlan, UpdatePlan, ServePlan;
    var plan := SteadyPlan(cfg, w, f, fleet);
    forall act | act in plan && act.CompleteStatus?
      ensures InStep(cfg, w, f, fleet.template) && CompletesNow(fleet, w.servers[f + "-gs"])
      ensures act == CompleteStatus(w.servers[f + "-gs"].status, None, w.servers[f + "-gs"].spec.version, w.now) {
      BranchOf(cfg, w, f, fleet, act);
      ServesOnly(w, f, w.servers[f + "-gs"], act);
    }
    if InStep(cfg, w, f, fleet.template) && CompletesNow(fleet, w.servers[f + "-gs"]) {
      var gs := w.servers[f + "-gs"];
      var act := CompleteStatus(gs.status, None, gs.spec.version, w.now);
      assert act in SyncPlan(w, f, fleet, gs);
      assert act in plan && act.CompleteStatus?;
    }
  }

  /** What the stored fleet Service becomes: selector, type, ports and annotations are those of the built one, its
      labels stay as they are stored. */
  lemma FleetServiceTakes(w: World, f: Name, gs: GameServer)
    ensures var svc := FleetServiceSync(w, f, f + "-gs", gs);
            && svc.selector == GameServerLabels(f + "-gs", gs.spec.gameType)
            && svc.serviceType == gs.spec.serviceType && svc.annotations == gs.spec.annotations
            && |svc.ports| == |gs.spec.ports|
            && (forall i :: 0 <= i < |svc.ports| ==>
                  && svc.ports[i].name == gs.spec.ports[i].name && svc.ports[i].port == gs.spec.ports[i].port
                  && svc.ports[i].protocol == gs.spec.ports[i].protocol
                  && svc.ports[i].targetPort == match gs.spec.ports[i].targetPort
                                                case Some(target) => target
                                                case None => gs.spec.ports[i].port)
            && (f in w.services ==> svc.labels == w.services[f].labels && svc.headless == w.services[f].headless)
            && (f !in w.services ==> svc.labels == FleetLabels(f) && !svc.headless)
  {
    hide GameServerLabels;
  }

  /** Over a GameServer in step the fleet Service is written exactly when that changes it. */
  lemma FrontsExactly(cfg: Config, w: World, f: Name, fleet: Fleet, svc: Service, gameType: string)
    requires InStep(cfg, w, f, fleet.template)
    ensures ServeFleet(svc, gameType) in SteadyPlan(cfg, w, f, fleet)
            <==> && svc == FleetServiceSync(w, f, f + "-gs", w.servers[f + "-gs"])
                 && gameType == w.servers[f + "-gs"].spec.gameType
                 && (f in w.services ==> w.services[f] != svc)
  {
    hide ComputeTemplateHash, CreatePlan, UpdatePlan, FleetServiceSync;
    var gs := w.servers[OwnedName(f)];
    var front := ServePlan(w, f, gs);
    var plan := SteadyPlan(cfg, w, f, fleet);
    assert plan[|plan| - |front|..] == front;
    if front != [] {
      assert front[0] == plan[|plan| - 1];
    }
  }

  /** Finalizing: strip and delete the unmarked GameServer; without one drop the Service and release. */
  lemma FinalizesExactly(w: World, f: Name)
    ensures FleetAct.StripGs in FinalizePlan(w, f)
            <==> && OwnedBy(w, f, f + "-gs") && !w.servers[f + "-gs"].deleting
                 && "games.gobehost.com/finalizer" in w.servers[f + "-gs"].finalizers
    ensures DeleteGs in FinalizePlan(w, f) <==> OwnedBy(w, f, f + "-gs") && !w.servers[f + "-gs"].deleting
    ensures DropService in FinalizePlan(w, f) <==> !OwnedBy(w, f, f + "-gs") && f in w.services
    ensures FleetAct.Release in FinalizePlan(w, f) <==> !OwnedBy(w, f, f + "-gs")
  {
  }

  /** Which of these a pass is, and when it wants to be called again, in seconds. */
  lemma PassExactly(cfg: Config, w: World, f: Name)
    requires f in w.fleets
    ensures var fleet := w.fleets[f];
            if fleet.deleting then
              && FleetPlan(cfg, w, f) == FinalizePlan(w, f)
              && FleetOutcome(cfg, w, f) == if OwnedBy(w, f, f + "-gs") then After(2) else Return
            else if "games.gobehost.com/fleet-finalizer" !in fleet.finalizers then
              FleetPlan(cfg, w, f) == [Begin, FleetAct.AddFinalizer, End] && FleetOutcome(cfg, w, f) == Requeue
            else
              FleetPlan(cfg, w, f) == [Begin] + SteadyPlan(cfg, w, f, fleet) + [End]
  {
    hide SteadyPlan, SteadyOutcome;
  }

  /** A steady pass fails exactly when the store refuses a new GameServer, an update, or the record of one; otherwise it
      comes back after ten seconds. */
  lemma FailsExactly(cfg: Config, w: World, f: Name, fleet: Fleet)
    ensures var n, template := f + "-gs", fleet.template;
            SteadyOutcome(cfg, w, f, fleet)
            == if !OwnedBy(w, f, n) then
                 if n in w.servers then Fail(AlreadyExists)
                 else if !ValidSpec(template.spec) then Fail(Invalid) else After(10)
               else if w.servers[n].status.phase == Failed || InStep(cfg, w, f, template) then After(10)
               else if !Accepts(w.servers[n], template) || (cfg.capHistory && |fleet.status.history| >= 10)
               then Fail(Invalid) else After(10)
  {
    hide ComputeTemplateHash, DefaultSpec, ValidSpec;
    DefaultKeepsVerdict(fleet.template.spec);
    if OwnedBy(w, f, OwnedName(f)) {
      UpdateAccepted(cfg, w, f, fleet.template);
    }
  }

  // ---- GameServers ----

  /** What the Services of a GameServer become. The headless one keeps what else is stored of it, and so does the
      external one, but for its type and annotations. */
  lemma ServicesTake(w: World, n: Name, gs: GameServer)
    ensures var svc, k := HeadlessSync(w, n, gs), n + "-headless";
            && svc.selector == svc.labels == GameServerLabels(n, gs.spec.gameType)
               && svc.ports == ServicePorts(gs.spec.ports)
            && (k in w.services ==>
                svc.serviceType == w.services[k].serviceType && svc.headless == w.services[k].headless
                                    && svc.annotations == w.services[k].annotations)
            && (k !in w.services ==> svc.serviceType == "ClusterIP" && svc.headless && svc.annotations == map[])
    ensures var svc := ExternalSync(w, n, gs);
            && svc.selector == svc.labels == GameServerLabels(n, gs.spec.gameType)
               && svc.ports == ServicePorts(gs.spec.ports)
            && svc.serviceType == gs.spec.serviceType && svc.annotations == gs.spec.annotations
            && svc.headless == (n in w.services && w.services[n].headless)
  {
    hide GameServerLabels;
  }

  /** A GameServer with the finalizer whose type has an adapter. */
  predicate Serviceable(cfg: Config, gs: GameServer) {
    "games.gobehost.com/finalizer" in gs.finalizers && gs.spec.gameType in cfg.registered
  }

  /** The stored StatefulSet, if any, is not one that the GameServer's could replace. */
  predicate Blocked(w: World, n: Name, gs: GameServer) {
    n in w.sets && w.sets[n].selector != GameServerLabels(n, gs.spec.gameType)
  }

  /** First the finalizer; then, without an adapter, the failure. */
  lemma GuardsExactly(cfg: Config, w: World, n: Name, gs: GameServer, message: string, now: nat)
    ensures AddServerFinalizer in ServerSteadyPlan(cfg, w, n, gs)
            <==> "games.gobehost.com/finalizer" !in gs.finalizers
    ensures MarkUnregistered(message, now) in ServerSteadyPlan(cfg, w, n, gs)
            <==> && "games.gobehost.com/finalizer" in gs.finalizers && gs.spec.gameType !in cfg.registered
                 && message == "No adapter for game type \"" + gs.spec.gameType + "\"" && now == w.now
  {
    hide HeadlessSync, ExternalSync, StatefulSetFor;
  }

  /** Of the children, each is written exactly when that changes it; nothing after a StatefulSet that is refused. */
  lemma ChildrenExactly(cfg: Config, w: World, n: Name, gs: GameServer, k: Name, svc: Service)
    ensures Serve(k, svc) in ServerSteadyPlan(cfg, w, n, gs)
            <==> && Serviceable(cfg, gs)
                 && (|| (k == n + "-headless" && svc == HeadlessSync(w, n, gs))
                     || (k == n && svc == ExternalSync(w, n, gs) && !Blocked(w, n, gs)))
                 && (k in w.services ==> w.services[k] != svc)
    ensures MakeSet in ServerSteadyPlan(cfg, w, n, gs) <==> Serviceable(cfg, gs) && n !in w.sets
    ensures Resync in ServerSteadyPlan(cfg, w, n, gs)
            <==> && Serviceable(cfg, gs) && n in w.sets && !Blocked(w, n, gs)
                 && Builders.SyncSet(w.sets[n], StatefulSetFor(n, gs)) != w.sets[n]
  {
    hide HeadlessSync, ExternalSync, Builders.SyncSet, GameServerLabels, ContainerPorts;
    assert n != n + "-headless" by { assert |n + "-headless"| == |n| + 9; }
  }

  /** The report of a pass: readiness is that the StatefulSet has a ready pod; a refused one is reported without the
      generation. */
  lemma ReportsExactly(cfg: Config, w: World, n: Name, gs: GameServer, probe: Probe, observe: bool, now: nat)
    ensures Report(probe, observe, now) in ServerSteadyPlan(cfg, w, n, gs)
            <==> && Serviceable(cfg, gs) && now == w.now && observe == !Blocked(w, n, gs)
                 && probe == if Blocked(w, n, gs)
                             then Probe(false, "StatefulSetReconcileFailed", "Could not reconcile StatefulSet")
                             else if n in w.sets && w.sets[n].readyReplicas >= 1
                             then Probe(true, "Available", "GameServer is running")
                             else Probe(false, "Provisioning", "StatefulSet not ready")
  {
    hide HeadlessSync, ExternalSync, Builders.SyncSet, GameServerLabels, ContainerPorts;
  }

  /** Finalizing: scale down unless zero pods are asked for and some are still counted; wait while a pod is ready; else
      release. */
  lemma StopsExactly(w: World, n: Name)
    requires n in w.servers
    ensures ScaleDown in ServerFinalizePlan(w, n)
            <==> && n in w.sets
                 && (w.sets[n].statusReplicas == 0 || (w.sets[n].replicas != None && w.sets[n].replicas != Some(0)))
    ensures MarkStopping in ServerFinalizePlan(w, n) <==> n in w.sets && w.sets[n].readyReplicas > 0
    ensures ReleaseServer in ServerFinalizePlan(w, n)
            <==> && !(n in w.sets && w.sets[n].readyReplicas > 0)
                 && "games.gobehost.com/finalizer" in w.servers[n].finalizers
  {
  }

  /** Which of these a pass is, and when it wants to be called again, in seconds. */
  lemma ServerPassExactly(cfg: Config, w: World, n: Name)
    requires n in w.servers
    ensures var gs := w.servers[n];
            if gs.deleting then
              && ServerPlan(cfg, w, n) == ServerFinalizePlan(w, n)
              && ServerOutcome(cfg, w, n) == if n in w.sets && w.sets[n].readyReplicas > 0 then After(5) else Return
            else
              && ServerPlan(cfg, w, n) == [BeginServer] + ServerSteadyPlan(cfg, w, n, gs) + [EndServer]
              && ServerOutcome(cfg, w, n) == if "games.gobehost.com/finalizer" !in gs.finalizers then Requeue
                                             else if gs.spec.gameType in cfg.registered && Blocked(w, n, gs)
                                             then Fail(Invalid) else After(30)
  {
    hide ServerSteadyPlan, ServerFinalizePlan, GameServerLabels, ContainerPorts;
  }
}

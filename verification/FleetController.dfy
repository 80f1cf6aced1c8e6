/** The GameServerFleet controller: one pass over one fleet, call by call, with others acting in between. */
module FleetController {
  import opened Types
  import opened Conditions
  import opened Live
  import opened Webhook
  import opened TemplateHash
  import opened Builders
  import opened Store
  import opened Actions
  import opened Invariants
  import opened Preservation
  import opened Evolution
  import opened Identity
  import opened Plans
  import opened Rollouts
  import opened Deletion
  import opened Rely
  import opened FleetWrites
  import opened Traces
  import opened Cluster

  datatype Item = Item(name: Name, gs: GameServer)

  // ---- the current GameServer ----

  predicate FirstNamed(current: Name, items: seq<Item>, i: nat)
    requires i < |items|
  {
    items[i].name == current && forall j :: 0 <= j < i ==> items[j].name != current
  }

  /** findCurrentGS: the listed GameServer the status names, else the only one. There is none exactly when no
      listed name matches and the list does not have exactly one entry. */
  method FindCurrentGS(current: Name, items: seq<Item>) returns (found: Option<GameServer>)
    ensures found == None <==> |items| != 1 && forall i :: 0 <= i < |items| ==> items[i].name != current
    ensures forall i :: 0 <= i < |items| && FirstNamed(current, items, i) ==> found == Some(items[i].gs)
    ensures |items| == 1 ==> found == Some(items[0].gs)
  {
    for i := 0 to |items|
      invariant forall j :: 0 <= j < i ==> items[j].name != current
    {
      if items[i].name == current {
        return Some(items[i].gs);
      }
    }
    if |items| == 1 {
      return Some(items[0].gs);
    }
    found := None;
  }

  // ---- what a pass did ----

  /** From trace `x` to trace `y` the pass did exactly `acts`, in this order, whatever others did in between. */
  ghost predicate FleetDid(f: Name, quiet: bool, x: Log, y: Log, acts: seq<FleetAct>) {
    Did(Of(FleetController(f)), quiet, x, y, FleetActs(f, acts))
  }

  lemma FleetThen(f: Name, quiet: bool, x: Log, y: Log, z: Log, a: seq<FleetAct>, b: seq<FleetAct>)
    requires FleetDid(f, quiet, x, y, a) && FleetDid(f, quiet, y, z, b)
    ensures FleetDid(f, quiet, x, z, a + b) && (a == [] ==> a + b == b) && (b == [] ==> a + b == a)
  {
    DidThen(Of(FleetController(f)), quiet, x, y, z, FleetActs(f, a), FleetActs(f, b));
    assert FleetActs(f, a + b) == FleetActs(f, a) + FleetActs(f, b);
  }

  lemma FleetIdle(f: Name, quiet: bool, x: Log)
    ensures FleetDid(f, quiet, x, x, [])
  {
    DidNothing(Of(FleetController(f)), quiet, x);
    assert FleetActs(f, []) == [];
  }

  lemma FleetExtends(f: Name, quiet: bool, x: Log, y: Log, acts: seq<FleetAct>)
    requires FleetDid(f, quiet, x, y, acts)
    ensures x.path <= y.path && x.run <= y.run
  {
  }

  /** A pause and a write. */
  lemma FleetWrote(f: Name, quiet: bool, x: Log, y: Log, z: Log, act: FleetAct, took: bool)
    requires FleetDid(f, quiet, x, y, [])
    requires Did(Of(FleetController(f)), quiet, y, z, if took then [FleetCtl(f, act)] else [])
    ensures FleetDid(f, quiet, x, z, if took then [act] else [])
  {
    assert FleetActs(f, [act]) == [FleetCtl(f, act)] && FleetActs(f, []) == [];
    FleetThen(f, quiet, x, y, z, [], if took then [act] else []);
  }

  /** The place of an action within a pass. */
  function Place(act: FleetAct): nat {
    match act
    case Begin => 0
    case AddFinalizer => 1
    case PatchHash => 2
    case CreateGs => 3
    case UpdateGs => 4
    case DeleteFailed => 5
    case SyncStatus(_, _) => 6
    case StartStatus(_, _) => 7
    case CompleteStatus(_, _, _, _) => 8
    case CreatedStatus(_) => 9
    case ResetStatus => 10
    case ServeFleet(_, _) => 11
    case StripGs => 12
    case DeleteGs => 13
    case DropService => 14
    case Release => 15
    case End => 16
  }

  ghost predicate InOrder(acts: seq<FleetAct>) {
    forall i, j :: 0 <= i < j < |acts| ==> Place(acts[i]) < Place(acts[j])
  }

  /** All of the actions lie between two places. */
  ghost predicate Within(acts: seq<FleetAct>, lo: nat, hi: nat) {
    forall i :: 0 <= i < |acts| ==> lo <= Place(acts[i]) <= hi
  }

  lemma JoinInOrder(a: seq<FleetAct>, b: seq<FleetAct>, lo: nat, mid: nat, next: nat, hi: nat)
    requires InOrder(a) && Within(a, lo, mid) && InOrder(b) && Within(b, next, hi) && lo <= mid < next <= hi
    ensures InOrder(a + b) && Within(a + b, lo, hi)
  {
  }

  // ---- calls ----

  /** Others act before the pass's next call. */
  method Pause(c: Cluster, f: Name)
    requires c.Valid()
    modifies c`world, c`ledger, c`path, c`run
    ensures c.Valid() && Inv(c.cfg, c.Here()) && FleetRely(old(c.Here()), c.Here(), f)
    ensures FleetDid(f, c.quiet, old(c.Past()), c.Past(), [])
    ensures c.quiet ==> c.Here() == old(c.Here())
  {
    hide Inv, Step, FleetRely;
    c.Others(FleetController(f));
    c.Reachable();
    OthersRely(c.cfg, old(c.path), old(c.run), c.path, c.run, f);
    OthersDid(Of(FleetController(f)), c.quiet, old(c.Past()), c.Past());
    assert FleetActs(f, []) == [];
  }

  lemma OthersRely(cfg: Config, path: seq<State>, run: seq<Action>, path': seq<State>, run': seq<Action>, f: Name)
    requires Runs(cfg, path, run) && Runs(cfg, path', run') && Inv(cfg, path'[0])
    requires path <= path' && run <= run' && NoneOf(Of(FleetController(f)), run'[|run|..])
    ensures FleetRely(path[|run|], path'[|run'|], f)
  {
    hide Inv, Step, FleetRely;
    forall k | |run| <= k < |run'| ensures !By(FleetController(f), run'[k]) {
      assert run'[k] == run'[|run|..][k - |run|];
    }
    FleetRelyRun(cfg, path', run', f, |run|, |run'|);
  }

  method Labelled(ghost cfg: Config, ghost s: State, w: World, f: Name) returns (items: seq<Item>)
    requires Inv(cfg, s) && s.w == w
    ensures if OwnedBy(w, f, OwnedName(f)) then items == [Item(OwnedName(f), w.servers[OwnedName(f)])] else items == []
  {
    hide Inv;
    items := [];
    var names := w.servers.Keys;
    while names != {}
      invariant names <= w.servers.Keys
      invariant if OwnedBy(w, f, OwnedName(f)) && OwnedName(f) !in names
                then items == [Item(OwnedName(f), w.servers[OwnedName(f)])] else items == []
      decreases names
    {
      var n :| n in names;
      names := names - {n};
      if LabelOf(w.servers[n].labels) == Some(f) {
        OnePerFleet(cfg, s, f, n, n);
        items := items + [Item(n, w.servers[n])];
      }
    }
  }

  /** List with the fleet's label: exactly the GameServers the fleet owns, so at most its one. */
  method ListOwned(c: Cluster, f: Name) returns (err: Option<Error>, items: seq<Item>)
    requires c.Valid()
    modifies c`world, c`ledger, c`path, c`run
    ensures c.Valid() && Inv(c.cfg, c.Here()) && FleetRely(old(c.Here()), c.Here(), f)
    ensures FleetDid(f, c.quiet, old(c.Past()), c.Past(), [])
    ensures c.quiet ==> c.Here() == old(c.Here()) && err == None
    ensures err == None ==>
              if OwnedBy(c.world, f, OwnedName(f)) then items == [Item(OwnedName(f), c.world.servers[OwnedName(f)])]
              else items == []
    ensures err != None ==> err == Some(Unavailable)
  {
    hide Step, FleetRely, FleetDid;
    Pause(c, f);
    err := c.Reach();
    items := [];
    if err == None {
      items := Labelled(c.cfg, c.Here(), c.world, f);
    }
  }

  /** Status().Update: it lands on the version it was computed from or not at all; on success the object in memory is
      the stored one. */
  method SaveStatus(c: Cluster, f: Name, fleet: LiveFleet, ghost read: Fleet, ghost base: Fleet, ghost act: FleetAct)
    returns (err: Option<Error>, ghost acts: seq<FleetAct>)
    requires c.Valid() && InPass(c.cfg, c.Here(), f, read)
    requires f in c.world.fleets && FleetEvolves(base, c.world.fleets[f])
    requires fleet.o == base.(status := StatusFrom(base, f, act)) && StatusReady(base, act, c.world.now)
    modifies c`world, c`ledger, c`path, c`run, fleet
    ensures c.Valid() && InPass(c.cfg, c.Here(), f, read) && FleetKnows(old(c.Here()), c.Here(), f)
    ensures f in c.world.fleets
    ensures FleetDid(f, c.quiet, old(c.Past()), c.Past(), acts)
    ensures acts == [] || acts == [act]
    ensures err == None ==> acts == [act] && fleet.o == c.world.fleets[f] == old(fleet.o).(version := fleet.o.version)
    ensures err != None ==> fleet.o == old(fleet.o) && FleetEvolves(base, c.world.fleets[f])
    ensures c.quiet && old(f in c.world.fleets && c.world.fleets[f] == base) ==>
              && err == (if c.cfg.capHistory && |fleet.o.status.history| > 10 then Some(Invalid) else None)
              && (err != None ==> acts == [])
              && c.world == old(c.world).(revision := c.world.revision, fleets := c.world.fleets)
  {
    hide Inv, FleetStep, FleetKnows, InPass, FleetEvolves, StatusFrom, StatusReady, FleetRely, UpdateFleetStatus,
      StatusLedger, FleetDid, Did;
    Pause(c, f);
    ghost var s, y := c.Here(), c.Past();
    PassContinues(c.cfg, old(c.Here()), s, f, read, base);
    ReadyLater(base, act, old(c.world.now), s.w.now);
    StatusIsAction(c.cfg, s, f, read, base, fleet.o, act);
    if fleet.o.version == c.world.fleets[f].version {
      StatusVerdict(c.cfg, s, f, fleet.o);
    }
    ghost var took;
    err, took := c.Write(UpdateFleetStatus(c.cfg, c.world, f, fleet.o), FleetController(f), FleetCtl(f, act),
                         StatusLedger(s, f, act));
    FleetWrote(f, c.quiet, old(c.Past()), y, c.Past(), act, took);
    acts := if took then [act] else [];
    if took {
      PassWrote(c.cfg, s, c.Here(), f, read, act);
      FleetKnowsTransitive(old(c.Here()), s, c.Here(), f);
      FleetEvolvesTransitive(base, s.w.fleets[f], c.world.fleets[f]);
    }
    if err == None {
      fleet.o := c.world.fleets[f];
    }
  }

  // ---- the fleet Service ----

  /** The mutate function of ensureFleetService over what was found, or over what was built when nothing was. */
  method DesiredService(fetched: Option<Service>, f: Name, n: Name, gs: GameServer) returns (svc: Service)
    ensures svc.selector == GameServerLabels(n, gs.spec.gameType)
    ensures forall w: World :: fetched == (if f in w.services then Some(w.services[f]) else None) ==>
              svc == FleetServiceSync(w, f, n, gs)
  {
    hide GameServerLabels, FleetLabels;
    var built := BuildFleetService(f, n, gs);
    svc := if fetched == None then built else fetched.value;
    var ports := BuildServicePorts(gs);
    svc := svc.(selector := GameServerLabels(n, gs.spec.gameType), serviceType := gs.spec.serviceType, ports := ports,
                annotations := gs.spec.annotations);
  }

  /** The Service stands in front of the GameServer `gs`: it has its pods, its ports, its type and annotations. */
  predicate Fronts(act: FleetAct, f: Name, gs: GameServer) {
    && act.ServeFleet? && act.gameType == gs.spec.gameType
    && (var built := FleetService(f, OwnedName(f), gs);
        act.svc.selector == built.selector && act.svc.ports == built.ports && act.svc.serviceType == built.serviceType
        && act.svc.annotations == built.annotations)
  }

  lemma SyncFronts(w: World, f: Name, gs: GameServer)
    ensures Fronts(ServeFleet(FleetServiceSync(w, f, OwnedName(f), gs), gs.spec.gameType), f, gs)
  {
  }

  /** The one action of ensureFleetService, if there is one. */
  ghost predicate FrontedBy(acts: seq<FleetAct>, f: Name, gs: GameServer) {
    |acts| <= 1 && forall i :: 0 <= i < |acts| ==> Fronts(acts[i], f, gs)
  }

  /** The second half of CreateOrUpdate. */
  method WriteFleetService(c: Cluster, f: Name, fetched: Option<Service>, svc: Service, gs: GameServer, ghost s0: State,
                           ghost read: Fleet)
    returns (err: Option<Error>, ghost acts: seq<FleetAct>)
    requires c.Valid() && InPass(c.cfg, c.Here(), f, read)
    requires Listed(c.cfg, s0, f, gs) && FleetKnows(s0, c.Here(), f)
    requires svc.selector == GameServerLabels(OwnedName(f), gs.spec.gameType)
    modifies c`world, c`ledger, c`path, c`run
    ensures c.Valid() && InPass(c.cfg, c.Here(), f, read)
    ensures FleetDid(f, c.quiet, old(c.Past()), c.Past(), acts)
    ensures acts == [] || acts == [ServeFleet(svc, gs.spec.gameType)]
    ensures err == None ==> acts != []
    ensures c.quiet && fetched == old(if f in c.world.services then Some(c.world.services[f]) else None) ==> err == None
  {
    hide Inv, FleetKnows, InPass, Listed, FServe, GameServerLabels, Cluster.Valid, FleetDid, Did;
    PauseInPass(c, f, s0, read);
    ghost var s, y, act := c.Here(), c.Past(), ServeFleet(svc, gs.spec.gameType);
    ServeIsAction(c.cfg, s0, s, f, read, gs, svc);
    ghost var took;
    err, took := c.Write(SaveService(c.world, f, fetched, svc), FleetController(f), FleetCtl(f, act), s.l);
    FleetWrote(f, c.quiet, old(c.Past()), y, c.Past(), act, took);
    acts := if took then [act] else [];
    if took {
      PassWrote(c.cfg, s, c.Here(), f, read, act);
    }
  }

  /** ensureFleetService: CreateOrUpdate of the stable Service in front of the GameServer `gs`. */
  method EnsureFleetService(c: Cluster, f: Name, gs: GameServer, ghost s0: State, ghost read: Fleet)
    returns (result: Result, ghost acts: seq<FleetAct>)
    requires c.Valid() && InPass(c.cfg, c.Here(), f, read)
    requires Listed(c.cfg, s0, f, gs) && FleetKnows(s0, c.Here(), f)
    modifies c`world, c`ledger, c`path, c`run
    ensures result != Return
    ensures c.Valid() && InPass(c.cfg, c.Here(), f, read)
    ensures FleetDid(f, c.quiet, old(c.Past()), c.Past(), acts) && FrontedBy(acts, f, gs)
    ensures c.quiet ==> acts == ServePlan(old(c.world), f, gs) && result == After(FLEET_INTERVAL)
  {
    hide Inv, FleetKnows, InPass, Listed, FleetRely, FServe, GameServerLabels, FleetServiceSync, Cluster.Valid,
      FleetDid, Did, Fronts;
    acts := [];
    ghost var x := c.Past();
    PauseInPass(c, f, s0, read);
    var err := c.Reach();
    if err != None {
      return Fail(err.value), [];
    }
    var fetched := if f in c.world.services then Some(c.world.services[f]) else None;
    var svc := DesiredService(fetched, f, OwnedName(f), gs);
    assert svc == FleetServiceSync(c.world, f, OwnedName(f), gs);
    SyncFronts(c.world, f, gs);
    if fetched != Some(svc) {
      ghost var y := c.Past();
      err, acts := WriteFleetService(c, f, fetched, svc, gs, s0, read);
      FleetThen(f, c.quiet, x, y, c.Past(), [], acts);
      if err != None {
        return Fail(err.value), acts;
      }
    }
    result := After(FLEET_INTERVAL);
  }

  /** A pause of a pass that also remembers what it listed. */
  method PauseInPass(c: Cluster, f: Name, ghost s0: State, ghost read: Fleet)
    requires c.Valid() && InPass(c.cfg, c.Here(), f, read) && FleetKnows(s0, c.Here(), f)
    modifies c`world, c`ledger, c`path, c`run
    ensures c.Valid() && InPass(c.cfg, c.Here(), f, read) && FleetKnows(s0, c.Here(), f)
    ensures FleetKnows(old(c.Here()), c.Here(), f)
    ensures old(f in c.world.fleets) && f in c.world.fleets && FleetEvolves(old(c.world.fleets[f]), c.world.fleets[f])
    ensures old(c.world.now) <= c.world.now
    ensures FleetDid(f, c.quiet, old(c.Past()), c.Past(), [])
    ensures c.quiet ==> c.Here() == old(c.Here())
  {
    hide Inv, Step, FleetKnows, InPass, FleetRely, FleetEvolves, FleetDid;
    Pause(c, f);
    RelyKnows(old(c.Here()), c.Here(), f);
    PassStays(c.cfg, old(c.Here()), c.Here(), f, read);
    FleetKnowsTransitive(s0, old(c.Here()), c.Here(), f);
  }

  // ---- status edits ----

  /** The in-memory half of syncStatus. */
  method EditSync(fleet: LiveFleet, gs: Option<ServerStatus>, now: nat)
    modifies fleet
    ensures fleet.o == old(fleet.o).(status := SyncEdit(old(fleet.o).status, old(fleet.o).generation, gs, now))
  {
    var st := fleet.o.status;
    if gs == None {
      fleet.o := fleet.o.(status := st.(readyReplicas := 0, phase := Progressing));
      fleet.SetCondition("Available", False, "NoGameServer", "No GameServer found", now);
      return;
    }
    if gs.value.ready {
      fleet.o := fleet.o.(status := st.(readyReplicas := 1, phase := Available));
      fleet.SetCondition("Available", True, "Available", "GameServer is ready", now);
      fleet.SetCondition("Progressing", False, "Available", "GameServer is ready", now);
    } else {
      if gs.value.phase == Failed {
        fleet.o := fleet.o.(status := st.(readyReplicas := 0, phase := FleetFailed));
        fleet.SetCondition("Degraded", True, "GameServerFailed", "GameServer is in Failed phase", now);
      } else {
        fleet.o := fleet.o.(status := st.(readyReplicas := 0, phase := FleetPhase.Degraded));
        fleet.SetCondition("Degraded", True, "GameServerNotReady", "GameServer is not ready", now);
      }
      fleet.SetCondition("Available", False, "NotAvailable", "GameServer is not ready", now);
    }
    fleet.o := fleet.o.(status := fleet.o.status.(observedGeneration := fleet.o.generation));
  }

  /** The in-memory half of startSpecUpdate. */
  method EditStart(fleet: LiveFleet, from: string, now: nat)
    modifies fleet
    ensures fleet.o == old(fleet.o).(status := StartEdit(old(fleet.o).status, from,
                                                         old(fleet.o).template.spec.version, now))
  {
    var to := fleet.o.template.spec.version;
    fleet.o := fleet.o.(
      status := fleet.o.status.(phase := Progressing,
                                history := fleet.o.status.history + [Rollout(now, None, from, to, "", "")]));
    fleet.SetCondition("Progressing", True, "Updating", "GameServer spec updated", now);
  }

  /** The in-memory half of completeUpdate: the last record is closed if it is open, and only then are the
      records cut to ten. */
  method EditComplete(fleet: LiveFleet, n: Name, version: string, now: nat)
    modifies fleet
    ensures fleet.o == old(fleet.o).(status := CompleteEdit(old(fleet.o).status, old(fleet.o).generation, n, version,
                                                            now))
  {
    fleet.o := fleet.o.(status := fleet.o.status.(phase := Available, current := n, readyReplicas := 1));
    fleet.SetCondition("Available", True, "Available", "GameServer is ready", now);
    fleet.SetCondition("Progressing", False, "Available", "Rolling update completed", now);
    var h := fleet.o.status.history;
    if |h| > 0 {
      var last := |h| - 1;
      if h[last].completedAt == None {
        h := h[last := h[last].(completedAt := Some(now), result := "Success", message := CompletedMessage(version))];
      }
      if |h| > 10 {
        h := h[|h| - 10..];
      }
    }
    assert h == LastTen(CloseLast(fleet.o.status.history, version, now));
    fleet.o := fleet.o.(status := fleet.o.status.(history := h, observedGeneration := fleet.o.generation));
  }

  // ---- the branches of handleSteadyState ----

  /** A pass at work: what it read, the stored fleet its copy in memory came from, and its clock. */
  ghost predicate AtWork(cfg: Config, s: State, f: Name, read: Fleet, base: Fleet, memory: Fleet) {
    && InPass(cfg, s, f, read)
    && f in s.w.fleets && FleetEvolves(base, s.w.fleets[f])
    && memory == base.(status := memory.status) && base.template == read.template && base.generation == read.generation
    && LastTime(base.status.history) <= s.w.now
    && (cfg.capHistory ==> |base.status.history| <= 10)
  }

  /** syncStatus: the write's error is only logged. `next` is the stored fleet the copy in memory now stands for. */
  method SyncStatus(c: Cluster, f: Name, fleet: LiveFleet, gs: Option<ServerStatus>, ghost read: Fleet)
    returns (ghost next: Fleet, ghost unsynced: Option<nat>, ghost acts: seq<FleetAct>)
    requires c.Valid() && AtWork(c.cfg, c.Here(), f, read, read, fleet.o) && fleet.o == read
    requires gs.Some? ==> gs.value.phase != Failed
    modifies c`world, c`ledger, c`path, c`run, fleet
    ensures c.Valid() && AtWork(c.cfg, c.Here(), f, read, next, fleet.o) && FleetKnows(old(c.Here()), c.Here(), f)
    ensures FleetDid(f, c.quiet, old(c.Past()), c.Past(), acts)
    ensures acts == [] || (gs.Some? && acts == [FleetAct.SyncStatus(gs.value, old(c.world.now))])
    ensures gs.Some? && unsynced == None ==>
              acts != [] && next == fleet.o
                && fleet.o.status == SyncEdit(read.status, read.generation, gs, old(c.world.now))
    ensures gs.Some? && unsynced.Some? ==>
              next == read && fleet.o.status == SyncEdit(read.status, read.generation, gs, unsynced.value)
    ensures c.quiet && gs.Some? && old(f in c.world.fleets && c.world.fleets[f] == read) ==>
              && unsynced == None && f in c.world.fleets && c.world.fleets[f] == fleet.o
              && c.world == old(c.world).(revision := c.world.revision, fleets := c.world.fleets)
  {
    hide Inv, FleetKnows, InPass, FleetEvolves, SyncEdit, FleetDid;
    var now := c.world.now;
    EditSync(fleet, gs, now);
    next, unsynced, acts := read, Some(now), [];
    if gs == None {
      KnowsSelf(c.Here(), f);
      FleetIdle(f, c.quiet, c.Past());
      return;
    }
    ghost var act := FleetAct.SyncStatus(gs.value, now);
    EditHistories(read.status, read.generation, gs.value, "", "", "", now);
    var err;
    err, acts := SaveStatus(c, f, fleet, read, read, act);
    if err == None {
      next, unsynced := fleet.o, None;
      EvolvesSelf(fleet.o);
    }
    ClockKnown(old(c.Here()), c.Here(), f);
  }

  lemma KnowsSelf(s: State, f: Name)
    ensures FleetKnows(s, s, f)
  {
    FleetRelySelf(s, f);
  }

  lemma EvolvesSelf(fleet: Fleet)
    ensures FleetEvolves(fleet, fleet)
  {
  }

  lemma ClockKnown(s: State, t: State, f: Name)
    requires FleetKnows(s, t, f)
    ensures s.w.now <= t.w.now
  {
  }

  /** A write of the pass leaves it at work. */
  lemma StillAtWork(cfg: Config, s: State, t: State, f: Name, read: Fleet, base: Fleet, memory: Fleet, act: FleetAct)
    requires AtWork(cfg, s, f, read, base, memory) && FleetStep(cfg, s, f, act, t)
    requires !act.Begin? && !act.End? && !act.CreateGs? && !act.Release?
    ensures AtWork(cfg, t, f, read, base, memory)
  {
    hide Inv, FleetStep, FleetKnows, InPass, FleetEvolves, LastTime;
    PassWrote(cfg, s, t, f, read, act);
    ClockKnown(s, t, f);
    FleetEvolvesTransitive(base, s.w.fleets[f], t.w.fleets[f]);
  }

  /** buildGameServer. */
  method MakeServer(cfg: Config, f: Name, template: Template) returns (gs: GameServer)
    ensures gs == BuildServer(cfg, f, template)
  {
    var labels: map<string, string> := map[];
    labels := labels + template.labels;
    labels := labels[FLEET_LABEL := f];
    var annotations: map<string, string> := map[];
    annotations := annotations + template.annotations;
    var hash := HashTemplate(cfg, template);
    annotations := annotations[HASH_ANNOTATION := hash];
    assert map[] + template.labels == template.labels && map[] + template.annotations == template.annotations;
    gs := GameServer(0, 0, 0, [], false, labels, annotations, template.spec, NEW_STATUS);
  }

  /** A pause of a pass at work. */
  method PauseAtWork(c: Cluster, f: Name, fleet: LiveFleet, ghost s0: State, ghost read: Fleet, ghost base: Fleet)
    requires c.Valid() && AtWork(c.cfg, c.Here(), f, read, base, fleet.o) && FleetKnows(s0, c.Here(), f)
    modifies c`world, c`ledger, c`path, c`run
    ensures c.Valid() && AtWork(c.cfg, c.Here(), f, read, base, fleet.o) && FleetKnows(s0, c.Here(), f)
    ensures FleetDid(f, c.quiet, old(c.Past()), c.Past(), [])
    ensures c.quiet ==> c.Here() == old(c.Here())
  {
    hide Inv, Step, FleetKnows, InPass, FleetEvolves, FleetDid;
    PauseInPass(c, f, s0, read);
    FleetEvolvesTransitive(base, old(c.world.fleets[f]), c.world.fleets[f]);
  }

  /** The object the last recorded action replaced, and the one it left. */
  ghost predicate Replaced(path: seq<State>, n: Name, gs: GameServer, spec: ServerSpec) {
    && |path| >= 2
    && (var s, t := path[|path| - 2], path[|path| - 1];
        n in s.w.servers && s.w.servers[n] == gs && (n in t.w.servers ==> t.w.servers[n].spec == spec))
  }

  lemma UpdateReplaces(cfg: Config, s: State, f: Name, template: Template, gs: GameServer, t: State, path: seq<State>)
    requires InPassState(cfg, s, f) && FUpdateGs(cfg, s, f, t) && Wanted(s, f) == template
    requires OwnedName(f) in s.w.servers && s.w.servers[OwnedName(f)] == gs
    requires |path| >= 2 && path[|path| - 2] == s && path[|path| - 1] == t
    ensures Replaced(path, OwnedName(f), gs, DefaultSpec(template.spec))
  {
    hide ComputeTemplateHash, DefaultSpec;
    var obj := UpdateGsWrite(cfg, s, f, t);
  }

  ghost predicate InPassState(cfg: Config, s: State, f: Name) {
    Inv(cfg, s) && f in s.l.fleetPass
  }

  /** The template goes over the GameServer that was listed, on the version that was listed, or not at all. */
  method WriteTemplate(c: Cluster, f: Name, fleet: LiveFleet, gs: GameServer, hash: string, ghost s0: State,
                       ghost read: Fleet)
    returns (err: Option<Error>, ghost acts: seq<FleetAct>)
    requires c.Valid() && AtWork(c.cfg, c.Here(), f, read, read, fleet.o) && fleet.o == read
    requires Listed(c.cfg, s0, f, gs) && FleetKnows(s0, c.Here(), f)
    requires hash == ComputeTemplateHash(c.cfg, fleet.o.template)
    requires HashOf(gs.annotations) != "" && HashOf(gs.annotations) != hash
    modifies c`world, c`ledger, c`path, c`run
    ensures c.Valid() && AtWork(c.cfg, c.Here(), f, read, read, fleet.o)
    ensures FleetDid(f, c.quiet, old(c.Past()), c.Past(), acts) && (acts == [] || acts == [UpdateGs])
    ensures acts != [] ==> Replaced(c.path, OwnedName(f), gs, DefaultSpec(read.template.spec))
    ensures err == None ==> acts != []
    ensures c.quiet && old(OwnedName(f) in c.world.servers && c.world.servers[OwnedName(f)] == gs) ==>
              && err == UpdateServer(old(c.world), OwnedName(f), Redeploy(c.cfg, f, gs, read.template)).err
              && (err != None ==> acts == [])
              && c.world.fleets == old(c.world.fleets) && c.world.now == old(c.world.now)
  {
    hide Inv, FleetKnows, InPass, FleetEvolves, Listed, ComputeTemplateHash, UpdateServer, FUpdateGs, LastTime,
      FleetDid, Did, DefaultSpec, Replaced, Cluster.Valid;
    var patched := gs.(spec := fleet.o.template.spec);
    patched := patched.(annotations := patched.annotations[HASH_ANNOTATION := hash]);
    var labels := patched.labels + fleet.o.template.labels;
    patched := patched.(labels := labels[FLEET_LABEL := f]);
    PauseAtWork(c, f, fleet, s0, read, read);
    ghost var s, y := c.Here(), c.Past();
    UpdateIsAction(c.cfg, s0, s, f, read, gs);
    c.Now();
    ghost var took;
    err, took := c.Write(UpdateServer(c.world, OwnedName(f), patched), FleetController(f), FleetCtl(f, UpdateGs),
                         Stamped(s, f, 1));
    FleetWrote(f, c.quiet, old(c.Past()), y, c.Past(), UpdateGs, took);
    acts := if took then [UpdateGs] else [];
    if took {
      StillAtWork(c.cfg, s, c.Here(), f, read, read, fleet.o, UpdateGs);
      UpdateKeepsFleets(s, f, c.Here(), OwnedName(f), patched);
      UpdateFound(c.cfg, s0, s, f, read, gs, patched, c.Here(), c.path);
    }
  }

  lemma UpdateFound(cfg: Config, s0: State, s: State, f: Name, read: Fleet, gs: GameServer, patched: GameServer,
                    t: State, path: seq<State>)
    requires InPass(cfg, s, f, read) && Listed(cfg, s0, f, gs) && FleetKnows(s0, s, f)
    requires patched.version == gs.version && Done(UpdateServer(s.w, OwnedName(f), patched), t)
             && FUpdateGs(cfg, s, f, t)
    requires |path| >= 2 && path[|path| - 2] == s && path[|path| - 1] == t
    ensures Replaced(path, OwnedName(f), gs, DefaultSpec(read.template.spec))
  {
    hide FleetKnows, FUpdateGs, DefaultSpec, Replaced, Inv, Listed;
    PassIsSteady(cfg, s, f, read);
    VersionFinds(cfg, s0, s, f, gs);
    UpdateReplaces(cfg, s, f, read.template, gs, t, path);
  }

  /** The start of a rollout from version `from` comes after the template, and only with it. */
  ghost predicate StartedAfter(acts: seq<FleetAct>, from: string) {
    && |acts| <= 2
    && (|acts| > 0 ==> acts[0] == UpdateGs)
    && (|acts| > 1 ==> acts[1].StartStatus? && acts[1].from == from)
  }

  /** startSpecUpdate: write the template over the GameServer, then record the rollout's start. */
  method StartSpecUpdate(c: Cluster, f: Name, fleet: LiveFleet, gs: GameServer, hash: string, ghost s0: State,
                         ghost read: Fleet)
    returns (result: Result, ghost acts: seq<FleetAct>)
    requires c.Valid() && AtWork(c.cfg, c.Here(), f, read, read, fleet.o) && fleet.o == read
    requires Listed(c.cfg, s0, f, gs) && FleetKnows(s0, c.Here(), f)
    requires hash == ComputeTemplateHash(c.cfg, fleet.o.template)
    requires HashOf(gs.annotations) != "" && HashOf(gs.annotations) != hash
    modifies c`world, c`ledger, c`path, c`run, fleet
    ensures result != Return
    ensures c.Valid() && InPass(c.cfg, c.Here(), f, read)
    ensures FleetDid(f, c.quiet, old(c.Past()), c.Past(), acts) && StartedAfter(acts, gs.spec.version)
    ensures result == After(FLEET_INTERVAL) ==> |acts| == 2
    ensures c.quiet && old(OwnedName(f) in c.world.servers && c.world.servers[OwnedName(f)] == gs
                           && f in c.world.fleets && c.world.fleets[f] == read) ==>
              acts == UpdatePlan(c.cfg, old(c.world), f, read, gs)
                && result == UpdateOutcome(c.cfg, old(c.world), f, read, gs)
  {
    hide Inv, FleetKnows, Listed, ComputeTemplateHash, UpdateServer, Redeploy, AtWork, Replaced, FleetDid,
      DefaultSpec, Cluster.Valid;
    var err;
    err, acts := WriteTemplate(c, f, fleet, gs, hash, s0, read);
    WorkInPass(c.cfg, c.Here(), f, read, read, fleet.o);
    if err != None {
      return Fail(err.value), acts;
    }
    ghost var y, more := c.Past(), [];
    result, more := RecordStart(c, f, fleet, gs.spec.version, read);
    FleetThen(f, c.quiet, old(c.Past()), y, c.Past(), acts, more);
    acts := acts + more;
  }

  /** The second half of startSpecUpdate: the start of the rollout goes into the fleet's history. */
  method RecordStart(c: Cluster, f: Name, fleet: LiveFleet, from: string, ghost read: Fleet)
    returns (result: Result, ghost acts: seq<FleetAct>)
    requires c.Valid() && AtWork(c.cfg, c.Here(), f, read, read, fleet.o) && fleet.o == read
    modifies c`world, c`ledger, c`path, c`run, fleet
    ensures result != Return
    ensures c.Valid() && InPass(c.cfg, c.Here(), f, read)
    ensures FleetDid(f, c.quiet, old(c.Past()), c.Past(), acts)
    ensures acts == [] || acts == [StartStatus(from, old(c.world.now))]
    ensures result == After(FLEET_INTERVAL) ==> acts != []
    ensures c.quiet && old(f in c.world.fleets && c.world.fleets[f] == read) ==>
              if c.cfg.capHistory && |read.status.history| >= 10 then acts == [] && result == Fail(Invalid)
              else acts != [] && result == After(FLEET_INTERVAL)
  {
    hide Inv, FleetKnows, InPass, FleetEvolves, StartEdit, LastTime, FleetDid;
    var now := c.world.now;
    EditStart(fleet, from, now);
    StartGrows(read.status, from, read.template.spec.version, now);
    var err;
    err, acts := SaveStatus(c, f, fleet, read, read, StartStatus(from, now));
    if err != None {
      return OnError(err.value), acts;
    }
    result := After(FLEET_INTERVAL);
  }

  lemma UpdateKeepsFleets(s: State, f: Name, t: State, n: Name, gs: GameServer)
    requires Done(UpdateServer(s.w, n, gs), t)
    ensures t.w.fleets == s.w.fleets && t.w.services == s.w.services && t.w.now == s.w.now && t.w.sets == s.w.sets
  {
  }

  lemma StartGrows(st: FleetStatus, from: string, to: string, now: nat)
    ensures |StartEdit(st, from, to, now).history| == |st.history| + 1
  {
  }

  /** completeUpdate: the completion is stored over whatever the sync left in memory; only then the Service. */
  method CompleteUpdate(c: Cluster, f: Name, fleet: LiveFleet, gs: GameServer, ghost s0: State, ghost read: Fleet,
                        ghost base: Fleet, ghost unsynced: Option<nat>)
    returns (result: Result, ghost acts: seq<FleetAct>)
    requires c.Valid() && AtWork(c.cfg, c.Here(), f, read, base, fleet.o)
    requires Listed(c.cfg, s0, f, gs) && FleetKnows(s0, c.Here(), f) && gs.status.ready && gs.status.phase != Failed
    requires fleet.o.status == if unsynced == None then base.status
                               else SyncEdit(base.status, base.generation, Some(gs.status), unsynced.value)
    modifies c`world, c`ledger, c`path, c`run, fleet
    ensures result != Return
    ensures c.Valid() && InPass(c.cfg, c.Here(), f, read)
    ensures FleetDid(f, c.quiet, old(c.Past()), c.Past(), acts) && |acts| <= 2
    ensures |acts| > 0 ==> acts[0] == CompleteStatus(gs.status, unsynced, gs.spec.version, old(c.world.now))
    ensures |acts| > 1 ==> Fronts(acts[1], f, gs)
    ensures result == After(FLEET_INTERVAL) ==> |acts| > 0
    ensures c.quiet && unsynced == None && old(f in c.world.fleets && c.world.fleets[f] == base) ==>
              && result == After(FLEET_INTERVAL)
              && acts == [CompleteStatus(gs.status, None, gs.spec.version, old(c.world.now))]
                         + ServePlan(old(c.world), f, gs)
  {
    hide Inv, FleetKnows, InPass, FleetEvolves, Listed, CompleteEdit, SyncEdit, UpdateFleetStatus, LastTime,
      ServePlan, FleetDid, Fronts;
    var now := c.world.now;
    EditComplete(fleet, OwnedName(f), gs.spec.version, now);
    CompleteAtMostTen(base, gs.status, unsynced, OwnedName(f), gs.spec.version, now);
    ghost var act := CompleteStatus(gs.status, unsynced, gs.spec.version, now);
    var err;
    err, acts := SaveStatus(c, f, fleet, read, base, act);
    FleetKnowsTransitive(s0, old(c.Here()), c.Here(), f);
    if err != None {
      return OnError(err.value), acts;
    }
    ServeDepends(old(c.world), c.world, f, gs);
    ghost var y, more := c.Past(), [];
    result, more := EnsureFleetService(c, f, gs, s0, read);
    FleetThen(f, c.quiet, old(c.Past()), y, c.Past(), acts, more);
    acts := acts + more;
  }

  lemma CompleteAtMostTen(base: Fleet, gs: ServerStatus, unsynced: Option<nat>, n: Name, version: string, now: nat)
    ensures var synced := if unsynced == None then base.status
                          else SyncEdit(base.status, base.generation, Some(gs), unsynced.value);
            |CompleteEdit(synced, base.generation, n, version, now).history| <= 10
  {
  }

  /** What has to be served depends on the Services alone. */
  lemma ServeDepends(w: World, v: World, f: Name, gs: GameServer)
    ensures w.services == v.services ==> ServePlan(w, f, gs) == ServePlan(v, f, gs)
  {
  }

  lemma FailedHasNoAdapter(cfg: Config, s0: State, f: Name, gs: GameServer)
    requires Listed(cfg, s0, f, gs) && gs.status.phase == Failed
    ensures gs.spec.gameType !in cfg.registered
  {
    assert ServerOk(cfg, s0, OwnedName(f));
  }

  /** handleFailedGS: delete, and clear the status. What it deletes has no adapter. */
  method HandleFailedGS(c: Cluster, f: Name, fleet: LiveFleet, gs: GameServer, ghost s0: State, ghost read: Fleet)
    returns (result: Result, ghost acts: seq<FleetAct>)
    requires c.Valid() && AtWork(c.cfg, c.Here(), f, read, read, fleet.o) && fleet.o == read
    requires Listed(c.cfg, s0, f, gs) && FleetKnows(s0, c.Here(), f) && gs.status.phase == Failed
    modifies c`world, c`ledger, c`path, c`run, fleet
    ensures result != Return
    ensures c.Valid() && InPass(c.cfg, c.Here(), f, read) && gs.spec.gameType !in c.cfg.registered
    ensures FleetDid(f, c.quiet, old(c.Past()), c.Past(), acts)
    ensures acts in [[], [DeleteFailed], [ResetStatus], [DeleteFailed, ResetStatus]]
    ensures result == After(FLEET_INTERVAL) ==> ResetStatus in acts
    ensures c.quiet && old(OwnedName(f) in c.world.servers && c.world.servers[OwnedName(f)] == gs
                           && f in c.world.fleets && c.world.fleets[f] == read) ==>
              acts == [DeleteFailed, ResetStatus] && result == After(FLEET_INTERVAL)
  {
    hide Inv, FleetKnows, InPass, FleetEvolves, Listed, UpdateFleetStatus, LastTime, FDeleteFailed, FleetDid, Did;
    FailedHasNoAdapter(c.cfg, s0, f, gs);
    PauseAtWork(c, f, fleet, s0, read, read);
    ghost var s, y := c.Here(), c.Past();
    DeleteFailedIsAction(c.cfg, s0, s, f, read, gs);
    var err;
    ghost var took;
    err, took := c.Write(DeleteServer(c.world, OwnedName(f)), FleetController(f), FleetCtl(f, DeleteFailed), s.l);
    FleetWrote(f, c.quiet, old(c.Past()), y, c.Past(), DeleteFailed, took);
    acts := if took then [DeleteFailed] else [];
    if took {
      StillAtWork(c.cfg, s, c.Here(), f, read, read, fleet.o, DeleteFailed);
    }
    if err != None && err != Some(NotFound) {
      return Fail(err.value), acts;
    }
    ghost var z, more := c.Past(), [];
    result, more := ClearStatus(c, f, fleet, read);
    FleetThen(f, c.quiet, old(c.Past()), z, c.Past(), acts, more);
    acts := acts + more;
    assert [DeleteFailed] + [ResetStatus] == [DeleteFailed, ResetStatus];
  }

  /** The second half of handleFailedGS. */
  method ClearStatus(c: Cluster, f: Name, fleet: LiveFleet, ghost read: Fleet)
    returns (result: Result, ghost acts: seq<FleetAct>)
    requires c.Valid() && AtWork(c.cfg, c.Here(), f, read, read, fleet.o) && fleet.o == read
    modifies c`world, c`ledger, c`path, c`run, fleet
    ensures result != Return
    ensures c.Valid() && InPass(c.cfg, c.Here(), f, read)
    ensures FleetDid(f, c.quiet, old(c.Past()), c.Past(), acts) && (acts == [] || acts == [ResetStatus])
    ensures result == After(FLEET_INTERVAL) ==> acts != []
    ensures c.quiet && old(f in c.world.fleets && c.world.fleets[f] == read) ==>
              acts != [] && result == After(FLEET_INTERVAL)
  {
    hide Inv, FleetKnows, InPass, FleetEvolves, LastTime, FleetDid;
    fleet.o := fleet.o.(status := fleet.o.status.(current := "", phase := Progressing));
    var err;
    err, acts := SaveStatus(c, f, fleet, read, read, ResetStatus);
    if err != None {
      return OnError(err.value), acts;
    }
    result := After(FLEET_INTERVAL);
  }

  /** The GameServer first, then its name in the status, then the Service. */
  ghost predicate CreatedThenServed(acts: seq<FleetAct>, f: Name) {
    && |acts| <= 3
    && (|acts| > 0 ==> acts[0] == CreateGs)
    && (|acts| > 1 ==> acts[1].CreatedStatus?)
    && (|acts| > 2 ==> acts[2].ServeFleet?)
  }

  /** createGameServer: create it, name it in the status, put the Service in front of it. */
  method CreateGameServer(c: Cluster, f: Name, fleet: LiveFleet, ghost read: Fleet)
    returns (result: Result, ghost acts: seq<FleetAct>)
    requires c.Valid() && AtWork(c.cfg, c.Here(), f, read, read, fleet.o) && fleet.o == read
    modifies c`world, c`ledger, c`path, c`run, fleet
    ensures result != Return
    ensures c.Valid() && InPass(c.cfg, c.Here(), f, read)
    ensures FleetDid(f, c.quiet, old(c.Past()), c.Past(), acts) && CreatedThenServed(acts, f)
    ensures result == After(FLEET_INTERVAL) ==> |acts| >= 2
    ensures c.quiet && old(f in c.world.fleets && c.world.fleets[f] == read) ==>
              acts == CreatePlan(c.cfg, old(c.world), f, read) && result == CreateOutcome(c.cfg, old(c.world), f, read)
  {
    hide Inv, FleetKnows, InPass, FleetEvolves, Listed, LastTime, CreateServer, ServePlan, BuildServer, FleetDid, Did,
      Cluster.Valid;
    var gs := MakeServer(c.cfg, f, fleet.o.template);
    KnowsSelf(c.Here(), f);
    PauseAtWork(c, f, fleet, c.Here(), read, read);
    ghost var s, y := c.Here(), c.Past();
    CreateIsAction(c.cfg, s, f, read);
    var err;
    ghost var took;
    err, took := c.Write(CreateServer(c.world, OwnedName(f), gs), FleetController(f), FleetCtl(f, CreateGs),
                         Stamped(s, f, 0));
    FleetWrote(f, c.quiet, old(c.Past()), y, c.Past(), CreateGs, took);
    acts := if took then [CreateGs] else [];
    if took {
      PassCreated(c.cfg, s, c.Here(), f, read);
    }
    if err != None {
      return Fail(err.value), acts;
    }
    var created := c.world.servers[OwnedName(f)];
    ServeDepends(old(c.world), c.world, f, created);
    ghost var z, more := c.Past(), [];
    result, more := AnnounceServer(c, f, fleet, created, read);
    FleetThen(f, c.quiet, old(c.Past()), z, c.Past(), acts, more);
    acts := acts + more;
  }

  /** The rest of createGameServer, after the create. */
  method AnnounceServer(c: Cluster, f: Name, fleet: LiveFleet, created: GameServer, ghost read: Fleet)
    returns (result: Result, ghost acts: seq<FleetAct>)
    requires c.Valid() && AtWork(c.cfg, c.Here(), f, read, read, fleet.o) && fleet.o == read
    requires Listed(c.cfg, c.Here(), f, created)
    modifies c`world, c`ledger, c`path, c`run, fleet
    ensures result != Return
    ensures c.Valid() && InPass(c.cfg, c.Here(), f, read)
    ensures FleetDid(f, c.quiet, old(c.Past()), c.Past(), acts) && |acts| <= 2
    ensures |acts| > 0 ==> acts[0] == CreatedStatus(old(c.world.now))
    ensures |acts| > 1 ==> Fronts(acts[1], f, created)
    ensures result == After(FLEET_INTERVAL) ==> |acts| > 0
    ensures c.quiet && old(f in c.world.fleets && c.world.fleets[f] == read) ==>
              && acts == [CreatedStatus(old(c.world.now))] + ServePlan(old(c.world), f, created)
              && result == After(FLEET_INTERVAL)
  {
    hide Inv, FleetKnows, InPass, FleetEvolves, Listed, LastTime, ServePlan, CreatedEdit, AtWork, FleetDid, Fronts,
      Cluster.Valid;
    WorkParts(c.cfg, c.Here(), f, read, read, fleet.o);
    KnowsSelf(c.Here(), f);
    var n, now := OwnedName(f), c.world.now;
    ghost var s1 := c.Here();
    fleet.o := fleet.o.(status := fleet.o.status.(current := n, phase := Progressing));
    fleet.SetCondition("Progressing", True, "Creating", "GameServer created", now);
    CreatedIs(read.status, n, now);
    EditHistories(read.status, 0, NEW_STATUS, n, "", "", now);
    var err;
    err, acts := SaveStatus(c, f, fleet, read, read, CreatedStatus(now));
    if err != None {
      return OnError(err.value), acts;
    }
    ServeDepends(old(c.world), c.world, f, created);
    ghost var y, more := c.Past(), [];
    result, more := EnsureFleetService(c, f, created, s1, read);
    FleetThen(f, c.quiet, old(c.Past()), y, c.Past(), acts, more);
    acts := acts + more;
  }

  lemma CreatedIs(st: FleetStatus, n: Name, now: nat)
    ensures CreatedEdit(st, n, now) ==
            FleetPut(st.(current := n, phase := Progressing), "Progressing", True, "Creating",
                                                "GameServer created", now)
  {
  }

  /** The created GameServer is the fleet's, and nothing else the pass relies on has moved. */
  lemma PassCreated(cfg: Config, s: State, t: State, f: Name, read: Fleet)
    requires InPass(cfg, s, f, read) && FCreateGs(cfg, s, f, t)
    ensures InPass(cfg, t, f, read) && OwnedBy(t.w, f, OwnedName(f)) && Listed(cfg, t, f, t.w.servers[OwnedName(f)])
    ensures t.w.fleets == s.w.fleets && t.w.services == s.w.services && t.w.now == s.w.now && FleetKnows(t, t, f)
  {
    hide ComputeTemplateHash, Inv;
    CreateGsKeeps(cfg, s, f, t);
    KnowsSelf(t, f);
  }

  /** patchTemplateHash. */
  method PatchTemplateHash(c: Cluster, f: Name, fleet: LiveFleet, gs: GameServer, hash: string, ghost s0: State,
                           ghost read: Fleet)
    returns (err: Option<Error>, ghost acts: seq<FleetAct>)
    requires c.Valid() && AtWork(c.cfg, c.Here(), f, read, read, fleet.o)
    requires Listed(c.cfg, s0, f, gs) && FleetKnows(s0, c.Here(), f)
             && hash == ComputeTemplateHash(c.cfg, read.template)
    modifies c`world, c`ledger, c`path, c`run
    ensures c.Valid() && AtWork(c.cfg, c.Here(), f, read, read, fleet.o) && FleetKnows(s0, c.Here(), f)
    ensures FleetDid(f, c.quiet, old(c.Past()), c.Past(), acts) && (acts == [] || acts == [PatchHash])
    ensures err == None ==> acts != []
    ensures c.quiet && old(OwnedName(f) in c.world.servers) ==>
              && err == None && c.world.fleets == old(c.world.fleets) && c.world.services == old(c.world.services)
              && c.world.now == old(c.world.now)
  {
    hide Inv, FleetKnows, InPass, FleetEvolves, Listed, LastTime, FPatchHash, PatchServerHash, ComputeTemplateHash,
      FleetDid, Did;
    PauseAtWork(c, f, fleet, s0, read, read);
    ghost var s, y := c.Here(), c.Past();
    PatchIsAction(c.cfg, s, f, read);
    PatchVerdict(c.cfg, s, f, read, hash);
    ghost var l := if OwnedBy(s.w, f, OwnedName(f)) then Stamped(s, f, 0) else s.l;
    ghost var took;
    err, took := c.Write(PatchServerHash(c.world, OwnedName(f), hash), FleetController(f), FleetCtl(f, PatchHash), l);
    FleetWrote(f, c.quiet, old(c.Past()), y, c.Past(), PatchHash, took);
    acts := if took then [PatchHash] else [];
    if took {
      PassWrote(c.cfg, s, c.Here(), f, read, PatchHash);
      ClockKnown(s, c.Here(), f);
      FleetEvolvesTransitive(read, s.w.fleets[f], c.world.fleets[f]);
      FleetKnowsTransitive(s0, s, c.Here(), f);
    }
  }

  lemma PatchVerdict(cfg: Config, s: State, f: Name, read: Fleet, hash: string)
    requires InPass(cfg, s, f, read)
    ensures var r := PatchServerHash(s.w, OwnedName(f), hash);
            && (OwnedName(f) in s.w.servers ==> r.err == None)
            && r.world.fleets == s.w.fleets && r.world.services == s.w.services && r.world.now == s.w.now
  {
    assert ServerOk(cfg, s, OwnedName(f));
  }

  /** The no-drift branch: sync the status, close the rollout when the pass found one under way and the GameServer
      ready, and keep the Service up. */
  method Sync(c: Cluster, f: Name, fleet: LiveFleet, gs: GameServer, ghost s0: State, ghost read: Fleet)
    returns (result: Result, ghost acts: seq<FleetAct>)
    requires c.Valid() && AtWork(c.cfg, c.Here(), f, read, read, fleet.o) && fleet.o == read
    requires Listed(c.cfg, s0, f, gs) && FleetKnows(s0, c.Here(), f) && gs.status.phase != Failed
    modifies c`world, c`ledger, c`path, c`run, fleet
    ensures result != Return
    ensures c.Valid() && InPass(c.cfg, c.Here(), f, read)
    ensures FleetDid(f, c.quiet, old(c.Past()), c.Past(), acts) && KeptUp(acts, f, gs) && Within(acts, 6, 11)
    ensures c.quiet && old(f in c.world.fleets && c.world.fleets[f] == read) ==>
              acts == SyncPlan(old(c.world), f, read, gs) && result == After(FLEET_INTERVAL)
  {
    hide Inv, FleetKnows, InPass, FleetEvolves, Listed, LastTime, SyncEdit, ServePlan, AtWork, FleetDid, Fronts,
      InOrder, Within, KeptUp, FrontedBy;
    var wasProgressing := fleet.o.status.phase == Progressing;
    ghost var next, unsynced;
    next, unsynced, acts := SyncStatus(c, f, fleet, Some(gs.status), read);
    FleetKnowsTransitive(s0, old(c.Here()), c.Here(), f);
    SyncObserves(read.status, read.generation, gs.status, old(c.world.now));
    if unsynced.Some? {
      SyncObserves(read.status, read.generation, gs.status, unsynced.value);
    }
    ServeDepends(old(c.world), c.world, f, gs);
    ghost var first, y := acts, c.Past();
    ghost var more;
    if wasProgressing && gs.status.ready && fleet.o.status.observedGeneration >= gs.generation {
      result, more := CompleteUpdate(c, f, fleet, gs, s0, read, next, unsynced);
      CompletedUp(more, f, gs);
    } else {
      WorkInPass(c.cfg, c.Here(), f, read, next, fleet.o);
      result, more := EnsureFleetService(c, f, gs, s0, read);
      FrontedUp(more, f, gs);
    }
    FleetThen(f, c.quiet, old(c.Past()), y, c.Past(), first, more);
    acts := first + more;
    SyncedUp(first, more, f, gs);
    assert c.quiet && old(f in c.world.fleets && c.world.fleets[f] == read) ==>
      acts == SyncPlan(old(c.world), f, read, gs);
  }

  /** An action of the no-drift branch over the GameServer `gs`. */
  predicate KeepsUp(act: FleetAct, f: Name, gs: GameServer) {
    || (act.SyncStatus? && act.gs == gs.status)
    || (act.CompleteStatus? && act.gs == gs.status && act.version == gs.spec.version && gs.status.ready)
    || Fronts(act, f, gs)
  }

  /** Status sync, completion and Service, each at most once and in this order. */
  ghost predicate KeptUp(acts: seq<FleetAct>, f: Name, gs: GameServer) {
    InOrder(acts) && forall i :: 0 <= i < |acts| ==> KeepsUp(acts[i], f, gs)
  }

  lemma CompletedUp(acts: seq<FleetAct>, f: Name, gs: GameServer)
    requires |acts| <= 2 && (|acts| > 1 ==> Fronts(acts[1], f, gs)) && gs.status.ready
    requires |acts| > 0 ==> acts[0].CompleteStatus? && acts[0].gs == gs.status && acts[0].version == gs.spec.version
    ensures KeptUp(acts, f, gs) && Within(acts, 8, 11)
  {
  }

  lemma FrontedUp(acts: seq<FleetAct>, f: Name, gs: GameServer)
    requires FrontedBy(acts, f, gs)
    ensures KeptUp(acts, f, gs) && Within(acts, 8, 11)
  {
  }

  lemma SyncedUp(first: seq<FleetAct>, more: seq<FleetAct>, f: Name, gs: GameServer)
    requires |first| <= 1 && (first != [] ==> first[0].SyncStatus? && first[0].gs == gs.status)
    requires KeptUp(more, f, gs) && Within(more, 8, 11)
    ensures KeptUp(first + more, f, gs) && Within(first + more, 6, 11)
  {
    JoinInOrder(first, more, 6, 6, 8, 11);
  }

  lemma SyncObserves(st: FleetStatus, generation: int, gs: ServerStatus, now: nat)
    ensures SyncEdit(st, generation, Some(gs), now).observedGeneration == generation
  {
  }

  lemma WorkInPass(cfg: Config, s: State, f: Name, read: Fleet, base: Fleet, memory: Fleet)
    requires AtWork(cfg, s, f, read, base, memory)
    ensures InPass(cfg, s, f, read) && f in s.w.fleets
  {
  }

  lemma WorkParts(cfg: Config, s: State, f: Name, read: Fleet, base: Fleet, memory: Fleet)
    requires AtWork(cfg, s, f, read, base, memory)
    ensures InPass(cfg, s, f, read) && f in s.w.fleets && FleetEvolves(base, s.w.fleets[f])
    ensures memory == base.(status := memory.status) && base.template == read.template
            && base.generation == read.generation
    ensures LastTime(base.status.history) <= s.w.now && (cfg.capHistory ==> |base.status.history| <= 10)
  {
  }

  lemma SyncDepends(w: World, v: World, f: Name, fleet: Fleet, gs: GameServer)
    ensures w.services == v.services && w.now == v.now ==> SyncPlan(w, f, fleet, gs) == SyncPlan(v, f, fleet, gs)
  {
  }

  /** No drift: stamp the hash if the annotation is gone, then sync. */
  method NoDrift(c: Cluster, f: Name, fleet: LiveFleet, gs: GameServer, templateHash: string, ghost s0: State,
                 ghost read: Fleet)
    returns (result: Result, ghost acts: seq<FleetAct>)
    requires c.Valid() && AtWork(c.cfg, c.Here(), f, read, read, fleet.o) && fleet.o == read
    requires Listed(c.cfg, s0, f, gs) && FleetKnows(s0, c.Here(), f) && gs.status.phase != Failed
    requires templateHash == ComputeTemplateHash(c.cfg, read.template)
    modifies c`world, c`ledger, c`path, c`run, fleet
    ensures result != Return
    ensures c.Valid() && InPass(c.cfg, c.Here(), f, read)
    ensures FleetDid(f, c.quiet, old(c.Past()), c.Past(), acts) && Follows(Keeping, acts)
    ensures c.quiet && old(OwnedName(f) in c.world.servers && f in c.world.fleets && c.world.fleets[f] == read) ==>
              && acts == (if HashOf(gs.annotations) == "" then [PatchHash] else [])
                 + SyncPlan(old(c.world), f, read, gs)
              && result == After(FLEET_INTERVAL)
  {
    hide Inv, FleetKnows, InPass, FleetEvolves, LastTime, ComputeTemplateHash, SyncPlan, AtWork, Listed, FleetDid,
      Follows, InOrder, Within, KeptUp, Cluster.Valid;
    ghost var first: seq<FleetAct> := [];
    FleetIdle(f, c.quiet, c.Past());
    if HashOf(gs.annotations) == "" {
      var err;
      err, first := PatchTemplateHash(c, f, fleet, gs, templateHash, s0, read);
      PatchFollows(first);
      if err != None {
        WorkInPass(c.cfg, c.Here(), f, read, read, fleet.o);
        return Fail(err.value), first;
      }
      SyncDepends(old(c.world), c.world, f, read, gs);
    }
    ghost var y, more := c.Past(), [];
    result, more := Sync(c, f, fleet, gs, s0, read);
    FleetThen(f, c.quiet, old(c.Past()), y, c.Past(), first, more);
    acts := first + more;
    KeptFollows(first, more, f, gs);
  }

  // ---- the branches as a whole ----

  datatype Branch = Guarding | Creating | Retrying | Updating | Keeping | Stripping | Releasing

  predicate InBranch(br: Branch, act: FleetAct) {
    match br
    case Guarding => act.AddFinalizer?
    case Creating => act.CreateGs? || act.CreatedStatus? || act.ServeFleet?
    case Retrying => act.DeleteFailed? || act.ResetStatus?
    case Updating => act.UpdateGs? || act.StartStatus?
    case Keeping => act.PatchHash? || act.SyncStatus? || act.CompleteStatus? || act.ServeFleet?
    case Stripping => act.StripGs? || act.DeleteGs?
    case Releasing => act.DropService? || act.Release?
  }

  /** The actions of one branch, each at most once and in its place; a rollout starts only after the template has been
      written, a new GameServer is noted and served only after it has been created. */
  ghost predicate Follows(br: Branch, acts: seq<FleetAct>) {
    && InOrder(acts) && (forall i :: 0 <= i < |acts| ==> InBranch(br, acts[i]))
    && (br == Updating && acts != [] ==> acts[0] == UpdateGs)
    && (br == Creating && acts != [] ==> acts[0] == CreateGs)
  }

  lemma PatchFollows(acts: seq<FleetAct>)
    requires acts == [] || acts == [PatchHash]
    ensures Follows(Keeping, acts)
  {
  }

  lemma KeptFollows(first: seq<FleetAct>, more: seq<FleetAct>, f: Name, gs: GameServer)
    requires (first == [] || first == [PatchHash]) && KeptUp(more, f, gs) && Within(more, 6, 11)
    ensures Follows(Keeping, first + more)
  {
    JoinInOrder(first, more, 2, 2, 6, 11);
  }

  lemma UpdateFollows(acts: seq<FleetAct>, from: string)
    requires StartedAfter(acts, from)
    ensures Follows(Updating, acts)
  {
  }

  lemma CreateFollows(acts: seq<FleetAct>, f: Name)
    requires CreatedThenServed(acts, f)
    ensures Follows(Creating, acts)
  {
  }

  lemma RetryFollows(acts: seq<FleetAct>)
    requires acts in [[], [DeleteFailed], [ResetStatus], [DeleteFailed, ResetStatus]]
    ensures Follows(Retrying, acts)
  {
  }

  // ---- handleSteadyState ----

  /** The steady branches. The dereference of the current GameServer is safe because a non-empty list of a
      fleet's GameServers has exactly one entry. */
  method HandleSteadyState(c: Cluster, f: Name, fleet: LiveFleet, items: seq<Item>, ghost s0: State, ghost read: Fleet)
    returns (result: Result, ghost br: Branch, ghost acts: seq<FleetAct>)
    requires c.Valid() && AtWork(c.cfg, c.Here(), f, read, read, fleet.o) && fleet.o == read
    requires Inv(c.cfg, s0) && FleetKnows(s0, c.Here(), f)
    requires if OwnedBy(s0.w, f, OwnedName(f)) then items == [Item(OwnedName(f), s0.w.servers[OwnedName(f)])]
             else items == []
    modifies c`world, c`ledger, c`path, c`run, fleet
    ensures result != Return
    ensures c.Valid() && InPass(c.cfg, c.Here(), f, read)
    ensures FleetDid(f, c.quiet, old(c.Past()), c.Past(), acts) && Follows(br, acts)
    ensures br == SteadyBranch(c.cfg, s0.w, f, read)
    ensures c.quiet && old(c.Here() == s0 && c.world.fleets[f] == read) ==>
              && acts == SteadyPlan(c.cfg, old(c.world), f, read)
              && result == SteadyOutcome(c.cfg, old(c.world), f, read)
  {
    hide Inv, FleetKnows, InPass, FleetEvolves, LastTime, ComputeTemplateHash, CreatePlan, UpdatePlan, SyncPlan,
      AtWork, CreateOutcome, UpdateOutcome, FleetDid, Follows, StartedAfter, CreatedThenServed, Cluster.Valid;
    WorkInPass(c.cfg, c.Here(), f, read, read, fleet.o);
    var found := FindCurrentGS(fleet.o.status.current, items);
    if found == None && |items| == 0 {
      br := Creating;
      result, acts := CreateGameServer(c, f, fleet, read);
      CreateFollows(acts, f);
      return;
    }
    assert found.Some?;
    var gs := found.value;
    assert gs == s0.w.servers[OwnedName(f)];
    if gs.status.phase == Failed {
      br := Retrying;
      result, acts := HandleFailedGS(c, f, fleet, gs, s0, read);
      RetryFollows(acts);
      return;
    }
    var templateHash := HashTemplate(c.cfg, fleet.o.template);
    var currentHash := HashOf(gs.annotations);
    if currentHash != "" && currentHash != templateHash {
      br := Updating;
      result, acts := StartSpecUpdate(c, f, fleet, gs, templateHash, s0, read);
      UpdateFollows(acts, gs.spec.version);
      return;
    }
    br := Keeping;
    result, acts := NoDrift(c, f, fleet, gs, templateHash, s0, read);
  }

  /** The branch is the one for what the pass listed, whatever happens afterwards. */
  function SteadyBranch(cfg: Config, w: World, f: Name, fleet: Fleet): Branch {
    if !OwnedBy(w, f, OwnedName(f)) then Creating
    else
      var gs := w.servers[OwnedName(f)];
      if gs.status.phase == Failed then Retrying
      else if HashOf(gs.annotations) !in {"", ComputeTemplateHash(cfg, fleet.template)} then Updating else Keeping
  }

  // ---- finalize ----

  /** A finalizing pass: no steady pass is in flight, and the marked fleet it read is still that fleet. */
  ghost predicate InFinalize(cfg: Config, s: State, f: Name, read: Fleet) {
    && Inv(cfg, s) && f !in s.l.fleetPass && read.deleting
    && f in s.w.fleets && FleetEvolves(read, s.w.fleets[f])
  }

  method PauseInFinalize(c: Cluster, f: Name, ghost s0: State, ghost read: Fleet)
    requires c.Valid() && InFinalize(c.cfg, c.Here(), f, read) && FleetKnows(s0, c.Here(), f)
    modifies c`world, c`ledger, c`path, c`run
    ensures c.Valid() && InFinalize(c.cfg, c.Here(), f, read) && FleetKnows(s0, c.Here(), f)
    ensures FleetRely(old(c.Here()), c.Here(), f)
    ensures FleetDid(f, c.quiet, old(c.Past()), c.Past(), [])
    ensures c.quiet ==> c.Here() == old(c.Here())
  {
    hide Inv, Step, FleetKnows, FleetRely, FleetEvolves, FleetDid;
    Pause(c, f);
    FinalizeContinues(c.cfg, old(c.Here()), c.Here(), f, read);
    RelyKnows(old(c.Here()), c.Here(), f);
    FleetKnowsTransitive(s0, old(c.Here()), c.Here(), f);
  }

  lemma FinalizeContinues(cfg: Config, s: State, t: State, f: Name, read: Fleet)
    requires InFinalize(cfg, s, f, read) && FleetRely(s, t, f) && Inv(cfg, t)
    ensures InFinalize(cfg, t, f, read)
  {
    hide Inv;
    FleetEvolvesTransitive(read, s.w.fleets[f], t.w.fleets[f]);
  }

  lemma FinalizeWrote(cfg: Config, s: State, t: State, f: Name, read: Fleet, act: FleetAct)
    requires InFinalize(cfg, s, f, read) && FleetStep(cfg, s, f, act, t)
    requires act.StripGs? || act.DeleteGs? || act.DropService?
    ensures InFinalize(cfg, t, f, read) && FleetKnows(s, t, f)
  {
    hide FleetStep, Inv;
    FleetStepKeeps(cfg, s, f, act, t);
    OwnWriteKnows(cfg, s, f, act, t);
    FleetEvolvesTransitive(read, s.w.fleets[f], t.w.fleets[f]);
  }

  lemma StripIsAction(cfg: Config, s0: State, s: State, f: Name, read: Fleet, gs: GameServer)
    requires InFinalize(cfg, s, f, read) && Listed(cfg, s0, f, gs) && FleetKnows(s0, s, f) && !gs.deleting
    ensures var n := OwnedName(f);
            var r := UpdateServer(s.w, n, gs.(finalizers := Without(gs.finalizers, SERVER_FINALIZER)));
            && (if r.err == None then
                  && FStripGs(s, f, State(r.world, s.l))
                  && OwnedBy(r.world, f, n) && !r.world.servers[n].deleting
                else r.world == s.w)
            && (n in s.w.servers && s.w.servers[n] == gs ==> r.err == None)
  {
    hide FleetKnows;
    var n := OwnedName(f);
    if n in s.w.servers && s.w.servers[n].version == gs.version {
      VersionFinds(cfg, s0, s, f, gs);
      StripAccepted(cfg, s, n, Without(gs.finalizers, SERVER_FINALIZER));
    }
  }

  /** The loop body for an unmarked GameServer: strip the finalizer if it is there, then delete. */
  method StripAndDelete(c: Cluster, f: Name, gs: GameServer, ghost s0: State, ghost read: Fleet)
    returns (result: Result, ghost acts: seq<FleetAct>)
    requires c.Valid() && InFinalize(c.cfg, c.Here(), f, read)
    requires Listed(c.cfg, s0, f, gs) && FleetRely(s0, c.Here(), f) && !gs.deleting
    modifies c`world, c`ledger, c`path, c`run
    ensures c.Valid() && f !in c.ledger.fleetPass
    ensures FleetDid(f, c.quiet, old(c.Past()), c.Past(), acts)
    ensures acts in [[], [FleetAct.StripGs], [DeleteGs], [FleetAct.StripGs, DeleteGs]]
    ensures result != Return
    ensures result == After(2) ==> DeleteGs in acts && (SERVER_FINALIZER in gs.finalizers ==> FleetAct.StripGs in acts)
    ensures c.quiet && old(c.Here() == s0) ==> result == After(2) && acts == FinalizePlan(old(c.world), f)
  {
    hide Inv, FleetKnows, FleetRely, FleetEvolves, UpdateServer, FStripGs, FDeleteGs, DeleteServer, Without, FleetDid,
      Did, Cluster.Valid;
    var n := OwnedName(f);
    RelyKnows(s0, c.Here(), f);
    StillOwned(c.cfg, s0, c.Here(), f, gs);
    ghost var x := c.Past();
    ghost var first: seq<FleetAct> := [];
    FleetIdle(f, c.quiet, x);
    if SERVER_FINALIZER in gs.finalizers {
      var rest := Strip(gs.finalizers, SERVER_FINALIZER);
      PauseInFinalize(c, f, s0, read);
      ghost var s, y := c.Here(), c.Past();
      StripIsAction(c.cfg, s0, s, f, read, gs);
      var err;
      ghost var took;
      err, took := c.Write(UpdateServer(c.world, n, gs.(finalizers := rest)), FleetController(f),
                           FleetCtl(f, FleetAct.StripGs), s.l);
      FleetWrote(f, c.quiet, x, y, c.Past(), FleetAct.StripGs, took);
      first := if took then [FleetAct.StripGs] else [];
      if took {
        FinalizeWrote(c.cfg, s, c.Here(), f, read, FleetAct.StripGs);
        FleetKnowsTransitive(s0, s, c.Here(), f);
      }
      if err != None {
        return OnError(err.value), first;
      }
    }
    ghost var z, more := c.Past(), [];
    result, more := DeleteOwned(c, f, s0, read);
    FleetThen(f, c.quiet, x, z, c.Past(), first, more);
    acts := first + more;
    assert [FleetAct.StripGs] + [DeleteGs] == [FleetAct.StripGs, DeleteGs];
  }

  lemma StillOwned(cfg: Config, s0: State, s: State, f: Name, gs: GameServer)
    requires Listed(cfg, s0, f, gs) && FleetRely(s0, s, f) && !gs.deleting
    ensures OwnedBy(s.w, f, OwnedName(f)) && !s.w.servers[OwnedName(f)].deleting
  {
  }

  /** Delete by name: until this pass deletes it, the GameServer it listed is the one with the name. */
  method DeleteOwned(c: Cluster, f: Name, ghost s0: State, ghost read: Fleet)
    returns (result: Result, ghost acts: seq<FleetAct>)
    requires c.Valid() && InFinalize(c.cfg, c.Here(), f, read) && FleetKnows(s0, c.Here(), f)
    requires OwnedBy(c.world, f, OwnedName(f)) && !c.world.servers[OwnedName(f)].deleting
    modifies c`world, c`ledger, c`path, c`run
    ensures c.Valid() && f !in c.ledger.fleetPass
    ensures FleetDid(f, c.quiet, old(c.Past()), c.Past(), acts) && (acts == [] || acts == [DeleteGs])
    ensures result != Return && (result == After(2) ==> acts != [])
    ensures c.quiet ==> result == After(2)
  {
    hide Inv, FleetKnows, FleetDid, Did;
    PauseInFinalize(c, f, s0, read);
    ghost var s, y := c.Here(), c.Past();
    StillThere(old(c.Here()), s, f);
    var err;
    ghost var took;
    err, took := c.Write(DeleteServer(c.world, OwnedName(f)), FleetController(f), FleetCtl(f, DeleteGs), s.l);
    FleetWrote(f, c.quiet, old(c.Past()), y, c.Past(), DeleteGs, took);
    acts := if took then [DeleteGs] else [];
    if err != None && err != Some(NotFound) {
      return Fail(err.value), acts;
    }
    result := After(2);
  }

  lemma StillThere(s: State, t: State, f: Name)
    requires FleetRely(s, t, f) && OwnedBy(s.w, f, OwnedName(f)) && !s.w.servers[OwnedName(f)].deleting
    ensures OwnedBy(t.w, f, OwnedName(f)) && !t.w.servers[OwnedName(f)].deleting
  {
    hide FleetKnows;
  }

  lemma ReleaseIsAction(cfg: Config, s: State, f: Name, read: Fleet)
    requires InFinalize(cfg, s, f, read) && !OwnedBy(s.w, f, OwnedName(f))
    ensures NoneOwned(s.w, f) && Finalizing(s, f)
    ensures var r := UpdateFleet(s.w, f, read.(finalizers := Without(read.finalizers, FLEET_FINALIZER)));
            && (if r.err == None then FRelease(s, f, State(r.world, s.l)) else r.world == s.w)
            && (s.w.fleets[f] == read ==> r.err == None)
  {
    NothingOwned(cfg, s, f);
  }

  lemma StillNone(s0: State, s: State, f: Name)
    requires FleetKnows(s0, s, f) && !OwnedBy(s0.w, f, OwnedName(f))
    ensures !OwnedBy(s.w, f, OwnedName(f))
  {
  }

  /** No GameServer is left: delete the Service if it is there, and take the finalizer off the fleet. */
  method LetFleetGo(c: Cluster, f: Name, read: Fleet, ghost s0: State)
    returns (result: Result, ghost acts: seq<FleetAct>)
    requires c.Valid() && InFinalize(c.cfg, c.Here(), f, read) && FleetKnows(s0, c.Here(), f)
    requires !OwnedBy(s0.w, f, OwnedName(f))
    modifies c`world, c`ledger, c`path, c`run
    ensures c.Valid() && f !in c.ledger.fleetPass
    ensures FleetDid(f, c.quiet, old(c.Past()), c.Past(), acts)
    ensures acts in [[], [DropService], [FleetAct.Release], [DropService, FleetAct.Release]]
    ensures result == Return ==> FleetAct.Release in acts
    ensures c.quiet && old(c.world.fleets[f] == read) ==> result == Return && acts == FinalizePlan(old(c.world), f)
  {
    hide Inv, FleetEvolves, UpdateFleet, FRelease, FleetKnows, FleetDid, Did, Cluster.Valid;
    ghost var first: seq<FleetAct> := [];
    ghost var x := c.Past();
    StillNone(s0, c.Here(), f);
    PauseInFinalize(c, f, s0, read);
    var err := c.Reach();
    if err == None && f in c.world.services {
      ghost var y := c.Past();
      PauseInFinalize(c, f, s0, read);
      FleetThen(f, c.quiet, x, y, c.Past(), [], []);
      ghost var s, z := c.Here(), c.Past();
      StillNone(s0, s, f);
      ReleaseIsAction(c.cfg, s, f, read);
      ghost var took;
      err, took := c.Write(DeleteService(c.world, f), FleetController(f), FleetCtl(f, DropService), s.l);
      FleetWrote(f, c.quiet, x, z, c.Past(), DropService, took);
      first := if took then [DropService] else [];
      if took {
        FinalizeWrote(c.cfg, s, c.Here(), f, read, DropService);
        FleetKnowsTransitive(s0, s, c.Here(), f);
      }
      if err != None && err != Some(NotFound) {
        return Fail(err.value), first;
      }
    }
    ghost var w, more := c.Past(), [];
    result, more := TakeFinalizer(c, f, read, s0);
    FleetThen(f, c.quiet, x, w, c.Past(), first, more);
    acts := first + more;
    assert [DropService] + [FleetAct.Release] == [DropService, FleetAct.Release];
  }

  method TakeFinalizer(c: Cluster, f: Name, read: Fleet, ghost s0: State)
    returns (result: Result, ghost acts: seq<FleetAct>)
    requires c.Valid() && InFinalize(c.cfg, c.Here(), f, read) && FleetKnows(s0, c.Here(), f)
    requires !OwnedBy(s0.w, f, OwnedName(f))
    modifies c`world, c`ledger, c`path, c`run
    ensures c.Valid() && f !in c.ledger.fleetPass
    ensures FleetDid(f, c.quiet, old(c.Past()), c.Past(), acts) && (acts == [] || acts == [FleetAct.Release])
    ensures result == Return ==> acts != []
    ensures c.quiet && old(c.world.fleets[f] == read) ==> result == Return
  {
    hide Inv, FleetEvolves, UpdateFleet, FRelease, FleetDid, Did;
    var rest := Strip(read.finalizers, FLEET_FINALIZER);
    PauseInFinalize(c, f, s0, read);
    ghost var s, y := c.Here(), c.Past();
    ReleaseIsAction(c.cfg, s, f, read);
    var err;
    ghost var took;
    err, took := c.Write(UpdateFleet(c.world, f, read.(finalizers := rest)), FleetController(f),
                         FleetCtl(f, FleetAct.Release), s.l);
    FleetWrote(f, c.quiet, old(c.Past()), y, c.Past(), FleetAct.Release, took);
    acts := if took then [FleetAct.Release] else [];
    if err != None {
      return OnError(err.value), acts;
    }
    result := Return;
  }

  lemma StripFollows(acts: seq<FleetAct>)
    requires acts in [[], [FleetAct.StripGs], [DeleteGs], [FleetAct.StripGs, DeleteGs]]
    ensures Follows(Stripping, acts)
  {
  }

  lemma LetGoFollows(acts: seq<FleetAct>)
    requires acts in [[], [DropService], [FleetAct.Release], [DropService, FleetAct.Release]]
    ensures Follows(Releasing, acts)
  {
  }

  /** What a finalizing pass that listed the store `listed` may do; nothing if the list failed. */
  ghost predicate FinalizeActs(f: Name, listed: Option<World>, acts: seq<FleetAct>) {
    match listed
    case None => acts == []
    case Some(w) => Follows(if OwnedBy(w, f, OwnedName(f)) then Stripping else Releasing, acts)
  }

  /** finalize. The loop runs over the list of the fleet's GameServers, which has at most one entry: it strips and
      deletes an unmarked one, and passes over a marked one. The fleet is released, and its Service deleted, only by a
      pass that listed no GameServer. */
  method Finalize(c: Cluster, f: Name, read: Fleet)
    returns (result: Result, ghost listed: Option<World>, ghost acts: seq<FleetAct>)
    requires c.Valid() && InFinalize(c.cfg, c.Here(), f, read)
    modifies c`world, c`ledger, c`path, c`run
    ensures c.Valid() && f !in c.ledger.fleetPass
    ensures FleetDid(f, c.quiet, old(c.Past()), c.Past(), acts) && FinalizeActs(f, listed, acts)
    ensures listed.Some? ==> Saw(c.path, |old(c.path)| - 1, listed.value)
    ensures result == Return ==> FleetAct.Release in acts
    ensures c.quiet && old(c.world.fleets[f] == read) ==>
              && acts == FinalizePlan(old(c.world), f)
              && result == if OwnedBy(old(c.world), f, OwnedName(f)) then After(2) else Return
  {
    hide Inv, FleetKnows, FleetRely, FleetEvolves, FleetDid, Follows, Saw;
    ghost var x := c.Past();
    c.Now();
    var err, items := ListOwned(c, f);
    ghost var s0, y := c.Here(), c.Past();
    FinalizeContinues(c.cfg, old(c.Here()), s0, f, read);
    KnowsSelf(s0, f);
    FleetRelySelf(s0, f);
    listed, acts := None, [];
    StripFollows([]);
    if err != None {
      return Fail(err.value), None, [];
    }
    listed := Some(s0.w);
    c.Now();
    FleetExtends(f, c.quiet, x, y, []);
    SawLast(c.path, |x.path| - 1, s0.w);
    var stillExists := false;
    for i := 0 to |items|
      invariant c.Valid() && f !in c.ledger.fleetPass && |items| <= 1 && (i == 1 ==> FinalizeActs(f, listed, acts))
      invariant FleetDid(f, c.quiet, x, c.Past(), acts) && Saw(c.path, |x.path| - 1, s0.w)
      invariant i == 0 ==> c.Here() == s0 && c.Past() == y && InFinalize(c.cfg, c.Here(), f, read) && !stillExists
                           && acts == []
      invariant i == 1 ==> stillExists && items[0].gs == s0.w.servers[OwnedName(f)] && OwnedBy(s0.w, f, OwnedName(f))
      invariant i == 1 && c.quiet ==> s0 == old(c.Here()) && acts == FinalizePlan(s0.w, f)
    {
      var gs := items[i].gs;
      stillExists := true;
      if !gs.deleting {
        result, acts := StripAndDelete(c, f, gs, s0, read);
        FleetThen(f, c.quiet, x, y, c.Past(), [], acts);
        FleetExtends(f, c.quiet, y, c.Past(), acts);
        SawStill(y.path, c.path, |x.path| - 1, |x.path| - 1, s0.w);
        StripFollows(acts);
        if result != After(2) {
          return;
        }
      }
    }
    if stillExists {
      return After(2), listed, acts;
    }
    result, acts := LetFleetGo(c, f, read, s0);
    FleetThen(f, c.quiet, x, y, c.Past(), [], acts);
    FleetExtends(f, c.quiet, y, c.Past(), acts);
    SawStill(y.path, c.path, |x.path| - 1, |x.path| - 1, s0.w);
    LetGoFollows(acts);
  }

  // ---- Reconcile ----

  /** What a steady pass that read `read` and listed the store `listed` may do between its beginning and its end: the
      one branch that these call for; nothing if the list failed. */
  ghost predicate SteadyActs(cfg: Config, f: Name, read: Fleet, listed: Option<World>, acts: seq<FleetAct>) {
    if FLEET_FINALIZER !in read.finalizers then Follows(Guarding, acts)
    else match listed
         case None => acts == []
         case Some(w) => Follows(SteadyBranch(cfg, w, f, read), acts)
  }

  /** The pass over a fleet that is not marked: add the finalizer, or see to its GameServer. */
  method ReconcileLive(c: Cluster, f: Name, fleet: LiveFleet, ghost read: Fleet)
    returns (result: Result, ghost listed: Option<World>, ghost acts: seq<FleetAct>)
    requires c.Valid() && Inv(c.cfg, c.Here()) && f in c.ledger.fleetPass && c.ledger.fleetPass[f].fleet == read
    requires f in c.world.fleets && c.world.fleets[f] == read && fleet.o == read && !read.deleting
    modifies c`world, c`ledger, c`path, c`run, fleet
    ensures result != Return
    ensures c.Valid() && f in c.ledger.fleetPass
    ensures FleetDid(f, c.quiet, old(c.Past()), c.Past(), acts) && SteadyActs(c.cfg, f, read, listed, acts)
    ensures listed.Some? ==> Saw(c.path, |old(c.path)| - 1, listed.value)
    ensures c.quiet ==> acts == if FLEET_FINALIZER !in read.finalizers then [FleetAct.AddFinalizer]
                                else SteadyPlan(c.cfg, old(c.world), f, read)
    ensures c.quiet ==> result == if FLEET_FINALIZER !in read.finalizers then Requeue
                                  else SteadyOutcome(c.cfg, old(c.world), f, read)
  {
    hide SteadyOutcome, Inv, FleetKnows, FleetRely, FleetEvolves, SteadyPlan, LastTime, FAddFinalizer, UpdateFleet,
      FleetDid, Did, Follows, Saw, SteadyBranch;
    if FLEET_FINALIZER !in fleet.o.finalizers {
      ghost var x := c.Past();
      Pause(c, f);
      ghost var y := c.Past();
      PassKept(old(c.Here()), c.Here(), f);
      AddIsAction(c.cfg, c.Here(), f, read);
      var err;
      ghost var took;
      err, took := c.Write(UpdateFleet(c.world, f, fleet.o.(finalizers := fleet.o.finalizers + [FLEET_FINALIZER])),
                           FleetController(f), FleetCtl(f, FleetAct.AddFinalizer), c.ledger);
      FleetWrote(f, c.quiet, x, y, c.Past(), FleetAct.AddFinalizer, took);
      acts := if took then [FleetAct.AddFinalizer] else [];
      GuardFollows(acts);
      return if err == None then Requeue else Fail(err.value), None, acts;
    }
    HistoryBeforeNow(c.cfg, c.Here(), f);
    EvolvesSelf(read);
    ghost var x := c.Past();
    c.Now();
    var err, items := ListOwned(c, f);
    ghost var s0, y := c.Here(), c.Past();
    PassContinues(c.cfg, old(c.Here()), s0, f, read, read);
    KnowsSelf(s0, f);
    if err != None {
      return Fail(err.value), None, [];
    }
    c.Now();
    FleetExtends(f, c.quiet, x, y, []);
    SawLast(c.path, |x.path| - 1, s0.w);
    listed := Some(s0.w);
    ghost var br;
    result, br, acts := HandleSteadyState(c, f, fleet, items, s0, read);
    FleetThen(f, c.quiet, x, y, c.Past(), [], acts);
    FleetExtends(f, c.quiet, y, c.Past(), acts);
    SawStill(y.path, c.path, |x.path| - 1, |x.path| - 1, s0.w);
  }

  lemma GuardFollows(acts: seq<FleetAct>)
    requires acts == [] || acts == [FleetAct.AddFinalizer]
    ensures Follows(Guarding, acts)
  {
  }

  lemma PassKept(s: State, t: State, f: Name)
    requires FleetRely(s, t, f)
    ensures SamePass(s.l.fleetPass, t.l.fleetPass, f)
  {
  }

  lemma AddIsAction(cfg: Config, s: State, f: Name, read: Fleet)
    requires Inv(cfg, s) && f in s.l.fleetPass && s.l.fleetPass[f].fleet == read && FLEET_FINALIZER !in read.finalizers
    ensures var r := UpdateFleet(s.w, f, read.(finalizers := read.finalizers + [FLEET_FINALIZER]));
            && (if r.err == None then FAddFinalizer(s, f, State(r.world, s.l)) else r.world == s.w)
            && (f in s.w.fleets && s.w.fleets[f] == read ==> r.err == None)
  {
    assert SnapOk(cfg, s, f);
  }

  lemma NoteDid(f: Name, quiet: bool, x: Log, y: Log, act: FleetAct)
    requires Did(Of(FleetController(f)), quiet, x, y, [FleetCtl(f, act)])
    ensures FleetDid(f, quiet, x, y, [act])
  {
    assert FleetActs(f, [act]) == [FleetCtl(f, act)];
  }

  lemma HasLog(cfg: Config, s: State, f: Name)
    requires Inv(cfg, s) && f in s.w.fleets
    ensures f in s.l.logs && s.l.logs[f].hashes != []
  {
    hide ComputeTemplateHash;
    assert FleetOk(cfg, s, f);
  }

  /** The actions of a whole pass that met the store `met` when it read the fleet, and `listed` when it listed the
      GameServers: those of the one branch that these call for, between its beginning and its end if it is a steady one.
      Nothing if the read failed, or the fleet was not there. */
  ghost predicate PassOf(cfg: Config, f: Name, met: Option<World>, listed: Option<World>, acts: seq<FleetAct>) {
    if met == None || f !in met.value.fleets then acts == []
    else
      var read := met.value.fleets[f];
      if read.deleting then FinalizeActs(f, listed, acts)
      else exists middle :: SteadyActs(cfg, f, read, listed, middle) && acts == [Begin] + middle + [End]
  }

  /** The pass over an unmarked fleet, from its read to its return. */
  method SteadyPass(c: Cluster, f: Name, fleet: LiveFleet)
    returns (result: Result, ghost listed: Option<World>, ghost acts: seq<FleetAct>)
    requires c.Valid() && f !in c.ledger.fleetPass
    requires f in c.world.fleets && c.world.fleets[f] == fleet.o && !fleet.o.deleting
    modifies c`world, c`ledger, c`path, c`run, fleet
    ensures result != Return
    ensures c.Valid() && f !in c.ledger.fleetPass
    ensures FleetDid(f, c.quiet, old(c.Past()), c.Past(), acts) && PassOf(c.cfg, f, Some(old(c.world)), listed, acts)
    ensures listed.Some? ==> Saw(c.path, |old(c.path)| - 1, listed.value)
    ensures c.quiet ==> acts == FleetPlan(c.cfg, old(c.world), f) && result == FleetOutcome(c.cfg, old(c.world), f)
  {
    hide SteadyOutcome, Inv, SteadyPlan, ComputeTemplateHash, FinalizePlan, FleetRely, FleetDid, Did, SteadyActs,
      Cluster.Valid, Saw;
    c.Reachable();
    c.Now();
    HasLog(c.cfg, c.Here(), f);
    ghost var w, read, x := c.world, fleet.o, c.Past();
    c.Note(FleetController(f), FleetCtl(f, Begin),
           c.ledger.(fleetPass := c.ledger.fleetPass[f := FleetSnap(read, |c.ledger.logs[f].hashes| - 1)]));
    ghost var y := c.Past();
    NoteDid(f, c.quiet, x, y, Begin);
    FleetExtends(f, c.quiet, x, y, [Begin]);
    c.Reachable();
    ghost var middle;
    result, listed, middle := ReconcileLive(c, f, fleet, read);
    ghost var z := c.Past();
    FleetThen(f, c.quiet, x, y, z, [Begin], middle);
    c.Note(FleetController(f), FleetCtl(f, End), c.ledger.(fleetPass := c.ledger.fleetPass - {f}));
    NoteDid(f, c.quiet, z, c.Past(), End);
    FleetThen(f, c.quiet, x, z, c.Past(), [Begin] + middle, [End]);
    FleetExtends(f, c.quiet, z, c.Past(), [End]);
    if listed.Some? {
      SawStill(z.path, c.path, |y.path| - 1, |x.path| - 1, listed.value);
    }
    acts := [Begin] + middle + [End];
    assert [Begin] + [FleetAct.AddFinalizer] + [End] == [Begin, FleetAct.AddFinalizer, End];
  }

  /** Reconcile: one pass over fleet `f`. Whatever others do and whatever calls fail, nothing recorded is lost, and
      what the fleet controller does meanwhile is this pass's actions: those of the branch that what it read and listed
      calls for, in order, each at most once, every one allowed by the state it meets. In quiet times it is exactly what
      FleetPlan says. */
  method Reconcile(c: Cluster, f: Name)
    returns (result: Result, ghost met: Option<World>, ghost listed: Option<World>, ghost acts: seq<FleetAct>)
    requires c.Valid() && f !in c.ledger.fleetPass
    modifies c`world, c`ledger, c`path, c`run
    ensures result == Return ==> met.Some? && (f !in met.value.fleets || FleetAct.Release in acts)
    ensures c.Valid() && f !in c.ledger.fleetPass
    ensures FleetDid(f, c.quiet, old(c.Past()), c.Past(), acts) && PassOf(c.cfg, f, met, listed, acts)
    ensures met.Some? ==> Saw(c.path, |old(c.path)| - 1, met.value)
    ensures listed.Some? ==> Saw(c.path, |old(c.path)| - 1, listed.value)
    ensures c.quiet ==> acts == FleetPlan(c.cfg, old(c.world), f) && result == FleetOutcome(c.cfg, old(c.world), f)
  {
    hide SteadyOutcome, Inv, FleetKnows, FleetRely, FleetEvolves, SteadyPlan, FinalizePlan, FleetDid, FinalizeActs,
      SteadyActs, Saw, Cluster.Valid;
    met, listed := None, None;
    ghost var x := c.Past();
    c.Now();
    Pause(c, f);
    ghost var y := c.Past();
    PassKept(old(c.Here()), c.Here(), f);
    var err := c.Reach();
    if err != None {
      return Fail(err.value), None, None, [];
    }
    met := Some(c.world);
    c.Now();
    FleetExtends(f, c.quiet, x, y, []);
    SawLast(c.path, |x.path| - 1, c.world);
    if f !in c.world.fleets {
      return Return, met, None, [];
    }
    var fleet := new LiveFleet(c.world.fleets[f]);
    EvolvesSelf(c.world.fleets[f]);
    if fleet.o.deleting {
      result, listed, acts := Finalize(c, f, fleet.o);
    } else {
      result, listed, acts := SteadyPass(c, f, fleet);
    }
    FleetThen(f, c.quiet, x, y, c.Past(), [], acts);
    FleetExtends(f, c.quiet, y, c.Past(), acts);
    SawStill(y.path, c.path, |x.path| - 1, |x.path| - 1, met.value);
    if listed.Some? {
      SawStill(c.path, c.path, |y.path| - 1, |x.path| - 1, listed.value);
    }
  }
}

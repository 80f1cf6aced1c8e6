/** Undisturbed passes of both controllers over small fleets, step by step: what runs are made of. */
module Turns {
  import opened Types
  import opened Conditions
  import opened Live
  import opened Webhook
  import opened TemplateHash
  import opened Builders
  import opened Store
  import opened Actions
  import opened Invariants
  import opened Preservation
  import opened Plans
  import opened Deletion
  import opened FleetHealth
  import opened Templates

  const GAME := "minecraft"

  const SPEC := ServerSpec(GAME, "1.21", "itzg/minecraft-server", "", 1, [], [PortSpec("game", 25565, None, "")], "",
                           map[], None)

  const TEMPLATE := Template(map[], map[], SPEC)

  lemma SpecIsStored()
    ensures Stored(DefaultSpec(SPEC)) && DefaultSpec(SPEC).gameType == GAME
  {
    DefaultKeepsVerdict(SPEC);
    AdmittedIsStored(SPEC);
  }

  // ---- passes within a run ----

  predicate PassAt(acts: seq<Action>, i: nat, pass: seq<Action>) {
    i + |pass| <= |acts| && acts[i..i + |pass|] == pass
  }

  /** An undisturbed pass over fleet `f` begins in state `i` of the run. */
  predicate FleetPassAt(cfg: Config, path: seq<State>, acts: seq<Action>, f: Name, i: nat) {
    i < |path| && PassAt(acts, i, FleetActs(f, FleetPlan(cfg, path[i].w, f)))
  }

  /** An undisturbed pass over GameServer `n` begins in state `i` of the run. */
  predicate ServerPassAt(cfg: Config, path: seq<State>, acts: seq<Action>, n: Name, i: nat) {
    i < |path| && PassAt(acts, i, ServerActs(n, ServerPlan(cfg, path[i].w, n)))
  }

  /** One run after another. A pass in either is a pass in both together. */
  lemma Chain(cfg: Config, p: seq<State>, a: seq<Action>, q: seq<State>, c: seq<Action>)
    returns (path: seq<State>, acts: seq<Action>)
    requires Runs(cfg, p, a) && Runs(cfg, q, c) && p[|a|] == q[0]
    ensures Runs(cfg, path, acts) && path == p + q[1..] && acts == a + c
    ensures |p| == |a| + 1 && |q| == |c| + 1 && |path| == |acts| + 1 && path[|acts|] == q[|c|] && path[0] == p[0]
    ensures forall f, i: nat :: FleetPassAt(cfg, p, a, f, i) ==> FleetPassAt(cfg, path, acts, f, i)
    ensures forall n, i: nat :: ServerPassAt(cfg, p, a, n, i) ==> ServerPassAt(cfg, path, acts, n, i)
    ensures forall f :: FleetPassAt(cfg, q, c, f, 0) ==> FleetPassAt(cfg, path, acts, f, |a|)
    ensures forall n :: ServerPassAt(cfg, q, c, n, 0) ==> ServerPassAt(cfg, path, acts, n, |a|)
  {
    hide Step, FleetPlan, ServerPlan, PassAt;
    path, acts := p + q[1..], a + c;
    RunsJoin(cfg, p, a, q, c);
    forall pass, i: nat ensures PassAt(a, i, pass) ==> PassAt(acts, i, pass) {
      PassStays(a, c, i, pass);
    }
    forall pass ensures PassAt(c, 0, pass) ==> PassAt(acts, |a|, pass) {
      PassMoves(a, c, pass);
    }
    forall i: nat | i < |p| ensures path[i] == p[i] {
    }
  }

  lemma PassStays(a: seq<Action>, c: seq<Action>, i: nat, pass: seq<Action>)
    ensures PassAt(a, i, pass) ==> PassAt(a + c, i, pass)
  {
    if PassAt(a, i, pass) {
      assert (a + c)[i..i + |pass|] == a[i..i + |pass|];
    }
  }

  lemma PassMoves(a: seq<Action>, c: seq<Action>, pass: seq<Action>)
    ensures PassAt(c, 0, pass) ==> PassAt(a + c, |a|, pass)
  {
    if PassAt(c, 0, pass) {
      assert (a + c)[|a|..|a| + |pass|] == c[0..|pass|];
    }
  }

  lemma WholePass(acts: seq<Action>)
    ensures PassAt(acts, 0, acts)
  {
  }

  // ---- steps of a fleet pass ----

  /** A held fleet without history that has a log and no pass in flight. */
  ghost predicate Idle(s: State, f: Name) {
    && Held(s.w, f) && !s.w.fleets[f].deleting && s.w.fleets[f].status.history == []
    && f in s.l.logs && s.l.logs[f].hashes != [] && f !in s.l.fleetPass
  }

  /** The same with a steady pass in flight that read it. */
  ghost predicate Reading(s: State, f: Name) {
    && Steady(s, f) && Wanted(s, f) == s.w.fleets[f].template && !s.w.fleets[f].deleting
    && s.w.fleets[f].status.history == []
    && s.l.logs[f].hashes != [] && s.l.fleetPass[f].epoch == |s.l.logs[f].hashes| - 1
  }

  /** The fleet's GameServer with the spec that TEMPLATE gives it, alive, with no pass in flight. */
  ghost predicate Standing(s: State, f: Name) {
    var n := OwnedName(f);
    && OwnedBy(s.w, f, n) && n !in s.l.serverPass
    && !s.w.servers[n].deleting && s.w.servers[n].spec == DefaultSpec(SPEC) && s.w.servers[n].status.phase != Failed
  }

  /** The same with that template's stamp, the latest of the log. */
  ghost predicate Made(cfg: Config, s: State, f: Name) {
    && Standing(s, f) && f in s.l.logs && Latest(s.l.logs[f])
    && HashOf(s.w.servers[OwnedName(f)].annotations) == ComputeTemplateHash(cfg, TEMPLATE)
  }

  /** A user's fleet, with the finalizer already on it. */
  lemma NewFleetStep(cfg: Config, s: State, f: Name) returns (t: State)
    requires f !in s.w.fleets && f !in s.l.fleetPass
    ensures Step(cfg, s, Env(UserCreateFleet(f, TEMPLATE, [FLEET_FINALIZER])), t) && Idle(t, f)
    ensures t.w == s.w.(revision := t.w.revision, fleets := s.w.fleets[f := NewFleet(s.w, TEMPLATE, [FLEET_FINALIZER])])
    ensures f in t.l.logs && t.l == s.l.(logs := s.l.logs[f := t.l.logs[f]])
  {
    hide ComputeTemplateHash;
    t := State(PutFleet(s.w, f, NewFleet(s.w, TEMPLATE, [FLEET_FINALIZER])),
               s.l.(logs := s.l.logs[f := FleetLog([ComputeTemplateHash(cfg, TEMPLATE)], 0, 0, [])]));
  }

  lemma BeginStep(cfg: Config, s: State, f: Name) returns (t: State)
    requires Idle(s, f)
    ensures Step(cfg, s, FleetCtl(f, Begin), t) && Reading(t, f) && t.w == s.w
    ensures t.l == s.l.(fleetPass := s.l.fleetPass[f := t.l.fleetPass[f]])
  {
    t := s.(l := s.l.(fleetPass := s.l.fleetPass[f := FleetSnap(s.w.fleets[f], |s.l.logs[f].hashes| - 1)]));
  }

  lemma EndStep(cfg: Config, s: State, f: Name) returns (t: State)
    requires Reading(s, f)
    ensures Step(cfg, s, FleetCtl(f, End), t) && Idle(t, f) && t == s.(l := s.l.(fleetPass := s.l.fleetPass - {f}))
  {
    t := s.(l := s.l.(fleetPass := s.l.fleetPass - {f}));
  }

  lemma CreateStep(cfg: Config, s: State, f: Name) returns (t: State)
    requires Reading(s, f) && OwnedName(f) !in s.w.servers && OwnedName(f) !in s.l.serverPass
    requires s.w.fleets[f].template == TEMPLATE
    ensures Step(cfg, s, FleetCtl(f, CreateGs), t) && Reading(t, f) && Made(cfg, t, f)
    ensures CreateServer(s.w, OwnedName(f), BuildServer(cfg, f, TEMPLATE)) == Reply(t.w, None)
    ensures t.w == s.w.(revision := t.w.revision, servers := s.w.servers[OwnedName(f) := t.w.servers[OwnedName(f)]])
    ensures t.w.servers[OwnedName(f)].status == NEW_STATUS && t.w.servers[OwnedName(f)].finalizers == []
    ensures t.w.servers[OwnedName(f)].labels == TEMPLATE.labels[FLEET_LABEL := f]
    ensures t.l == s.l.(logs := s.l.logs[f := t.l.logs[f]])
  {
    hide ComputeTemplateHash, DefaultSpec, ValidSpec;
    SpecIsStored();
    var r := CreateServer(s.w, OwnedName(f), BuildServer(cfg, f, TEMPLATE));
    t := State(r.world, Stamped(s, f, 0));
  }

  lemma NoteStep(cfg: Config, s: State, f: Name) returns (t: State)
    requires Reading(s, f)
    ensures Step(cfg, s, FleetCtl(f, CreatedStatus(s.w.now)), t) && Reading(t, f)
    ensures t.w == s.w.(revision := t.w.revision, fleets := s.w.fleets[f := t.w.fleets[f]]) && t.l == s.l
    ensures t.w.fleets[f].template == s.w.fleets[f].template
    ensures t.w.fleets[f].status == CreatedEdit(s.w.fleets[f].status, OwnedName(f), s.w.now)
  {
    var fleet := s.w.fleets[f];
    var after := CreatedEdit(fleet.status, OwnedName(f), s.w.now);
    t := s.(w := UpdateFleetStatus(cfg, s.w, f, fleet.(status := after)).world);
  }

  lemma SyncStep(cfg: Config, s: State, f: Name, gs: ServerStatus) returns (t: State)
    requires Reading(s, f) && gs.phase != Failed
    ensures Step(cfg, s, FleetCtl(f, SyncStatus(gs, s.w.now)), t) && FSyncStatus(cfg, s, f, gs, s.w.now, t)
    ensures Reading(t, f)
    ensures t.w == s.w.(revision := t.w.revision, fleets := s.w.fleets[f := t.w.fleets[f]]) && t.l == s.l
    ensures t.w.fleets[f].template == s.w.fleets[f].template
    ensures t.w.fleets[f].status == SyncEdit(s.w.fleets[f].status, s.w.fleets[f].generation, Some(gs), s.w.now)
  {
    hide SyncEdit;
    var fleet := s.w.fleets[f];
    SyncMeans(fleet.status, fleet.generation, gs, s.w.now);
    var after := SyncEdit(fleet.status, fleet.generation, Some(gs), s.w.now);
    t := s.(w := UpdateFleetStatus(cfg, s.w, f, fleet.(status := after)).world);
  }

  lemma FrontStep(cfg: Config, s: State, f: Name) returns (svc: Service, t: State)
    requires Reading(s, f) && Standing(s, f)
    ensures Step(cfg, s, FleetCtl(f, ServeFleet(svc, GAME)), t) && t == s.(w := PutService(s.w, f, svc))
    ensures svc == FleetServiceSync(s.w, f, OwnedName(f), s.w.servers[OwnedName(f)])
    ensures svc.selector == GameServerLabels(OwnedName(f), GAME)
  {
    hide DefaultSpec, ValidSpec, ComputeTemplateHash;
    SpecIsStored();
    svc := FleetServiceSync(s.w, f, OwnedName(f), s.w.servers[OwnedName(f)]);
    t := s.(w := PutService(s.w, f, svc));
  }

  // ---- undisturbed fleet passes ----

  lemma CreatePlanIs(cfg: Config, s: State, f: Name, w: World, gs: GameServer)
    requires Idle(s, f) && s.w.fleets[f].template == TEMPLATE
    requires OwnedName(f) !in s.w.servers && gs.spec == DefaultSpec(SPEC)
    requires CreateServer(s.w, OwnedName(f), BuildServer(cfg, f, TEMPLATE)) == Reply(w, None)
    requires OwnedName(f) in w.servers && w.servers[OwnedName(f)] == gs
    requires f in s.w.services ==> s.w.services[f].selector != GameServerLabels(OwnedName(f), GAME)
    ensures FleetPlan(cfg, s.w, f)
            == [Begin, CreateGs, CreatedStatus(s.w.now),
                ServeFleet(FleetServiceSync(s.w, f, OwnedName(f), gs), GAME), End]
  {
    hide DefaultSpec, ValidSpec, CreateServer, BuildServer, GameServerLabels, ServicePorts, FleetLabels;
    SpecIsStored();
  }

  /** The pass that makes a fleet's GameServer and puts the fleet Service in front of it. */
  lemma CreateTurn(cfg: Config, s: State, f: Name) returns (path: seq<State>, acts: seq<Action>)
    requires Idle(s, f) && s.w.fleets[f].template == TEMPLATE
    requires OwnedName(f) !in s.w.servers && OwnedName(f) !in s.l.serverPass
    requires f in s.w.services ==> s.w.services[f].selector != GameServerLabels(OwnedName(f), GAME)
    ensures Runs(cfg, path, acts) && path[0] == s && |acts| == 5 && FleetPassAt(cfg, path, acts, f, 0)
    ensures var t, n := path[5], OwnedName(f);
            && Idle(t, f) && Made(cfg, t, f) && t.w.servers[n].status == NEW_STATUS && t.w.servers[n].finalizers == []
            && t.w.servers[n].labels == TEMPLATE.labels[FLEET_LABEL := f] && t.w.fleets[f].template == TEMPLATE
            && f in t.w.services && t.w.services[f] == FleetServiceSync(s.w, f, n, t.w.servers[n])
            && t.w.services[f].selector == GameServerLabels(n, GAME)
            && t.w == s.w.(revision := t.w.revision, fleets := s.w.fleets[f := t.w.fleets[f]],
                           servers := s.w.servers[n := t.w.servers[n]], services := s.w.services[f := t.w.services[f]])
            && t.l == s.l.(logs := s.l.logs[f := t.l.logs[f]])
            && t.w.fleets[f].status == CreatedEdit(s.w.fleets[f].status, n, s.w.now)
  {
    hide Step, CreateServer, CreatedEdit, GameServerLabels, ComputeTemplateHash, DefaultSpec, FleetPlan,
      FleetServiceSync;
    var n := OwnedName(f);
    var a := BeginStep(cfg, s, f);
    var b := CreateStep(cfg, a, f);
    var c := NoteStep(cfg, b, f);
    var svc, d := FrontStep(cfg, c, f);
    var e := EndStep(cfg, d, f);
    SameSync(s.w, c.w, f, n, c.w.servers[n]);
    CreatePlanIs(cfg, s, f, b.w, b.w.servers[n]);
    path := [s, a, b, c, d, e];
    acts := [FleetCtl(f, Begin), FleetCtl(f, CreateGs), FleetCtl(f, CreatedStatus(s.w.now)),
             FleetCtl(f, ServeFleet(svc, GAME)), FleetCtl(f, End)];
    assert e.l.fleetPass == s.l.fleetPass;
    assert acts == FleetActs(f, [Begin, CreateGs, CreatedStatus(s.w.now), ServeFleet(svc, GAME), End]);
    WholePass(acts);
  }

  lemma SameSync(v: World, w: World, f: Name, n: Name, gs: GameServer)
    requires v.services == w.services
    ensures FleetServiceSync(v, f, n, gs) == FleetServiceSync(w, f, n, gs)
  {
  }

  /** The pass that finds nothing to do but to copy readiness into the fleet's status. */
  lemma SyncTurn(cfg: Config, s: State, f: Name) returns (path: seq<State>, acts: seq<Action>)
    requires Idle(s, f) && Made(cfg, s, f) && !CompletesNow(s.w.fleets[f], s.w.servers[OwnedName(f)])
    requires HasService(s.w, f, FleetServiceSync(s.w, f, OwnedName(f), s.w.servers[OwnedName(f)]))
    requires ComputeTemplateHash(cfg, s.w.fleets[f].template) == ComputeTemplateHash(cfg, TEMPLATE)
    ensures Runs(cfg, path, acts) && path[0] == s && |acts| == 3 && FleetPassAt(cfg, path, acts, f, 0)
    ensures var t, gs := path[3], s.w.servers[OwnedName(f)].status;
            && Idle(t, f) && t.w.fleets[f].template == s.w.fleets[f].template
            && t.w == s.w.(revision := t.w.revision, fleets := s.w.fleets[f := t.w.fleets[f]]) && t.l == s.l
            && t.w.fleets[f].status == SyncEdit(s.w.fleets[f].status, s.w.fleets[f].generation, Some(gs), s.w.now)
  {
    hide Step, SyncEdit, ComputeTemplateHash, DefaultSpec, FleetServiceSync, HasService, FSyncStatus;
    var gs := s.w.servers[OwnedName(f)].status;
    var a := BeginStep(cfg, s, f);
    var b := SyncStep(cfg, a, f, gs);
    var c := EndStep(cfg, b, f);
    path := [s, a, b, c];
    acts := [FleetCtl(f, Begin), FleetCtl(f, SyncStatus(gs, s.w.now)), FleetCtl(f, End)];
    assert c.l.fleetPass == s.l.fleetPass;
    assert FleetPlan(cfg, s.w, f) == [Begin, FleetAct.SyncStatus(gs, s.w.now), End];
    assert acts == FleetActs(f, [Begin, FleetAct.SyncStatus(gs, s.w.now), End]);
    WholePass(acts);
  }

  // ---- users ----

  lemma EditStep(cfg: Config, s: State, f: Name, template: Template) returns (t: State)
    requires Idle(s, f)
    ensures Step(cfg, s, Env(UserEditFleet(f, template)), t) && Idle(t, f) && t.w.fleets[f].template == template
    ensures t.w.fleets[f].status == s.w.fleets[f].status
    ensures t.w == s.w.(revision := t.w.revision, fleets := s.w.fleets[f := t.w.fleets[f]])
    ensures t.l == s.l.(logs := s.l.logs[f := t.l.logs[f]])
    ensures var hashes := s.l.logs[f].hashes;
            ComputeTemplateHash(cfg, template) == hashes[|hashes| - 1] ==> t.l == s.l
  {
    hide ComputeTemplateHash;
    var log := Rehash(s.l.logs[f], ComputeTemplateHash(cfg, template));
    t := State(UpdateFleet(s.w, f, s.w.fleets[f].(template := template)).world, s.l.(logs := s.l.logs[f := log]));
  }

  lemma UnstampStep(cfg: Config, s: State, f: Name) returns (t: State)
    requires Standing(s, f)
    ensures Step(cfg, s, Env(UserUnstamp(OwnedName(f))), t) && Standing(t, f)
    ensures t.w == s.w.(revision := t.w.revision, servers := s.w.servers[OwnedName(f) := t.w.servers[OwnedName(f)]])
    ensures HashOf(t.w.servers[OwnedName(f)].annotations) == "" && t.l == s.l
    ensures t.w.servers[OwnedName(f)].status == s.w.servers[OwnedName(f)].status
  {
    hide DefaultSpec, ValidSpec;
    SpecIsStored();
    var n := OwnedName(f);
    t := s.(w := UpdateServer(s.w, n, s.w.servers[n].(annotations := s.w.servers[n].annotations - {HASH_ANNOTATION}))
            .world);
  }

  lemma DeleteFleetStep(cfg: Config, s: State, f: Name) returns (t: State)
    requires Idle(s, f)
    ensures Step(cfg, s, Env(UserDeleteFleet(f)), t) && Held(t.w, f) && t.w.fleets[f].deleting
    ensures t.w == s.w.(revision := t.w.revision, fleets := s.w.fleets[f := t.w.fleets[f]]) && t.l == s.l
  {
    t := s.(w := DeleteFleet(s.w, f).world);
  }

  // ---- a pass that stamps ----

  lemma PatchStep(cfg: Config, s: State, f: Name) returns (t: State)
    requires Reading(s, f) && Standing(s, f)
    ensures Step(cfg, s, FleetCtl(f, PatchHash), t) && Reading(t, f) && Standing(t, f)
    ensures t.w == s.w.(revision := t.w.revision, servers := s.w.servers[OwnedName(f) := t.w.servers[OwnedName(f)]])
    ensures t.w.servers[OwnedName(f)].status == s.w.servers[OwnedName(f)].status
    ensures HashOf(t.w.servers[OwnedName(f)].annotations) == ComputeTemplateHash(cfg, s.w.fleets[f].template)
    ensures t.l == s.l.(logs := s.l.logs[f := t.l.logs[f]]) && Latest(t.l.logs[f])
  {
    hide ComputeTemplateHash, DefaultSpec, ValidSpec;
    SpecIsStored();
    var n := OwnedName(f);
    t := State(PatchServerHash(s.w, n, ComputeTemplateHash(cfg, Wanted(s, f))).world, Stamped(s, f, 0));
  }

  lemma PatchPlanIs(cfg: Config, s: State, f: Name)
    requires Idle(s, f) && Standing(s, f) && !CompletesNow(s.w.fleets[f], s.w.servers[OwnedName(f)])
    requires HasService(s.w, f, FleetServiceSync(s.w, f, OwnedName(f), s.w.servers[OwnedName(f)]))
    requires HashOf(s.w.servers[OwnedName(f)].annotations) == ""
    ensures FleetPlan(cfg, s.w, f)
            == [Begin, PatchHash, FleetAct.SyncStatus(s.w.servers[OwnedName(f)].status, s.w.now), End]
  {
    hide ComputeTemplateHash, DefaultSpec, FleetServiceSync, HasService;
  }

  /** The pass over a GameServer without a stamp stamps it with the template's hash, whatever spec it has. */
  lemma PatchTurn(cfg: Config, s: State, f: Name) returns (path: seq<State>, acts: seq<Action>)
    requires Idle(s, f) && Standing(s, f) && !CompletesNow(s.w.fleets[f], s.w.servers[OwnedName(f)])
    requires HasService(s.w, f, FleetServiceSync(s.w, f, OwnedName(f), s.w.servers[OwnedName(f)]))
    requires HashOf(s.w.servers[OwnedName(f)].annotations) == ""
    ensures Runs(cfg, path, acts) && path[0] == s && |acts| == 4 && FleetPassAt(cfg, path, acts, f, 0)
    ensures var t := path[4];
            && Idle(t, f) && Standing(t, f) && t.w.fleets[f].template == s.w.fleets[f].template
            && HashOf(t.w.servers[OwnedName(f)].annotations) == ComputeTemplateHash(cfg, t.w.fleets[f].template)
            && Latest(t.l.logs[f])
  {
    hide Step, SyncEdit, ComputeTemplateHash, DefaultSpec, FleetServiceSync, HasService, FSyncStatus, FleetPlan;
    var gs := s.w.servers[OwnedName(f)].status;
    var a := BeginStep(cfg, s, f);
    var b := PatchStep(cfg, a, f);
    var c := SyncStep(cfg, b, f, gs);
    var d := EndStep(cfg, c, f);
    PatchPlanIs(cfg, s, f);
    path := [s, a, b, c, d];
    acts := [FleetCtl(f, Begin), FleetCtl(f, PatchHash), FleetCtl(f, SyncStatus(gs, s.w.now)), FleetCtl(f, End)];
    assert acts == FleetActs(f, [Begin, PatchHash, FleetAct.SyncStatus(gs, s.w.now), End]);
    WholePass(acts);
  }

  // ---- steps of a GameServer pass ----

  lemma BeginServerStep(cfg: Config, s: State, n: Name) returns (t: State)
    requires n in s.w.servers && !s.w.servers[n].deleting && n !in s.l.serverPass
    ensures Step(cfg, s, ServerCtl(n, BeginServer), t)
    ensures t == s.(l := s.l.(serverPass := s.l.serverPass[n := s.w.servers[n]]))
  {
    t := s.(l := s.l.(serverPass := s.l.serverPass[n := s.w.servers[n]]));
  }

  lemma EndServerStep(cfg: Config, s: State, n: Name) returns (t: State)
    requires n in s.l.serverPass
    ensures Step(cfg, s, ServerCtl(n, EndServer), t) && t == s.(l := s.l.(serverPass := s.l.serverPass - {n}))
  {
    t := s.(l := s.l.(serverPass := s.l.serverPass - {n}));
  }

  lemma ServeStep(cfg: Config, s: State, n: Name, k: Name, svc: Service) returns (t: State)
    requires n in s.l.serverPass && (k == n || k == n + "-headless")
    requires svc.selector == GameServerLabels(n, s.l.serverPass[n].spec.gameType)
    ensures Step(cfg, s, ServerCtl(n, Serve(k, svc)), t) && t == s.(w := PutService(s.w, k, svc))
  {
    t := s.(w := PutService(s.w, k, svc));
  }

  lemma MakeSetStep(cfg: Config, s: State, n: Name) returns (t: State)
    requires n in s.l.serverPass && s.l.serverPass[n].spec.gameType in cfg.registered && n !in s.w.sets
    ensures Step(cfg, s, ServerCtl(n, MakeSet), t)
    ensures t == s.(w := PutSet(s.w, n, StatefulSetFor(n, s.l.serverPass[n])))
  {
    hide GameServerLabels, ContainerPorts;
    t := s.(w := PutSet(s.w, n, StatefulSetFor(n, s.l.serverPass[n])));
  }

  lemma ReportStep(cfg: Config, s: State, n: Name, probe: Probe) returns (t: State)
    requires Fresh(s, n) && s.w.servers[n].spec.gameType in cfg.registered && !s.w.servers[n].deleting
    ensures Step(cfg, s, ServerCtl(n, Report(probe, true, s.w.now)), t)
    ensures t.w == s.w.(revision := t.w.revision, servers := s.w.servers[n := t.w.servers[n]]) && t.l == s.l
    ensures n in t.w.servers
    ensures var gs := s.w.servers[n];
            t.w.servers[n] == gs.(version := t.w.servers[n].version,
                                  status := ProbeEdit(gs.status, gs.generation, probe, true, s.w.now))
  {
    hide ProbeEdit;
    var gs := s.w.servers[n];
    var after := ProbeEdit(gs.status, gs.generation, probe, true, s.w.now);
    t := s.(w := UpdateServerStatus(s.w, n, gs.(status := after)).world);
  }

  // ---- undisturbed GameServer passes ----

  /** The first pass over a GameServer puts its finalizer on. */
  lemma GuardTurn(cfg: Config, s: State, n: Name) returns (path: seq<State>, acts: seq<Action>)
    requires n in s.w.servers && !s.w.servers[n].deleting && s.w.servers[n].finalizers == []
    requires s.w.servers[n].spec == DefaultSpec(SPEC) && n !in s.l.serverPass
    ensures Runs(cfg, path, acts) && path[0] == s && |acts| == 3 && ServerPassAt(cfg, path, acts, n, 0)
    ensures var t := path[3];
            && n in t.w.servers
            && t.w.servers[n] == s.w.servers[n].(version := t.w.servers[n].version, finalizers := [SERVER_FINALIZER])
            && t.w == s.w.(revision := t.w.revision, servers := s.w.servers[n := t.w.servers[n]]) && t.l == s.l
  {
    hide DefaultSpec, ValidSpec;
    SpecIsStored();
    var a := BeginServerStep(cfg, s, n);
    var b := a.(w := UpdateServer(a.w, n, a.w.servers[n].(finalizers := [] + [SERVER_FINALIZER])).world);
    var c := EndServerStep(cfg, b, n);
    assert Step(cfg, a, ServerCtl(n, AddServerFinalizer), b);
    path := [s, a, b, c];
    acts := [ServerCtl(n, BeginServer), ServerCtl(n, AddServerFinalizer), ServerCtl(n, EndServer)];
    assert c.l.serverPass == s.l.serverPass;
    assert ServerPlan(cfg, s.w, n) == [BeginServer, AddServerFinalizer, EndServer];
    assert acts == ServerActs(n, [BeginServer, AddServerFinalizer, EndServer]);
    WholePass(acts);
  }

  /** A guarded GameServer of the game type, alive, with no pass in flight. */
  ghost predicate Guarded(cfg: Config, s: State, n: Name) {
    && n in s.w.servers && !s.w.servers[n].deleting && SERVER_FINALIZER in s.w.servers[n].finalizers
    && s.w.servers[n].spec == DefaultSpec(SPEC) && GAME in cfg.registered && n !in s.l.serverPass
  }

  /** Its children are there, as built, with one pod. */
  ghost predicate Served(w: World, n: Name) {
    && n in w.servers && n in w.sets && n in w.services && n + "-headless" in w.services
    && w.services[n] == ExternalService(n, w.servers[n])
    && w.services[n + "-headless"] == HeadlessService(n, w.servers[n])
    && (var sts := w.sets[n];
        sts == StatefulSetFor(n, w.servers[n]).(version := sts.version, statusReplicas := sts.statusReplicas,
                                                readyReplicas := sts.readyReplicas))
  }

  lemma ServePlanIs(cfg: Config, s: State, n: Name)
    requires Guarded(cfg, s, n) && n !in s.w.sets && n !in s.w.services && n + "-headless" !in s.w.services
    ensures var gs := s.w.servers[n];
            ServerPlan(cfg, s.w, n)
            == [BeginServer, Serve(n + "-headless", HeadlessService(n, gs)), MakeSet, Serve(n, ExternalService(n, gs)),
                Report(NOT_READY, true, s.w.now), EndServer]
  {
    hide DefaultSpec, ValidSpec, GameServerLabels, ServicePorts;
    SpecIsStored();
  }

  lemma ServicesFollowSpec(n: Name, a: GameServer, b: GameServer)
    requires a.spec == b.spec
    ensures ExternalService(n, a) == ExternalService(n, b) && HeadlessService(n, a) == HeadlessService(n, b)
    ensures ExternalService(n, a).selector == HeadlessService(n, a).selector == GameServerLabels(n, a.spec.gameType)
  {
    hide GameServerLabels, ServicePorts;
  }

  /** The pass that makes all children of a GameServer. */
  lemma ServeTurn(cfg: Config, s: State, n: Name) returns (path: seq<State>, acts: seq<Action>)
    requires Guarded(cfg, s, n) && n !in s.w.sets && n !in s.w.services && n + "-headless" !in s.w.services
    ensures Runs(cfg, path, acts) && path[0] == s && |acts| == 6 && ServerPassAt(cfg, path, acts, n, 0)
    ensures var t := path[6];
            && Guarded(cfg, t, n) && Served(t.w, n) && t.w.sets[n].replicas == Some(1)
            && t.w.sets[n].statusReplicas == t.w.sets[n].readyReplicas == 0
            && t.w == s.w.(revision := t.w.revision, servers := s.w.servers[n := t.w.servers[n]],
                           sets := s.w.sets[n := t.w.sets[n]],
                           services := s.w.services[n + "-headless" := t.w.services[n + "-headless"]]
                                                   [n := t.w.services[n]])
            && (var gs := s.w.servers[n];
                t.w.servers[n] == gs.(version := t.w.servers[n].version,
                                      status := ProbeEdit(gs.status, gs.generation, NOT_READY, true, s.w.now)))
            && t.l == s.l
  {
    hide Step, DefaultSpec, ProbeEdit, GameServerLabels, ContainerPorts, ServerPlan, ExternalService, HeadlessService;
    SpecIsStored();
    var gs, k := s.w.servers[n], n + "-headless";
    ServicesFollowSpec(n, gs, gs);
    var a := BeginServerStep(cfg, s, n);
    var b := ServeStep(cfg, a, n, k, HeadlessService(n, gs));
    var c := MakeSetStep(cfg, b, n);
    var d := ServeStep(cfg, c, n, n, ExternalService(n, gs));
    var e := ReportStep(cfg, d, n, NOT_READY);
    ServicesFollowSpec(n, gs, e.w.servers[n]);
    var f := EndServerStep(cfg, e, n);
    ServePlanIs(cfg, s, n);
    path := [s, a, b, c, d, e, f];
    acts := [ServerCtl(n, BeginServer), ServerCtl(n, Serve(k, HeadlessService(n, gs))), ServerCtl(n, MakeSet),
             ServerCtl(n, Serve(n, ExternalService(n, gs))), ServerCtl(n, Report(NOT_READY, true, s.w.now)),
             ServerCtl(n, EndServer)];
    assert f.l.serverPass == s.l.serverPass;
    assert acts == ServerActs(n, [BeginServer, Serve(k, HeadlessService(n, gs)), MakeSet,
                                  Serve(n, ExternalService(n, gs)), Report(NOT_READY, true, s.w.now), EndServer]);
    WholePass(acts);
  }

  /** The pod becomes ready. */
  lemma PodStep(cfg: Config, s: State, n: Name) returns (t: State)
    requires Guarded(cfg, s, n) && Served(s.w, n) && s.w.sets[n].replicas == Some(1)
    requires s.w.sets[n].statusReplicas == s.w.sets[n].readyReplicas == 0
    ensures Step(cfg, s, Env(MoveSet(n, 1, 1)), t) && Guarded(cfg, t, n) && Served(t.w, n)
    ensures t.w.sets[n].readyReplicas == 1
    ensures t.w == s.w.(revision := t.w.revision, sets := s.w.sets[n := t.w.sets[n]]) && t.l == s.l
  {
    hide DefaultSpec, GameServerLabels, ServicePorts, ContainerPorts;
    t := s.(w := PutSet(s.w, n, s.w.sets[n].(statusReplicas := 1, readyReplicas := 1)));
  }

  lemma ReportPlanIs(cfg: Config, s: State, n: Name)
    requires Guarded(cfg, s, n) && Served(s.w, n) && s.w.sets[n].readyReplicas == 1
    ensures ServerPlan(cfg, s.w, n) == [BeginServer, Report(AVAILABLE, true, s.w.now), EndServer]
  {
    hide DefaultSpec, GameServerLabels, ServicePorts, ContainerPorts;
    SpecIsStored();
    assert s.w.sets[n].replicas == Some(1);
    assert Builders.SyncSet(s.w.sets[n], StatefulSetFor(n, s.w.servers[n])) == s.w.sets[n];
  }

  /** The pass that finds the pod ready. */
  lemma ReadyTurn(cfg: Config, s: State, n: Name) returns (path: seq<State>, acts: seq<Action>)
    requires Guarded(cfg, s, n) && Served(s.w, n) && s.w.sets[n].readyReplicas == 1
    ensures Runs(cfg, path, acts) && path[0] == s && |acts| == 3 && ServerPassAt(cfg, path, acts, n, 0)
    ensures var t, gs := path[3], s.w.servers[n];
            && n in t.w.servers
            && t.w.servers[n] == gs.(version := t.w.servers[n].version,
                                     status := ProbeEdit(gs.status, gs.generation, AVAILABLE, true, s.w.now))
            && t.w == s.w.(revision := t.w.revision, servers := s.w.servers[n := t.w.servers[n]]) && t.l == s.l
  {
    hide Step, DefaultSpec, ProbeEdit, GameServerLabels, ServicePorts, ContainerPorts, ServerPlan, Served;
    SpecIsStored();
    var a := BeginServerStep(cfg, s, n);
    var b := ReportStep(cfg, a, n, AVAILABLE);
    var c := EndServerStep(cfg, b, n);
    ReportPlanIs(cfg, s, n);
    path := [s, a, b, c];
    acts := [ServerCtl(n, BeginServer), ServerCtl(n, Report(AVAILABLE, true, s.w.now)), ServerCtl(n, EndServer)];
    assert c.l.serverPass == s.l.serverPass;
    assert acts == ServerActs(n, [BeginServer, Report(AVAILABLE, true, s.w.now), EndServer]);
    WholePass(acts);
  }

  lemma ProbesMean(st: ServerStatus, generation: int, now: nat)
    requires st.phase != Failed
    ensures ProbeEdit(st, generation, NOT_READY, true, now).phase != Failed
    ensures ProbeEdit(st, generation, AVAILABLE, true, now).phase == Running
    ensures ProbeEdit(st, generation, AVAILABLE, true, now).ready
  {
  }

  /** A Service as it was written needs no second write. */
  lemma Settled(v: World, w: World, f: Name)
    requires f in w.services && OwnedName(f) in w.servers
    requires var svc := FleetServiceSync(v, f, OwnedName(f), w.servers[OwnedName(f)]); w.services[f] == svc
    ensures HasService(w, f, FleetServiceSync(w, f, OwnedName(f), w.servers[OwnedName(f)]))
  {
    hide GameServerLabels, ServicePorts, FleetLabels;
  }

  lemma SyncFollowsSpec(v: World, w: World, f: Name)
    requires OwnedName(f) in v.servers && OwnedName(f) in w.servers
    requires v.servers[OwnedName(f)].spec == w.servers[OwnedName(f)].spec
    requires f in v.services && f in w.services && v.services[f] == w.services[f]
    requires HasService(v, f, FleetServiceSync(v, f, OwnedName(f), v.servers[OwnedName(f)]))
    ensures HasService(w, f, FleetServiceSync(w, f, OwnedName(f), w.servers[OwnedName(f)]))
  {
    hide GameServerLabels, ServicePorts, FleetLabels;
  }
}

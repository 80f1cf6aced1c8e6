/** Runs from the empty store that show what the code does not give, even in quiet times: two owners of one Service
    name, a fleet that is available and degraded at once, a GameServer gone before its pods, template edits that never
    arrive. Every pass in them is an undisturbed one. */
module Witnesses {
  import opened Types
  import opened Conditions
  import opened Live
  import opened Webhook
  import opened TemplateHash
  import opened Builders
  import opened Store
  import opened Actions
  import opened Invariants
  import opened Preservation
  import opened Plans
  import opened Deletion
  import opened FleetHealth
  import opened Drift
  import opened Templates
  import opened Turns

  // ---- one Service name, two owners ----

  lemma NamesApart(f: Name)
    ensures f != OwnedName(f) && OwnedName(f) != OwnedName(OwnedName(f)) && f != OwnedName(OwnedName(f))
    ensures f != OwnedName(f) + "-headless" && OwnedName(f) != OwnedName(f) + "-headless"
  {
    assert |OwnedName(f)| == |f| + 3 && |OwnedName(OwnedName(f))| == |f| + 6;
    assert |OwnedName(f) + "-headless"| == |f| + 12;
  }

  /** Two users' fleets, `f` and `f-gs`. */
  lemma TwoFleets(cfg: Config, f: Name) returns (path: seq<State>, acts: seq<Action>)
    ensures Runs(cfg, path, acts) && path[0] == START && |path| == 3 && |acts| == 2 && acts[0].Env? && acts[1].Env?
    ensures var s, n := path[2], OwnedName(f);
            && Idle(s, f) && Idle(s, n) && s.w.fleets[f].template == s.w.fleets[n].template == TEMPLATE
            && s.w.servers == map[] && s.w.services == map[] && s.w.sets == map[]
            && s.l.serverPass == map[]
  {
    hide Step;
    NamesApart(f);
    var s := NewFleetStep(cfg, START, f);
    var t := NewFleetStep(cfg, s, OwnedName(f));
    path := [START, s, t];
    acts := [Env(UserCreateFleet(f, TEMPLATE, [FLEET_FINALIZER])),
             Env(UserCreateFleet(OwnedName(f), TEMPLATE, [FLEET_FINALIZER]))];
  }

  lemma ServedSelects(w: World, n: Name)
    requires Served(w, n)
    ensures w.services[n].selector == GameServerLabels(n, w.servers[n].spec.gameType)
  {
    hide GameServerLabels, ServicePorts;
  }

  /** The same until GameServer `f-gs` of the first fleet has all its children; the second fleet's controller has not
      looked yet. */
  lemma ServedServer(cfg: Config, f: Name) returns (path: seq<State>, acts: seq<Action>)
    requires GAME in cfg.registered
    ensures Runs(cfg, path, acts) && path[0] == START && |path| == 17 && |acts| == 16
    ensures acts[0].Env? && acts[1].Env?
    ensures var s, n := path[16], OwnedName(f);
            && FleetPassAt(cfg, path, acts, f, 2) && ServerPassAt(cfg, path, acts, n, 7)
            && ServerPassAt(cfg, path, acts, n, 10)
            && OwnedBy(s.w, f, n) && s.w.servers[n].spec.gameType == GAME && n in s.w.services
            && s.w.services[n].selector == GameServerLabels(n, GAME)
            && Selects(s.w.services[n].selector, GameServerLabels(n, GAME))
            && Idle(s, n) && s.w.fleets[n].template == TEMPLATE
            && OwnedName(n) !in s.w.servers && OwnedName(n) !in s.l.serverPass
  {
    hide Step, GameServerLabels, Selects, Runs, FleetPassAt, ServerPassAt, DefaultSpec, ProbeEdit, CreatedEdit,
      FleetServiceSync, ExternalService, HeadlessService, StatefulSetFor, ComputeTemplateHash;
    var n := OwnedName(f);
    NamesApart(f);
    SpecIsStored();
    path, acts := TwoFleets(cfg, f);
    var p, a := CreateTurn(cfg, path[2], f);
    path, acts := Chain(cfg, path, acts, p, a);
    p, a := GuardTurn(cfg, path[7], n);
    path, acts := Chain(cfg, path, acts, p, a);
    p, a := ServeTurn(cfg, path[10], n);
    path, acts := Chain(cfg, path, acts, p, a);
    ServedSelects(path[16].w, n);
    SelectorIsExact(n, GAME, n, GAME);
  }

  /** For every fleet name there is a run of undisturbed passes in which fleet `f` owns GameServer `f-gs`, whose
      external Service selects its pods, until the fleet named `f-gs` writes the Service of that name for its own
      GameServer: then the Service of that name does not select the pods of `f-gs`, which is still stored. */
  lemma ServiceClash(cfg: Config, f: Name) returns (path: seq<State>, acts: seq<Action>)
    requires GAME in cfg.registered
    ensures Runs(cfg, path, acts) && path[0] == START && |acts| == 21
    ensures acts[0].Env? && acts[1].Env?
    ensures var n := OwnedName(f);
            && FleetPassAt(cfg, path, acts, f, 2) && ServerPassAt(cfg, path, acts, n, 7)
            && ServerPassAt(cfg, path, acts, n, 10) && FleetPassAt(cfg, path, acts, n, 16)
            && OwnedBy(path[16].w, f, n) && n in path[16].w.services
            && Selects(path[16].w.services[n].selector, GameServerLabels(n, GAME))
            && OwnedBy(path[21].w, f, n) && n in path[21].w.services
            && path[21].w.servers[n] == path[16].w.servers[n] && path[16].w.servers[n].spec.gameType == GAME
            && !Selects(path[21].w.services[n].selector, GameServerLabels(n, GAME))
  {
    hide Step, GameServerLabels, Selects, Runs, FleetPassAt, ServerPassAt, DefaultSpec, ProbeEdit, CreatedEdit,
      FleetServiceSync, ExternalService, HeadlessService, StatefulSetFor, ComputeTemplateHash;
    var n := OwnedName(f);
    NamesApart(f);
    path, acts := ServedServer(cfg, f);
    SelectorIsExact(n, GAME, OwnedName(n), GAME);
    SelectorIsExact(OwnedName(n), GAME, n, GAME);
    var p, a := CreateTurn(cfg, path[16], n);
    path, acts := Chain(cfg, path, acts, p, a);
  }

  // ---- available and degraded at once ----

  /** A fleet whose GameServer has been made, but was not ready when it was looked at. */
  lemma SyncedOnce(cfg: Config, f: Name) returns (path: seq<State>, acts: seq<Action>)
    ensures Runs(cfg, path, acts) && path[0] == START && |path| == 10 && |acts| == 9 && acts[0].Env?
    ensures FleetPassAt(cfg, path, acts, f, 1) && FleetPassAt(cfg, path, acts, f, 6)
    ensures var s, n := path[9], OwnedName(f);
            && Idle(s, f) && Made(cfg, s, f) && s.w.fleets[f].template == TEMPLATE
            && s.w.servers[n].status == NEW_STATUS && s.w.servers[n].finalizers == []
            && s.w.sets == map[] && n !in s.w.services && n + "-headless" !in s.w.services
            && HasService(s.w, f, FleetServiceSync(s.w, f, n, s.w.servers[n]))
            && s.w.fleets[f].status.phase == FleetPhase.Degraded && Shows(s.w.fleets[f].status, "Degraded", True)
  {
    hide Step, Runs, SyncEdit, Shows, FleetPassAt, GameServerLabels, DefaultSpec, FleetServiceSync,
      ComputeTemplateHash;
    var n := OwnedName(f);
    NamesApart(f);
    var s := NewFleetStep(cfg, START, f);
    OneStep(cfg, START, Env(UserCreateFleet(f, TEMPLATE, [FLEET_FINALIZER])), s);
    path, acts := [START, s], [Env(UserCreateFleet(f, TEMPLATE, [FLEET_FINALIZER]))];
    var p, a := CreateTurn(cfg, s, f);
    path, acts := Chain(cfg, path, acts, p, a);
    Settled(s.w, path[6].w, f);
    p, a := SyncTurn(cfg, path[6], f);
    SyncMeans(path[6].w.fleets[f].status, path[6].w.fleets[f].generation, NEW_STATUS, path[6].w.now);
    path, acts := Chain(cfg, path, acts, p, a);
    Settled(path[6].w, path[9].w, f);
  }

  /** For every fleet name there is a run of undisturbed passes after which the fleet is Available, its GameServer is
      ready, and its Degraded condition is True. */
  lemma AvailableAndDegraded(cfg: Config, f: Name) returns (path: seq<State>, acts: seq<Action>)
    requires GAME in cfg.registered
    ensures Runs(cfg, path, acts) && path[0] == START && |acts| == 25
    ensures acts[0].Env? && acts[18] == Env(MoveSet(OwnedName(f), 1, 1))
    ensures var n := OwnedName(f);
            && FleetPassAt(cfg, path, acts, f, 1) && FleetPassAt(cfg, path, acts, f, 6)
            && ServerPassAt(cfg, path, acts, n, 9) && ServerPassAt(cfg, path, acts, n, 12)
            && ServerPassAt(cfg, path, acts, n, 19) && FleetPassAt(cfg, path, acts, f, 22)
    ensures var s, n := path[25], OwnedName(f);
            && OwnedBy(s.w, f, n) && s.w.servers[n].status.ready
            && f in s.w.fleets && s.w.fleets[f].status.phase == Available
            && Shows(s.w.fleets[f].status, "Available", True) && Shows(s.w.fleets[f].status, "Degraded", True)
            && Idle(s, f) && Guarded(cfg, s, n) && n in s.w.sets && s.w.sets[n].readyReplicas == 1
  {
    hide Step, Runs, SyncEdit, ProbeEdit, Shows, FleetPassAt, ServerPassAt, GameServerLabels, DefaultSpec,
      FleetServiceSync, ComputeTemplateHash, Served, Put, Find;
    var n := OwnedName(f);
    NamesApart(f);
    path, acts := SyncedOnce(cfg, f);
    var p, a := GuardTurn(cfg, path[9], n);
    path, acts := Chain(cfg, path, acts, p, a);
    p, a := ServeTurn(cfg, path[12], n);
    path, acts := Chain(cfg, path, acts, p, a);
    ProbesMean(NEW_STATUS, path[12].w.servers[n].generation, path[12].w.now);
    var t := PodStep(cfg, path[18], n);
    OneStep(cfg, path[18], Env(MoveSet(n, 1, 1)), t);
    path, acts := Chain(cfg, path, acts, [path[18], t], [Env(MoveSet(n, 1, 1))]);
    ProbesMean(t.w.servers[n].status, t.w.servers[n].generation, t.w.now);
    p, a := ReadyTurn(cfg, path[19], n);
    path, acts := Chain(cfg, path, acts, p, a);
    SyncFollowsSpec(path[9].w, path[22].w, f);
    p, a := SyncTurn(cfg, path[22], f);
    var u := path[22].w;
    SyncMeans(u.fleets[f].status, u.fleets[f].generation, u.servers[n].status, u.now);
    path, acts := Chain(cfg, path, acts, p, a);
  }

  // ---- one Service name, two owners, one of them deleted ----

  /** For every fleet name there is a run of undisturbed passes in which GameServer `f-gs` has its external Service
      until the fleet named `f-gs`, which owns nothing, is deleted: the Service goes with that fleet. */
  lemma ServiceDropped(cfg: Config, f: Name) returns (path: seq<State>, acts: seq<Action>)
    requires GAME in cfg.registered
    ensures Runs(cfg, path, acts) && path[0] == START && |acts| == 19
    ensures acts[0].Env? && acts[1].Env? && acts[16] == Env(UserDeleteFleet(OwnedName(f)))
    ensures var n := OwnedName(f);
            && FleetPassAt(cfg, path, acts, f, 2) && ServerPassAt(cfg, path, acts, n, 7)
            && ServerPassAt(cfg, path, acts, n, 10) && FleetPassAt(cfg, path, acts, n, 17)
            && OwnedBy(path[16].w, f, n) && n in path[16].w.services
            && Selects(path[16].w.services[n].selector, GameServerLabels(n, GAME))
            && path[19].w.servers == path[16].w.servers && n !in path[19].w.services
  {
    hide Step, GameServerLabels, Selects, Runs, FleetPassAt, ServerPassAt, DefaultSpec, ProbeEdit, CreatedEdit,
      FleetServiceSync, ExternalService, HeadlessService, StatefulSetFor, ComputeTemplateHash, RankOf, Below;
    var n := OwnedName(f);
    path, acts := ServedServer(cfg, f);
    var t := DeleteFleetStep(cfg, path[16], n);
    OneStep(cfg, path[16], Env(UserDeleteFleet(n)), t);
    path, acts := Chain(cfg, path, acts, [path[16], t], [Env(UserDeleteFleet(n))]);
    InvariantAt(cfg, path, acts, 17);
    var p := FleetTurnAlone(cfg, t, n);
    LengthOfRun(cfg, p, FleetActs(n, FinalizePlan(t.w, n)));
    FinalizePass(cfg, p, t, n);
    path, acts := Chain(cfg, path, acts, p, FleetActs(n, FinalizePlan(t.w, n)));
  }

  lemma LengthOfRun(cfg: Config, path: seq<State>, acts: seq<Action>)
    requires Runs(cfg, path, acts)
    ensures |path| == |acts| + 1
  {
    hide Step;
  }

  lemma InvariantAt(cfg: Config, path: seq<State>, acts: seq<Action>, j: nat)
    requires Runs(cfg, path, acts) && path[0] == START && j < |path|
    ensures Inv(cfg, path[j])
  {
    hide Inv, Step;
    Initially(cfg);
    RunKeeps(cfg, path, acts, j);
  }

  lemma FinalizePass(cfg: Config, p: seq<State>, s: State, f: Name)
    requires p != [] && p[0] == s && f in s.w.fleets && s.w.fleets[f].deleting
    ensures FleetPassAt(cfg, p, FleetActs(f, FinalizePlan(s.w, f)), f, 0)
  {
    WholePass(FleetActs(f, FinalizePlan(s.w, f)));
  }

  // ---- a GameServer gone with its pods ready ----

  /** For every fleet name there is a run of undisturbed passes in which the fleet is deleted while its GameServer has a
      ready pod: the next pass takes the GameServer away, and the pod is still there and ready. */
  lemma GoneWithReadyPod(cfg: Config, f: Name) returns (path: seq<State>, acts: seq<Action>)
    requires GAME in cfg.registered
    ensures Runs(cfg, path, acts) && path[0] == START && |acts| == 28
    ensures acts[25] == Env(UserDeleteFleet(f)) && FleetPassAt(cfg, path, acts, f, 26)
    ensures var n := OwnedName(f);
            && OwnedBy(path[26].w, f, n) && n !in path[28].w.servers
            && n in path[28].w.sets && path[28].w.sets == path[26].w.sets && path[28].w.sets[n].readyReplicas == 1
  {
    hide Step, Runs, FleetPassAt, ServerPassAt, Shows, DefaultSpec, RankOf, Below;
    path, acts := AvailableAndDegraded(cfg, f);
    LengthOfRun(cfg, path, acts);
    var t := DeleteFleetStep(cfg, path[25], f);
    OneStep(cfg, path[25], Env(UserDeleteFleet(f)), t);
    path, acts := Chain(cfg, path, acts, [path[25], t], [Env(UserDeleteFleet(f))]);
    InvariantAt(cfg, path, acts, 26);
    var p := FleetTurnWithServer(cfg, t, f);
    LengthOfRun(cfg, p, FleetActs(f, FinalizePlan(t.w, f)));
    FinalizePass(cfg, p, t, f);
    path, acts := Chain(cfg, path, acts, p, FleetActs(f, FinalizePlan(t.w, f)));
  }

  // ---- template edits that never arrive ----

  /** A fleet, and the pass that makes its GameServer. */
  lemma CreatedOnce(cfg: Config, f: Name) returns (path: seq<State>, acts: seq<Action>)
    ensures Runs(cfg, path, acts) && path[0] == START && |path| == 7 && |acts| == 6 && acts[0].Env?
    ensures FleetPassAt(cfg, path, acts, f, 1)
    ensures var s, n := path[6], OwnedName(f);
            && Idle(s, f) && Made(cfg, s, f) && s.w.fleets[f].template == TEMPLATE
            && s.w.servers[n].status == NEW_STATUS && s.w.servers[n].labels == TEMPLATE.labels[FLEET_LABEL := f]
            && HasService(s.w, f, FleetServiceSync(s.w, f, n, s.w.servers[n]))
  {
    hide Step, Runs, FleetPassAt, GameServerLabels, DefaultSpec, FleetServiceSync, ComputeTemplateHash;
    NamesApart(f);
    var s := NewFleetStep(cfg, START, f);
    OneStep(cfg, START, Env(UserCreateFleet(f, TEMPLATE, [FLEET_FINALIZER])), s);
    path, acts := [START, s], [Env(UserCreateFleet(f, TEMPLATE, [FLEET_FINALIZER]))];
    var p, a := CreateTurn(cfg, s, f);
    path, acts := Chain(cfg, path, acts, p, a);
    Settled(s.w, path[6].w, f);
  }

  /** Whatever a user makes of the template without changing its hash, other labels and annotations, or another spec of
      the same hash: after an undisturbed pass the GameServer still has the content it was made with, under the latest
      stamp, so that no later pass will change it either. */
  lemma EditUnseen(cfg: Config, f: Name, template: Template) returns (path: seq<State>, acts: seq<Action>)
    requires ComputeTemplateHash(cfg, template) == ComputeTemplateHash(cfg, TEMPLATE)
    ensures Runs(cfg, path, acts) && path[0] == START && |path| == 11 && |acts| == 10 && acts[0].Env?
    ensures FleetPassAt(cfg, path, acts, f, 1) && acts[6] == Env(UserEditFleet(f, template))
    ensures FleetPassAt(cfg, path, acts, f, 7)
    ensures var s, n := path[10], OwnedName(f);
            && OwnedBy(s.w, f, n) && f in s.w.fleets && s.w.fleets[f].template == template
            && s.w.servers[n].spec == DefaultSpec(SPEC) && s.w.servers[n].labels == TEMPLATE.labels[FLEET_LABEL := f]
            && f in s.l.logs && Latest(s.l.logs[f])
  {
    hide Step, Runs, FleetPassAt, GameServerLabels, DefaultSpec, FleetServiceSync, ComputeTemplateHash, SyncEdit;
    path, acts := CreatedOnce(cfg, f);
    InvariantAt(cfg, path, acts, 6);
    StampInLog(cfg, path[6], f);
    var t := EditStep(cfg, path[6], f, template);
    OneStep(cfg, path[6], Env(UserEditFleet(f, template)), t);
    path, acts := Chain(cfg, path, acts, [path[6], t], [Env(UserEditFleet(f, template))]);
    SyncFollowsSpec(path[6].w, path[7].w, f);
    var p, a := SyncTurn(cfg, path[7], f);
    path, acts := Chain(cfg, path, acts, p, a);
  }

  /** A template edit that the GameServer could take, made while its hash annotation is missing: an undisturbed pass
      puts the new template's hash on the old spec, and with it the latest stamp, so that no later pass will write it.
      */
  lemma EditLost(cfg: Config, f: Name, template: Template) returns (path: seq<State>, acts: seq<Action>)
    requires ValidSpec(template.spec) && template.spec.gameType == GAME
    requires DefaultSpec(template.spec) != DefaultSpec(SPEC)
    ensures Runs(cfg, path, acts) && path[0] == START && |path| == 13 && |acts| == 12 && acts[0].Env?
    ensures FleetPassAt(cfg, path, acts, f, 1) && acts[6] == Env(UserUnstamp(OwnedName(f)))
    ensures acts[7] == Env(UserEditFleet(f, template)) && FleetPassAt(cfg, path, acts, f, 8)
    ensures OwnedBy(path[8].w, f, OwnedName(f)) && Accepts(path[8].w.servers[OwnedName(f)], template)
    ensures var s, n := path[12], OwnedName(f);
            && OwnedBy(s.w, f, n) && f in s.w.fleets && s.w.fleets[f].template == template
            && s.w.servers[n].spec == DefaultSpec(SPEC) != DefaultSpec(template.spec)
            && HashOf(s.w.servers[n].annotations) == ComputeTemplateHash(cfg, template)
            && f in s.l.logs && Latest(s.l.logs[f])
  {
    hide Step, Runs, FleetPassAt, GameServerLabels, DefaultSpec, FleetServiceSync, ComputeTemplateHash, HashOf;
    var n := OwnedName(f);
    SpecIsStored();
    path, acts := CreatedOnce(cfg, f);
    var s := UnstampStep(cfg, path[6], f);
    OneStep(cfg, path[6], Env(UserUnstamp(n)), s);
    path, acts := Chain(cfg, path, acts, [path[6], s], [Env(UserUnstamp(n))]);
    var t := EditStep(cfg, path[7], f, template);
    OneStep(cfg, path[7], Env(UserEditFleet(f, template)), t);
    path, acts := Chain(cfg, path, acts, [path[7], t], [Env(UserEditFleet(f, template))]);
    SyncFollowsSpec(path[6].w, path[8].w, f);
    var p, a := PatchTurn(cfg, path[8], f);
    path, acts := Chain(cfg, path, acts, p, a);
  }
}

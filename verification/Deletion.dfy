/** Deleting a fleet: a rank that no step of anybody raises and that the controller whose turn it is lowers. */
module Deletion {
  import opened Types
  import opened Live
  import opened Webhook
  import opened TemplateHash
  import opened Builders
  import opened Store
  import opened Actions
  import opened Invariants
  import opened Preservation
  import opened Evolution
  import opened Identity
  import opened Servers
  import opened Plans

  /** How far a marked fleet is from being let go: it is held; a steady pass of its controller is still in
      flight; it owns a GameServer; that one is unmarked; a steady pass of the GameServer controller is still
      in flight; its StatefulSet wants a pod; pods are ready. */
  datatype Rank = Rank(held: nat, steady: nat, owns: nat, unmarked: nat, pass: nat, wanted: nat, ready: nat)

  function Bit(b: bool): nat {
    if b then 1 else 0
  }

  function WantedPods(w: World, n: Name): nat {
    Bit(n in w.sets && w.sets[n].replicas != Some(0))
  }

  function ReadyPods(w: World, n: Name): nat {
    if n in w.sets && w.sets[n].readyReplicas > 0 then w.sets[n].readyReplicas else 0
  }

  const DONE := Rank(0, 0, 0, 0, 0, 0, 0)

  function RankOf(s: State, f: Name): Rank {
    var n := OwnedName(f);
    if !Held(s.w, f) then DONE
    else if f in s.l.fleetPass then Rank(1, 1, 0, 0, 0, 0, 0)
    else if !OwnedBy(s.w, f, n) then Rank(1, 0, 0, 0, 0, 0, 0)
    else if !s.w.servers[n].deleting then Rank(1, 0, 1, 1, 0, 0, 0)
    else if n in s.l.serverPass then Rank(1, 0, 1, 0, 1, 0, 0)
    else if WantedPods(s.w, n) == 1 then Rank(1, 0, 1, 0, 0, 1, 0)
    else Rank(1, 0, 1, 0, 0, 0, ReadyPods(s.w, n))
  }

  predicate Below(a: Rank, b: Rank) {
    || a.held < b.held
    || (a.held == b.held && (
          || a.steady < b.steady
          || (a.steady == b.steady && (
                || a.owns < b.owns
                || (a.owns == b.owns && (
                      || a.unmarked < b.unmarked
                      || (a.unmarked == b.unmarked && (
                            || a.pass < b.pass
                            || (a.pass == b.pass && (
                                  || a.wanted < b.wanted
                                  || (a.wanted == b.wanted && a.ready < b.ready)))))))))))
  }

  // ---- no step raises the rank ----

  /** A marked fleet that is held. */
  ghost predicate Deleting(s: State, f: Name) {
    Held(s.w, f) && s.w.fleets[f].deleting
  }

  /** A fleet's GameServer only appears through a steady pass of the fleet's controller. */
  lemma NoneAppears(cfg: Config, s: State, a: Action, t: State, f: Name)
    requires Inv(cfg, s) && Step(cfg, s, a, t) && f !in s.l.fleetPass
    requires !OwnedBy(s.w, f, OwnedName(f))
    ensures !OwnedBy(t.w, f, OwnedName(f))
  {
    hide Inv, FleetStep, ServerStep, EnvStep;
    var n := OwnedName(f);
    if OwnedBy(t.w, f, n) {
      StepServerNext(cfg, s, a, t, n);
      if n !in s.w.servers {
        match a
        case FleetCtl(g, act) => FleetAppears(cfg, s, g, act, t, f);
        case ServerCtl(m, act) => ServerAppears(cfg, s, m, act, t, n);
        case Env(act) => EnvAppears(cfg, s, act, t, n);
      }
    }
  }

  lemma FleetAppears(cfg: Config, s: State, g: Name, act: FleetAct, t: State, f: Name)
    requires FleetStep(cfg, s, g, act, t) && f !in s.l.fleetPass
    requires OwnedName(f) !in s.w.servers
    ensures OwnedName(f) !in t.w.servers
  {
    hide ComputeTemplateHash, DefaultSpec, ValidSpec, BuildServer, Redeploy, SyncEdit, StartEdit, CompleteEdit,
      CreatedEdit, ResetEdit, Without, LastTime, CloseLast, NoneOwned;
    if OwnedName(g) == OwnedName(f) {
      OwnedNameInjective(g, f);
    } else {
      UntouchedByFleet(cfg, s, g, act, t);
    }
  }

  lemma ServerAppears(cfg: Config, s: State, m: Name, act: ServerAct, t: State, n: Name)
    requires ServerStep(cfg, s, m, act, t) && n !in s.w.servers
    ensures n !in t.w.servers
  {
    hide DefaultSpec, ValidSpec, ProbeEdit, UnregisteredEdit, StatefulSetFor, Without, Builders.SyncSet, Drained;
  }

  lemma EnvAppears(cfg: Config, s: State, act: EnvAct, t: State, n: Name)
    requires EnvStep(cfg, s, act, t) && n !in s.w.servers && n in t.w.servers
    ensures LabelOf(t.w.servers[n].labels) == None
  {
    hide ComputeTemplateHash, DefaultSpec, ValidSpec, Rehash, Toward, NewFleet;
  }

  /** No steady fleet pass begins on a marked fleet, no steady GameServer pass on a marked GameServer. */
  lemma NoPassBegins(cfg: Config, s: State, a: Action, t: State, f: Name, n: Name)
    requires Step(cfg, s, a, t)
    ensures f in s.w.fleets && s.w.fleets[f].deleting && f !in s.l.fleetPass ==> f !in t.l.fleetPass
    ensures n in s.w.servers && s.w.servers[n].deleting && n !in s.l.serverPass ==> n !in t.l.serverPass
  {
    hide FleetStep, ServerStep, EnvStep;
    StepPassNext(cfg, s, a, t);
    assert (a.FleetCtl? && a.f == f) || SamePass(s.l.fleetPass, t.l.fleetPass, f);
    assert (a.ServerCtl? && a.n == n) || SamePass(s.l.serverPass, t.l.serverPass, n);
    if a.FleetCtl? {
      NoFleetBegin(cfg, s, a.f, a.fact, t);
    } else if a.ServerCtl? {
      NoServerBegin(cfg, s, a.n, a.sact, t);
    }
  }

  lemma NoFleetBegin(cfg: Config, s: State, f: Name, act: FleetAct, t: State)
    requires FleetStep(cfg, s, f, act, t)
    ensures f in s.w.fleets && s.w.fleets[f].deleting && f !in s.l.fleetPass ==> f !in t.l.fleetPass
  {
    hide ComputeTemplateHash, UpdateFleet, UpdateFleetStatus, CreateServer, UpdateServer, PatchServerHash,
      DeleteServer, DeleteService, PutService, SyncEdit, StartEdit, CompleteEdit, CreatedEdit, ResetEdit, Without,
      LastTime, CloseLast;
  }

  lemma NoServerBegin(cfg: Config, s: State, n: Name, act: ServerAct, t: State)
    requires ServerStep(cfg, s, n, act, t)
    ensures n in s.w.servers && s.w.servers[n].deleting && n !in s.l.serverPass ==> n !in t.l.serverPass
    ensures n in s.w.servers && s.w.servers[n].deleting && n !in s.l.serverPass ==> act != Resync && act != MakeSet
  {
    hide UpdateServer, UpdateServerStatus, CreateSet, UpdateSet, PutService, ProbeEdit, UnregisteredEdit,
      StatefulSetFor, Without, Builders.SyncSet;
  }

  /** Once the GameServer is marked and no steady pass is in flight, pods are only taken away. */
  lemma PodsOnlyGo(cfg: Config, s: State, a: Action, t: State, n: Name)
    requires Inv(cfg, s) && Step(cfg, s, a, t) && Leaving(s, n)
    ensures WantedPods(t.w, n) <= WantedPods(s.w, n)
    ensures WantedPods(s.w, n) == 0 ==> ReadyPods(t.w, n) <= ReadyPods(s.w, n)
  {
    hide Step;
    StepSetNext(cfg, s, a, t, n);
    if a.ServerCtl? && a.n == n {
      StepIsServers(cfg, s, a, t);
      NoServerBegin(cfg, s, n, a.sact, t);
    }
    assert SetOk(s, n);
  }

  /** No step of anybody raises the rank of a marked fleet. */
  lemma RankNeverRises(cfg: Config, s: State, a: Action, t: State, f: Name)
    requires Inv(cfg, s) && Step(cfg, s, a, t) && Deleting(s, f)
    ensures RankOf(t, f) == RankOf(s, f) || Below(RankOf(t, f), RankOf(s, f))
  {
    hide Inv, Step;
    var n := OwnedName(f);
    NoPassBegins(cfg, s, a, t, f, n);
    if Held(t.w, f) && f !in s.l.fleetPass {
      if !OwnedBy(s.w, f, n) {
        NoneAppears(cfg, s, a, t, f);
      } else if OwnedBy(t.w, f, n) {
        StepServerNext(cfg, s, a, t, n);
        if Leaving(s, n) {
          PodsOnlyGo(cfg, s, a, t, n);
        }
      }
    }
  }

  /** Over a run a marked fleet stays marked while it is held, and its rank only goes down. */
  lemma {:induction false} RankOverRuns(cfg: Config, path: seq<State>, acts: seq<Action>, f: Name, j: nat)
    requires Runs(cfg, path, acts) && Inv(cfg, path[0]) && Deleting(path[0], f) && j < |path|
    requires forall i :: 0 <= i < |acts| ==> !Creates(acts[i], f)
    ensures Deleting(path[j], f) || LetGo(path[j], f)
    ensures RankOf(path[j], f) == RankOf(path[0], f) || Below(RankOf(path[j], f), RankOf(path[0], f))
    decreases j
  {
    hide Inv, Step, RankOf;
    if j != 0 {
      RankOverRuns(cfg, path, acts, f, j - 1);
      RunKeeps(cfg, path, acts, j - 1);
      var s, a, t := path[j - 1], acts[j - 1], path[j];
      if Deleting(s, f) {
        RankNeverRises(cfg, s, a, t, f);
        StepFleetNext(cfg, s, a, t, f);
      } else {
        RankDone(s, f);
        LetGoStep(cfg, s, a, t, f);
        RankDone(t, f);
      }
    }
  }

  lemma RankDone(s: State, f: Name)
    requires LetGo(s, f)
    ensures RankOf(s, f) == DONE
  {
  }

  lemma LetGoStep(cfg: Config, s: State, a: Action, t: State, f: Name)
    requires Inv(cfg, s) && Step(cfg, s, a, t) && LetGo(s, f) && !Creates(a, f)
    ensures LetGo(t, f)
  {
    hide Inv, Step;
    StepFleetNext(cfg, s, a, t, f);
    if f !in s.w.fleets {
      OnlyUsersCreate(cfg, s, a, t, f);
    }
  }

  // ---- the controller whose turn it is lowers it ----

  /** The run of a list of at most two actions. */
  lemma OneStep(cfg: Config, s: State, a: Action, t: State)
    requires Step(cfg, s, a, t)
    ensures Runs(cfg, [s, t], [a])
  {
    hide Step;
  }

  lemma TwoSteps(cfg: Config, s: State, a: Action, t: State, b: Action, u: State)
    requires Step(cfg, s, a, t) && Step(cfg, t, b, u)
    ensures Runs(cfg, [s, t, u], [a, b])
  {
    hide Step;
  }

  lemma StripAccepted(cfg: Config, s: State, n: Name, finalizers: seq<string>)
    requires Inv(cfg, s) && n in s.w.servers
    ensures UpdateServer(s.w, n, s.w.servers[n].(finalizers := finalizers)).err == None
  {
    assert ServerOk(cfg, s, n);
  }

  /** Finalizer removal goes through: the stored spec is already in the form admission leaves. */
  lemma StripStep(cfg: Config, s: State, f: Name) returns (t: State)
    requires Inv(cfg, s) && Finalizing(s, f) && OwnedBy(s.w, f, OwnedName(f)) && !s.w.servers[OwnedName(f)].deleting
    ensures FStripGs(s, f, t)
    ensures Finalizing(t, f) && OwnedBy(t.w, f, OwnedName(f)) && t.w.fleets == s.w.fleets && t.w.sets == s.w.sets
    ensures t.w.servers[OwnedName(f)].finalizers == Without(s.w.servers[OwnedName(f)].finalizers, SERVER_FINALIZER)
    ensures !t.w.servers[OwnedName(f)].deleting
  {
    var n := OwnedName(f);
    StripAccepted(cfg, s, n, Without(s.w.servers[n].finalizers, SERVER_FINALIZER));
    t := s.(w := UpdateServer(s.w, n, s.w.servers[n].(finalizers := Without(s.w.servers[n].finalizers,
                                                                            SERVER_FINALIZER))).world);
  }

  lemma DeleteStep(s: State, f: Name) returns (t: State)
    requires Finalizing(s, f) && OwnedBy(s.w, f, OwnedName(f))
    ensures FDeleteGs(s, f, t) && t.w.fleets == s.w.fleets && t.w.sets == s.w.sets && t.l == s.l
    ensures OwnedName(f) in t.w.servers ==> t.w.servers[OwnedName(f)].deleting
    ensures s.w.servers[OwnedName(f)].finalizers == [] && !s.w.servers[OwnedName(f)].deleting ==>
              OwnedName(f) !in t.w.servers
  {
    t := s.(w := DeleteServer(s.w, OwnedName(f)).world);
  }

  /** An undisturbed finalize pass on an unmarked GameServer strips and deletes it: the rank drops, and the GameServer
      is gone at once, pods or not. */
  lemma FleetTurnWithServer(cfg: Config, s: State, f: Name) returns (path: seq<State>)
    requires Inv(cfg, s) && Deleting(s, f) && f !in s.l.fleetPass
    requires OwnedBy(s.w, f, OwnedName(f)) && !s.w.servers[OwnedName(f)].deleting
    ensures Runs(cfg, path, FleetActs(f, FinalizePlan(s.w, f))) && path[0] == s
    ensures Below(RankOf(path[|path| - 1], f), RankOf(s, f))
    ensures OwnedName(f) !in path[|path| - 1].w.servers && path[|path| - 1].w.sets == s.w.sets
  {
    hide Inv, FStripGs, FDeleteGs, Runs, Without, WantedPods, ReadyPods, OnlyOurs;
    OwnedHasOurs(cfg, s, f);
    NothingElse(s.w.servers[OwnedName(f)].finalizers);
    NothingLeft(s.w.servers[OwnedName(f)].finalizers);
    if SERVER_FINALIZER in s.w.servers[OwnedName(f)].finalizers {
      var t := StripStep(cfg, s, f);
      var u := DeleteStep(t, f);
      StripKeepsLedger(s, f, t);
      path := [s, t, u];
      TwoSteps(cfg, s, FleetCtl(f, StripGs), t, FleetCtl(f, DeleteGs), u);
      assert FleetActs(f, FinalizePlan(s.w, f)) == [FleetCtl(f, StripGs), FleetCtl(f, DeleteGs)];
    } else {
      var t := DeleteStep(s, f);
      path := [s, t];
      OneStep(cfg, s, FleetCtl(f, DeleteGs), t);
      assert FleetActs(f, FinalizePlan(s.w, f)) == [FleetCtl(f, DeleteGs)];
    }
  }

  lemma StripKeepsLedger(s: State, f: Name, t: State)
    requires FStripGs(s, f, t)
    ensures t.l == s.l
  {
  }

  lemma ReleaseStep(cfg: Config, s: State, f: Name) returns (t: State)
    requires Inv(cfg, s) && Finalizing(s, f) && !OwnedBy(s.w, f, OwnedName(f))
    ensures FRelease(s, f, t) && LetGo(t, f) && t.w.servers == s.w.servers && t.w.services == s.w.services
    ensures Without(s.w.fleets[f].finalizers, FLEET_FINALIZER) == [] ==> f !in t.w.fleets
  {
    NothingOwned(cfg, s, f);
    t := s.(w := UpdateFleet(s.w, f,
                             s.w.fleets[f].(finalizers := Without(s.w.fleets[f].finalizers, FLEET_FINALIZER))).world);
  }

  lemma NothingOwned(cfg: Config, s: State, f: Name)
    requires Inv(cfg, s) && !OwnedBy(s.w, f, OwnedName(f))
    ensures NoneOwned(s.w, f)
  {
    forall n | n in s.w.servers ensures LabelOf(s.w.servers[n].labels) != Some(f) { assert ServerOk(cfg, s, n); }
  }

  lemma DropStep(cfg: Config, s: State, f: Name) returns (t: State)
    requires Inv(cfg, s) && Finalizing(s, f) && !OwnedBy(s.w, f, OwnedName(f)) && f in s.w.services
    ensures FDropService(s, f, t) && Finalizing(t, f) && !OwnedBy(t.w, f, OwnedName(f))
    ensures t.w.fleets == s.w.fleets && t.w.servers == s.w.servers && t.l == s.l && f !in t.w.services
  {
    NothingOwned(cfg, s, f);
    t := s.(w := DeleteService(s.w, f).world);
  }

  /** An undisturbed finalize pass without a GameServer lets the fleet go. The Service of the fleet's name goes with it,
      whosever it is. */
  lemma FleetTurnAlone(cfg: Config, s: State, f: Name) returns (path: seq<State>)
    requires Inv(cfg, s) && Deleting(s, f) && f !in s.l.fleetPass && !OwnedBy(s.w, f, OwnedName(f))
    ensures Runs(cfg, path, FleetActs(f, FinalizePlan(s.w, f))) && path[0] == s
    ensures LetGo(path[|path| - 1], f) && Below(RankOf(path[|path| - 1], f), RankOf(s, f))
    ensures Without(s.w.fleets[f].finalizers, FLEET_FINALIZER) == [] ==> f !in path[|path| - 1].w.fleets
    ensures path[|path| - 1].w.servers == s.w.servers && f !in path[|path| - 1].w.services
  {
    hide Inv, FRelease, FDropService, Runs;
    if f in s.w.services {
      var t := DropStep(cfg, s, f);
      FleetStepKeeps(cfg, s, f, DropService, t);
      var u := ReleaseStep(cfg, t, f);
      path := [s, t, u];
      TwoSteps(cfg, s, FleetCtl(f, DropService), t, FleetCtl(f, Release), u);
      assert FleetActs(f, FinalizePlan(s.w, f)) == [FleetCtl(f, DropService), FleetCtl(f, Release)];
      RankDone(u, f);
    } else {
      var t := ReleaseStep(cfg, s, f);
      path := [s, t];
      OneStep(cfg, s, FleetCtl(f, Release), t);
      assert FleetActs(f, FinalizePlan(s.w, f)) == [FleetCtl(f, Release)];
      RankDone(t, f);
    }
  }

  const UNMARKED := Rank(1, 0, 1, 1, 0, 0, 0)

  /** Deleting the GameServer leaves a rank below that of any state in which it was unmarked. */
  lemma DeleteLowers(cfg: Config, s: State, f: Name, t: State)
    requires Inv(cfg, s) && FDeleteGs(s, f, t)
    ensures Below(RankOf(t, f), UNMARKED)
    ensures !s.w.servers[OwnedName(f)].deleting ==> RankOf(s, f) == UNMARKED
  {
    OwnerHeld(cfg, s, f);
  }

  /** A finalizing pass that found the GameServer unmarked and gets to its delete lowers the rank, whatever others do
      between its calls: a steady pass of the GameServer controller may put the stripped finalizer back. */
  lemma PassLowers(cfg: Config, path: seq<State>, acts: seq<Action>, f: Name, i: nat, j: nat)
    requires Runs(cfg, path, acts) && Inv(cfg, path[0]) && i <= j < |acts|
    requires Finalizing(path[i], f) && OwnedBy(path[i].w, f, OwnedName(f)) && !path[i].w.servers[OwnedName(f)].deleting
    requires acts[j] == FleetCtl(f, DeleteGs)
    ensures Below(RankOf(path[j + 1], f), RankOf(path[i], f))
  {
    hide Inv, FDeleteGs, Below;
    RunKeeps(cfg, path, acts, i);
    RunKeeps(cfg, path, acts, j);
    OwnerHeld(cfg, path[i], f);
    assert Step(cfg, path[j], acts[j], path[j + 1]);
    DeleteLowers(cfg, path[j], f, path[j + 1]);
  }

  // ---- when the wait for pods is skipped ----

  /** Deleting an unmarked GameServer takes it away at once exactly if the GameServer finalizer is not on it at that
      moment. Its StatefulSet is left as it is. */
  lemma DeleteTakes(cfg: Config, s: State, f: Name, t: State)
    requires Inv(cfg, s) && FDeleteGs(s, f, t) && !s.w.servers[OwnedName(f)].deleting
    ensures OwnedName(f) !in t.w.servers <==> SERVER_FINALIZER !in s.w.servers[OwnedName(f)].finalizers
    ensures t.w.sets == s.w.sets
  {
    hide Inv, OnlyOurs;
    OwnedHasOurs(cfg, s, f);
    NothingLeft(s.w.servers[OwnedName(f)].finalizers);
  }

  /** The fleet controller deletes its GameServer, unmarked and without the GameServer finalizer. */
  predicate Skips(s: State, a: Action, f: Name)
    requires OwnedName(f) in s.w.servers
  {
    && (a == FleetCtl(f, DeleteGs) || a == FleetCtl(f, DeleteFailed))
    && !s.w.servers[OwnedName(f)].deleting && SERVER_FINALIZER !in s.w.servers[OwnedName(f)].finalizers
  }

  /** Exactly when a fleet's GameServer goes: its controller lets it go, and then no pod is wanted and none is ready; or
      the fleet controller skips that wait. */
  lemma OwnedGoes(cfg: Config, s: State, a: Action, t: State, f: Name)
    requires Inv(cfg, s) && Step(cfg, s, a, t) && OwnedBy(s.w, f, OwnedName(f))
    ensures OwnedName(f) !in t.w.servers <==> a == ServerCtl(OwnedName(f), ReleaseServer) || Skips(s, a, f)
    ensures a == ServerCtl(OwnedName(f), ReleaseServer) ==> Drained(s.w, OwnedName(f))
  {
    hide Inv, OnlyOurs, FleetStep, ServerStep, EnvStep;
    OwnedHasOurs(cfg, s, f);
    NothingElse(s.w.servers[OwnedName(f)].finalizers);
    NothingLeft(s.w.servers[OwnedName(f)].finalizers);
    match a
    case FleetCtl(g, act) => GoesByFleet(cfg, s, g, act, t, f);
    case ServerCtl(n, act) => GoesByServer(cfg, s, n, act, t, f);
    case Env(act) => GoesByOthers(cfg, s, act, t, f);
  }

  /** What a fleet's GameServer is like in every reachable state. */
  ghost predicate Ours(gs: GameServer) {
    && (gs.finalizers == [] <==> SERVER_FINALIZER !in gs.finalizers) && (gs.deleting ==> gs.finalizers != [])
    && Without(gs.finalizers, SERVER_FINALIZER) == []
  }

  lemma GoesByFleet(cfg: Config, s: State, g: Name, act: FleetAct, t: State, f: Name)
    requires FleetStep(cfg, s, g, act, t) && OwnedBy(s.w, f, OwnedName(f)) && Ours(s.w.servers[OwnedName(f)])
    ensures OwnedName(f) !in t.w.servers <==> Skips(s, FleetCtl(g, act), f)
  {
    hide ComputeTemplateHash, DefaultSpec, ValidSpec, BuildServer, Steady, SyncEdit, StartEdit, CompleteEdit,
      CreatedEdit, ResetEdit, LastTime, CloseLast, NoneOwned;
    if OwnedName(g) == OwnedName(f) {
      OwnedNameInjective(g, f);
    }
  }

  lemma GoesByServer(cfg: Config, s: State, n: Name, act: ServerAct, t: State, f: Name)
    requires ServerStep(cfg, s, n, act, t) && OwnedBy(s.w, f, OwnedName(f)) && Ours(s.w.servers[OwnedName(f)])
    ensures OwnedName(f) !in t.w.servers <==> n == OwnedName(f) && act.ReleaseServer?
    ensures act.ReleaseServer? ==> Drained(s.w, n)
  {
    hide DefaultSpec, ValidSpec, ProbeEdit, UnregisteredEdit, StatefulSetFor, Builders.SyncSet;
  }

  lemma GoesByOthers(cfg: Config, s: State, act: EnvAct, t: State, f: Name)
    requires EnvStep(cfg, s, act, t) && OwnedBy(s.w, f, OwnedName(f)) && Ours(s.w.servers[OwnedName(f)])
    ensures OwnedName(f) in t.w.servers
  {
    hide ComputeTemplateHash, DefaultSpec, ValidSpec, Rehash, Toward, NewFleet;
  }

  // ---- the GameServer controller's turn ----

  lemma ScaleDownStep(cfg: Config, s: State, n: Name) returns (t: State)
    requires Inv(cfg, s) && Leaving(s, n) && n in s.w.sets
    ensures SScaleDown(s, n, t) && t.l == s.l && t.w.servers == s.w.servers && t.w.fleets == s.w.fleets
    ensures n in t.w.sets && t.w.sets[n].replicas == Some(0) && t.w.sets[n].readyReplicas == s.w.sets[n].readyReplicas
  {
    ScaleDownAccepted(cfg, s, n);
    t := s.(w := UpdateSet(s.w, n, s.w.sets[n].(replicas := Some(0))).world);
  }

  lemma StoppingStep(s: State, n: Name) returns (t: State)
    requires Leaving(s, n)
             && (forall m :: m in s.w.servers && s.w.servers[m].deleting ==> s.w.servers[m].finalizers != [])
    ensures SStopping(s, n, t) && t.l == s.l && t.w.sets == s.w.sets && t.w.fleets == s.w.fleets
    ensures n in t.w.servers && t.w.servers[n].deleting
            && LabelOf(t.w.servers[n].labels) == LabelOf(s.w.servers[n].labels)
  {
    t := s.(w := UpdateServerStatus(s.w, n,
                                    s.w.servers[n].(status := s.w.servers[n].status.(phase := Stopping))).world);
  }

  lemma ServerReleaseStep(cfg: Config, s: State, n: Name) returns (t: State)
    requires Inv(cfg, s) && Leaving(s, n) && Drained(s.w, n)
    ensures SRelease(s, n, t) && t.l == s.l && t.w.fleets == s.w.fleets
    ensures OnlyOurs(s.w.servers[n].finalizers) ==> n !in t.w.servers
  {
    StripAccepted(cfg, s, n, Without(s.w.servers[n].finalizers, SERVER_FINALIZER));
    var rest := Without(s.w.servers[n].finalizers, SERVER_FINALIZER);
    t := s.(w := UpdateServer(s.w, n, s.w.servers[n].(finalizers := rest)).world);
    if OnlyOurs(s.w.servers[n].finalizers) {
      NothingElse(s.w.servers[n].finalizers);
    }
  }

  lemma {:induction false} NothingElse(finalizers: seq<string>)
    requires OnlyOurs(finalizers)
    ensures Without(finalizers, SERVER_FINALIZER) == []
    decreases |finalizers|
  {
    if finalizers != [] {
      assert forall x :: x in finalizers[1..] ==> x in finalizers;
      assert finalizers[0] in finalizers;
      NothingElse(finalizers[1..]);
    }
  }

  lemma NothingLeft(finalizers: seq<string>)
    requires OnlyOurs(finalizers)
    ensures finalizers == [] <==> SERVER_FINALIZER !in finalizers
  {
    if finalizers != [] {
      assert finalizers[0] in finalizers;
    }
  }

  lemma MarkedHaveFinalizers(cfg: Config, s: State)
    requires Inv(cfg, s)
    ensures forall m :: m in s.w.servers && s.w.servers[m].deleting ==> s.w.servers[m].finalizers != []
  {
    forall m | m in s.w.servers && s.w.servers[m].deleting ensures s.w.servers[m].finalizers != [] {
      assert ServerOk(cfg, s, m);
    }
  }

  lemma SetReplicas(cfg: Config, s: State, n: Name)
    requires Inv(cfg, s) && n in s.w.sets
    ensures s.w.sets[n].replicas == Some(0) || s.w.sets[n].replicas == Some(1)
    ensures s.w.sets[n].readyReplicas >= 0
  {
    assert SetOk(s, n);
  }

  /** In every reachable state an owned GameServer carries no finalizer but the operator's, and that one while it is
      marked. */
  lemma OwnedHasOurs(cfg: Config, s: State, f: Name)
    requires Inv(cfg, s) && OwnedBy(s.w, f, OwnedName(f))
    ensures var gs := s.w.servers[OwnedName(f)];
            OnlyOurs(gs.finalizers) && (gs.deleting ==> SERVER_FINALIZER in gs.finalizers)
  {
    assert ServerOk(cfg, s, OwnedName(f));
    var gs := s.w.servers[OwnedName(f)];
    if gs.deleting {
      assert gs.finalizers[0] in gs.finalizers;
    }
  }

  /** An undisturbed finalize pass of the GameServer controller: if pods are wanted or none is ready, the rank
      drops. With pods ready and none wanted it is the kubelet's turn. */
  lemma ServerTurn(cfg: Config, s: State, f: Name) returns (path: seq<State>)
    requires Inv(cfg, s) && Deleting(s, f) && f !in s.l.fleetPass
    requires OwnedBy(s.w, f, OwnedName(f)) && Leaving(s, OwnedName(f))
    requires WantedPods(s.w, OwnedName(f)) == 1 || ReadyPods(s.w, OwnedName(f)) == 0
    ensures Runs(cfg, path, ServerActs(OwnedName(f), ServerFinalizePlan(s.w, OwnedName(f)))) && path[0] == s
    ensures Below(RankOf(path[|path| - 1], f), RankOf(s, f))
  {
    hide Inv, SScaleDown, SStopping, SRelease, Runs, RankOf, Below, Without;
    var n := OwnedName(f);
    OwnedHasOurs(cfg, s, f);
    var t := s;
    if n in s.w.sets {
      SetReplicas(cfg, s, n);
    }
    if ScalesDown(s.w, n) {
      t := ScaleDownStep(cfg, s, n);
      ServerStepKeeps(cfg, s, n, ScaleDown, t);
    }
    var last: ServerAct, u: State;
    if n in s.w.sets && s.w.sets[n].readyReplicas > 0 {
      MarkedHaveFinalizers(cfg, t);
      last := MarkStopping;
      u := StoppingStep(t, n);
      ScaledRank(s, u, f);
    } else {
      last := ReleaseServer;
      u := ServerReleaseStep(cfg, t, n);
      ReleasedRank(s, u, f);
    }
    if ScalesDown(s.w, n) {
      path := [s, t, u];
      TwoSteps(cfg, s, ServerCtl(n, ScaleDown), t, ServerCtl(n, last), u);
      assert ServerActs(n, ServerFinalizePlan(s.w, n)) == [ServerCtl(n, ScaleDown), ServerCtl(n, last)];
    } else {
      path := [s, u];
      OneStep(cfg, s, ServerCtl(n, last), u);
      assert ServerActs(n, ServerFinalizePlan(s.w, n)) == [ServerCtl(n, last)];
    }
  }

  lemma ScaledRank(s: State, u: State, f: Name)
    requires Deleting(s, f) && f !in s.l.fleetPass && OwnedBy(s.w, f, OwnedName(f)) && Leaving(s, OwnedName(f))
    requires WantedPods(s.w, OwnedName(f)) == 1 && WantedPods(u.w, OwnedName(f)) == 0
    requires u.w.fleets == s.w.fleets && u.l == s.l && OwnedBy(u.w, f, OwnedName(f)) && Leaving(u, OwnedName(f))
    ensures Below(RankOf(u, f), RankOf(s, f))
  {
  }

  lemma ReleasedRank(s: State, u: State, f: Name)
    requires Deleting(s, f) && f !in s.l.fleetPass && OwnedBy(s.w, f, OwnedName(f))
    requires u.w.fleets == s.w.fleets && u.l == s.l && OwnedName(f) !in u.w.servers
    ensures Below(RankOf(u, f), RankOf(s, f))
  {
  }

  /** The kubelet's turn: taking the pods away lowers the rank. */
  lemma KubeletTurn(cfg: Config, s: State, f: Name) returns (t: State)
    requires Inv(cfg, s) && Deleting(s, f) && f !in s.l.fleetPass
    requires OwnedBy(s.w, f, OwnedName(f)) && Leaving(s, OwnedName(f))
    requires WantedPods(s.w, OwnedName(f)) == 0 && ReadyPods(s.w, OwnedName(f)) > 0
    ensures Step(cfg, s, Env(MoveSet(OwnedName(f), 0, 0)), t) && t.w.servers == s.w.servers
    ensures Below(RankOf(t, f), RankOf(s, f))
  {
    var n := OwnedName(f);
    SetReplicas(cfg, s, n);
    t := s.(w := PutSet(s.w, n, s.w.sets[n].(statusReplicas := 0, readyReplicas := 0)));
  }

  /** Ending a pass in flight, whether it returned or its process died. */
  lemma PassTurn(cfg: Config, s: State, f: Name) returns (a: Action, t: State)
    requires Inv(cfg, s) && Deleting(s, f)
    requires f in s.l.fleetPass
             || (OwnedBy(s.w, f, OwnedName(f)) && s.w.servers[OwnedName(f)].deleting && OwnedName(f) in s.l.serverPass)
    ensures Step(cfg, s, a, t)
            && a == (if f in s.l.fleetPass then FleetCtl(f, End) else ServerCtl(OwnedName(f), EndServer))
    ensures Below(RankOf(t, f), RankOf(s, f))
  {
    if f in s.l.fleetPass {
      a := FleetCtl(f, End);
      t := s.(l := s.l.(fleetPass := s.l.fleetPass - {f}));
    } else {
      a := ServerCtl(OwnedName(f), EndServer);
      t := s.(l := s.l.(serverPass := s.l.serverPass - {OwnedName(f)}));
    }
  }

  // ---- the deletion completes ----

  /** The turns in order: end passes in flight, strip and delete, scale down, wait for the pods, let go. */
  lemma Turn(cfg: Config, s: State, f: Name) returns (path: seq<State>, acts: seq<Action>)
    requires Inv(cfg, s) && Deleting(s, f)
    ensures Runs(cfg, path, acts) && path[0] == s
    ensures Below(RankOf(path[|acts|], f), RankOf(s, f))
    ensures forall i :: 0 <= i < |acts| ==> !Creates(acts[i], f)
  {
    hide Inv, Step, Runs, RankOf, Below, FinalizePlan, ServerFinalizePlan;
    var n := OwnedName(f);
    if f in s.l.fleetPass || (OwnedBy(s.w, f, n) && s.w.servers[n].deleting && n in s.l.serverPass) {
      var a, t := PassTurn(cfg, s, f);
      OneStep(cfg, s, a, t);
      path, acts := [s, t], [a];
      EndKeepsServers(cfg, s, a, t, f);
    } else if !OwnedBy(s.w, f, n) {
      path := FleetTurnAlone(cfg, s, f);
      acts := FleetActs(f, FinalizePlan(s.w, f));
      RunLength(cfg, path, acts);
    } else if !s.w.servers[n].deleting {
      path := FleetTurnWithServer(cfg, s, f);
      acts := FleetActs(f, FinalizePlan(s.w, f));
      RunLength(cfg, path, acts);
    } else if WantedPods(s.w, n) == 0 && ReadyPods(s.w, n) > 0 {
      var t := KubeletTurn(cfg, s, f);
      OneStep(cfg, s, Env(MoveSet(n, 0, 0)), t);
      path, acts := [s, t], [Env(MoveSet(n, 0, 0))];
    } else {
      path := ServerTurn(cfg, s, f);
      acts := ServerActs(n, ServerFinalizePlan(s.w, n));
      RunLength(cfg, path, acts);
    }
  }

  lemma RunLength(cfg: Config, path: seq<State>, acts: seq<Action>)
    requires Runs(cfg, path, acts)
    ensures |path| == |acts| + 1
  {
    hide Step;
  }

  lemma EndKeepsServers(cfg: Config, s: State, a: Action, t: State, f: Name)
    requires Step(cfg, s, a, t)
    requires a == FleetCtl(f, End) || a == ServerCtl(OwnedName(f), EndServer)
    ensures t.w == s.w
  {
  }

  /** From every reachable state a marked fleet can be let go, whatever is in flight: the turns bring it there,
      and by RankNeverRises nothing anybody does in between undoes one. */
  lemma DeletionCompletes(cfg: Config, s: State, f: Name) returns (path: seq<State>, acts: seq<Action>)
    requires Inv(cfg, s) && Deleting(s, f)
    ensures Runs(cfg, path, acts) && path[0] == s && LetGo(path[|acts|], f)
    decreases RankOf(s, f).held, RankOf(s, f).steady, RankOf(s, f).owns, RankOf(s, f).unmarked, RankOf(s, f).pass,
              RankOf(s, f).wanted, RankOf(s, f).ready
  {
    hide Inv, Step, Runs, RankOf;
    path, acts := Turn(cfg, s, f);
    RunLength(cfg, path, acts);
    var t := path[|acts|];
    RunKeeps(cfg, path, acts, |acts|);
    RankOverRuns(cfg, path, acts, f, |acts|);
    if Deleting(t, f) {
      var path', acts' := DeletionCompletes(cfg, t, f);
      RunLength(cfg, path', acts');
      RunsJoin(cfg, path, acts, path', acts');
      path, acts := path + path'[1..], acts + acts';
    }
  }

  lemma RunsJoin(cfg: Config, p: seq<State>, a: seq<Action>, q: seq<State>, b: seq<Action>)
    requires Runs(cfg, p, a) && Runs(cfg, q, b) && p[|a|] == q[0]
    ensures Runs(cfg, p + q[1..], a + b) && (p + q[1..])[|a| + |b|] == q[|b|]
  {
    hide Step;
    var r, c := p + q[1..], a + b;
    forall i | 0 <= i < |c| ensures Step(cfg, r[i], c[i], r[i + 1]) {
      if i < |a| {
        assert Step(cfg, p[i], a[i], p[i + 1]);
      } else {
        assert Step(cfg, q[i - |a|], b[i - |a|], q[i - |a| + 1]);
      }
    }
  }
}

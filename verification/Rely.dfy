/** What a controller may rely on while others act between its own calls. */
module Rely {
  import opened Types
  import opened Live
  import opened Webhook
  import opened TemplateHash
  import opened Builders
  import opened Store
  import opened Actions
  import opened Invariants
  import opened Preservation
  import opened Evolution
  import opened Identity
  import opened Servers
  import opened Deletion

  /** The controllers that take turns, one pass at a time per object. */
  datatype Actor = FleetController(f: Name) | ServerController(n: Name)

  predicate By(me: Actor, a: Action) {
    match me
    case FleetController(f) => a.FleetCtl? && a.f == f
    case ServerController(n) => a.ServerCtl? && a.n == n
  }

  /** The action is of the same controller, for whatever object. A controller works on one object at a time. */
  predicate SameController(me: Actor, a: Action) {
    match me
    case FleetController(_) => a.FleetCtl?
    case ServerController(_) => a.ServerCtl?
  }

  /** The actions of a controller. */
  function Of(me: Actor): Action -> bool {
    a => SameController(me, a)
  }

  /** The object at `n` is the one that was there, evolved, or younger than that state. */
  ghost predicate ServerSince(s: State, t: State, n: Name) {
    n in t.w.servers ==>
      (n in s.w.servers && Evolves(s.w.servers[n], t.w.servers[n])) || t.w.servers[n].version > s.w.revision
  }

  lemma ServerSinceStep(cfg: Config, s: State, a: Action, t: State, n: Name)
    requires Inv(cfg, s) && Step(cfg, s, a, t) && Inv(cfg, t)
    ensures ServerSince(s, t, n) && s.w.revision <= t.w.revision && s.w.now <= t.w.now
  {
    hide Step;
    StepServerNext(cfg, s, a, t, n);
    ClockForward(cfg, s, a, t);
    if n !in s.w.servers && n in t.w.servers {
      YoungVersion(cfg, s, a, t, n);
    }
  }

  lemma YoungVersion(cfg: Config, s: State, a: Action, t: State, n: Name)
    requires Step(cfg, s, a, t) && n !in s.w.servers && n in t.w.servers
    ensures t.w.servers[n].version > s.w.revision
  {
    hide FleetStep, ServerStep, EnvStep;
    match a
    case FleetCtl(f, act) => YoungByFleet(cfg, s, f, act, t, n);
    case ServerCtl(m, act) => ServerAppears(cfg, s, m, act, t, n);
    case Env(act) => YoungByOthers(cfg, s, act, t, n);
  }

  lemma YoungByFleet(cfg: Config, s: State, f: Name, act: FleetAct, t: State, n: Name)
    requires FleetStep(cfg, s, f, act, t) && n !in s.w.servers && n in t.w.servers
    ensures t.w.servers[n].version > s.w.revision
  {
    hide ComputeTemplateHash, DefaultSpec, ValidSpec, BuildServer, Redeploy, Steady, SyncEdit, StartEdit,
      CompleteEdit, CreatedEdit, ResetEdit, Without, LastTime, CloseLast, NoneOwned;
    UntouchedByFleet(cfg, s, f, act, t);
  }

  lemma YoungByOthers(cfg: Config, s: State, act: EnvAct, t: State, n: Name)
    requires EnvStep(cfg, s, act, t) && n !in s.w.servers && n in t.w.servers
    ensures t.w.servers[n].version > s.w.revision
  {
    hide ComputeTemplateHash, DefaultSpec, ValidSpec, Rehash, Toward, NewFleet;
  }

  /** Revisions and the clock never go back. */
  lemma ClockForward(cfg: Config, s: State, a: Action, t: State)
    requires Step(cfg, s, a, t)
    ensures s.w.revision <= t.w.revision && s.w.now <= t.w.now
  {
    hide FleetStep, ServerStep, EnvStep;
    match a
    case FleetCtl(f, act) => ClockByFleet(cfg, s, f, act, t);
    case ServerCtl(n, act) => ClockByServer(cfg, s, n, act, t);
    case Env(act) => ClockByOthers(cfg, s, act, t);
  }

  lemma ClockByOthers(cfg: Config, s: State, act: EnvAct, t: State)
    requires EnvStep(cfg, s, act, t)
    ensures s.w.revision <= t.w.revision && s.w.now <= t.w.now
  {
    hide ComputeTemplateHash, DefaultSpec, ValidSpec, Rehash, Toward, NewFleet;
  }

  lemma ClockByFleet(cfg: Config, s: State, f: Name, act: FleetAct, t: State)
    requires FleetStep(cfg, s, f, act, t)
    ensures s.w.revision <= t.w.revision && s.w.now <= t.w.now
  {
    hide ComputeTemplateHash, DefaultSpec, ValidSpec, BuildServer, Redeploy, Steady, SyncEdit, StartEdit,
      CompleteEdit, CreatedEdit, ResetEdit, Without, LastTime, CloseLast, NoneOwned;
  }

  lemma ClockByServer(cfg: Config, s: State, n: Name, act: ServerAct, t: State)
    requires ServerStep(cfg, s, n, act, t)
    ensures s.w.revision <= t.w.revision && s.w.now <= t.w.now
  {
    hide DefaultSpec, ValidSpec, ProbeEdit, UnregisteredEdit, StatefulSetFor, Without, Builders.SyncSet, Drained;
  }

  // ---- the fleet controller's rely ----

  /** What the controller of fleet `f` knows of the present `t` from a past state `s` of its own pass: the pass
      is still the one it was; a held or a marked fleet is the same fleet, and held; a GameServer the fleet owns
      is the one it owned. */
  ghost predicate FleetKnows(s: State, t: State, f: Name) {
    var n := OwnedName(f);
    && s.w.revision <= t.w.revision && s.w.now <= t.w.now
    && SamePass(s.l.fleetPass, t.l.fleetPass, f)
    && (f in s.w.fleets && (Held(s.w, f) || s.w.fleets[f].deleting) ==>
          f in t.w.fleets && FleetEvolves(s.w.fleets[f], t.w.fleets[f]) && (Held(s.w, f) ==> Held(t.w, f)))
    && (OwnedBy(t.w, f, n) ==> OwnedBy(s.w, f, n) && Evolves(s.w.servers[n], t.w.servers[n]))
    && ServerSince(s, t, n)
  }

  /** Between two of its calls, moreover, nobody marks or removes the unmarked GameServer it owns. */
  ghost predicate FleetRely(s: State, t: State, f: Name) {
    var n := OwnedName(f);
    && FleetKnows(s, t, f)
    && (OwnedBy(s.w, f, n) && !s.w.servers[n].deleting ==> OwnedBy(t.w, f, n) && !t.w.servers[n].deleting)
  }

  /** Nobody but the fleet's controller creates its GameServer. */
  lemma OthersDoNotCreate(cfg: Config, s: State, a: Action, t: State, f: Name)
    requires Inv(cfg, s) && Step(cfg, s, a, t) && !By(FleetController(f), a)
    requires OwnedBy(t.w, f, OwnedName(f))
    ensures OwnedBy(s.w, f, OwnedName(f))
  {
    hide Inv, FleetStep, ServerStep, EnvStep;
    var n := OwnedName(f);
    StepServerNext(cfg, s, a, t, n);
    if n !in s.w.servers {
      match a
      case FleetCtl(g, act) =>
        if OwnedName(g) == n { OwnedNameInjective(g, f); }
        UntouchedByFleet(cfg, s, g, act, t);
      case ServerCtl(m, act) => ServerAppears(cfg, s, m, act, t, n);
      case Env(act) => EnvAppears(cfg, s, act, t, n);
    }
  }

  /** Nobody but the fleet's controller marks or removes its unmarked GameServer. */
  lemma OthersDoNotDelete(cfg: Config, s: State, a: Action, t: State, f: Name)
    requires Inv(cfg, s) && Step(cfg, s, a, t) && !By(FleetController(f), a)
    requires OwnedBy(s.w, f, OwnedName(f)) && !s.w.servers[OwnedName(f)].deleting
    ensures OwnedBy(t.w, f, OwnedName(f)) && !t.w.servers[OwnedName(f)].deleting
  {
    hide Inv, FleetStep, ServerStep, EnvStep;
    var n := OwnedName(f);
    match a {
      case FleetCtl(g, act) =>
        if OwnedName(g) == n { OwnedNameInjective(g, f); }
        UntouchedByFleet(cfg, s, g, act, t);
      case ServerCtl(m, act) => ServerCtlKeepsUp(cfg, s, m, act, t, n);
      case Env(act) => EnvKeepsUp(cfg, s, act, t, n);
    }
    StepServerNext(cfg, s, a, t, n);
  }

  /** A marked fleet is not removed by others. */
  lemma OthersKeepFleet(cfg: Config, s: State, a: Action, t: State, f: Name)
    requires Inv(cfg, s) && Step(cfg, s, a, t) && !By(FleetController(f), a)
    requires f in s.w.fleets && (Held(s.w, f) || s.w.fleets[f].deleting)
    ensures f in t.w.fleets && FleetEvolves(s.w.fleets[f], t.w.fleets[f]) && (Held(s.w, f) ==> Held(t.w, f))
  {
    hide FleetStep, ServerStep, ComputeTemplateHash, Inv;
    if s.w.fleets[f].deleting {
      MarkedFleet(cfg, s, f);
    }
    if FleetTarget(a) == Some(f) {
      StepFleetNext(cfg, s, a, t, f);
    } else {
      FleetsUntouched(cfg, s, a, t);
    }
  }

  lemma MarkedFleet(cfg: Config, s: State, f: Name)
    requires Inv(cfg, s) && f in s.w.fleets && s.w.fleets[f].deleting
    ensures s.w.fleets[f].finalizers != []
  {
    assert FleetOk(cfg, s, f);
  }

  lemma FleetRelyStep(cfg: Config, s: State, a: Action, t: State, f: Name)
    requires Inv(cfg, s) && Step(cfg, s, a, t) && !By(FleetController(f), a)
    ensures FleetRely(s, t, f)
  {
    hide Inv, Step, ServerSince, Evolves, FleetEvolves;
    StepKeeps(cfg, s, a, t);
    var n := OwnedName(f);
    ServerSinceStep(cfg, s, a, t, n);
    StepPassNext(cfg, s, a, t);
    assert (a.FleetCtl? && a.f == f) || SamePass(s.l.fleetPass, t.l.fleetPass, f);
    if f in s.w.fleets && (Held(s.w, f) || s.w.fleets[f].deleting) {
      OthersKeepFleet(cfg, s, a, t, f);
    }
    if OwnedBy(t.w, f, n) {
      OthersDoNotCreate(cfg, s, a, t, f);
    }
    if OwnedBy(s.w, f, n) && !s.w.servers[n].deleting {
      OthersDoNotDelete(cfg, s, a, t, f);
    }
    StepServerNext(cfg, s, a, t, n);
  }

  lemma EvolvesTransitive(a: GameServer, b: GameServer, c: GameServer)
    requires Evolves(a, b) && Evolves(b, c)
    ensures Evolves(a, c)
  {
  }

  lemma SinceTransitive(s: State, t: State, u: State, n: Name)
    requires ServerSince(s, t, n) && ServerSince(t, u, n) && s.w.revision <= t.w.revision
    ensures ServerSince(s, u, n)
  {
    if n in u.w.servers && n in t.w.servers && Evolves(t.w.servers[n], u.w.servers[n])
       && n in s.w.servers && Evolves(s.w.servers[n], t.w.servers[n]) {
      EvolvesTransitive(s.w.servers[n], t.w.servers[n], u.w.servers[n]);
    }
  }

  lemma FleetKnowsTransitive(s: State, t: State, u: State, f: Name)
    requires FleetKnows(s, t, f) && FleetKnows(t, u, f)
    ensures FleetKnows(s, u, f)
  {
    hide Evolves;
    var n := OwnedName(f);
    if OwnedBy(u.w, f, n) {
      EvolvesTransitive(s.w.servers[n], t.w.servers[n], u.w.servers[n]);
    }
    SinceTransitive(s, t, u, n);
  }

  lemma FleetRelyTransitive(s: State, t: State, u: State, f: Name)
    requires FleetRely(s, t, f) && FleetRely(t, u, f)
    ensures FleetRely(s, u, f)
  {
    hide FleetKnows;
    FleetKnowsTransitive(s, t, u, f);
  }

  /** The controller's own writes keep what it knows, except creating the GameServer and letting the fleet go. */
  lemma OwnWriteKnows(cfg: Config, s: State, f: Name, act: FleetAct, t: State)
    requires Inv(cfg, s) && FleetStep(cfg, s, f, act, t)
    requires !act.Begin? && !act.End? && !act.CreateGs? && !act.Release?
    ensures FleetKnows(s, t, f)
  {
    hide Inv, FleetStep, Step, ServerSince, FleetEvolves, PhaseEdge;
    var a, n := FleetCtl(f, act), OwnedName(f);
    OwnStep(cfg, s, f, act, t);
    StepKeeps(cfg, s, a, t);
    ServerSinceStep(cfg, s, a, t, n);
    StepServerNext(cfg, s, a, t, n);
    StepFleetNext(cfg, s, a, t, f);
    if f in s.w.fleets && (Held(s.w, f) || s.w.fleets[f].deleting) {
      OwnKeepsFleet(cfg, s, f, act, t);
    }
    OwnKeepsPass(cfg, s, f, act, t);
    if OwnedBy(t.w, f, n) && n !in s.w.servers {
      OwnDoesNotCreate(cfg, s, f, act, t);
    }
  }

  lemma OwnStep(cfg: Config, s: State, f: Name, act: FleetAct, t: State)
    requires FleetStep(cfg, s, f, act, t)
    ensures Step(cfg, s, FleetCtl(f, act), t)
  {
    hide FleetStep;
  }

  lemma OwnKeepsPass(cfg: Config, s: State, f: Name, act: FleetAct, t: State)
    requires FleetStep(cfg, s, f, act, t) && !act.Begin? && !act.End?
    ensures t.l.fleetPass == s.l.fleetPass
  {
    hide ComputeTemplateHash, UpdateFleet, UpdateFleetStatus, CreateServer, UpdateServer, PatchServerHash,
      DeleteServer, DeleteService, PutService, SyncEdit, StartEdit, CompleteEdit, CreatedEdit, ResetEdit, Without,
      LastTime, CloseLast;
  }

  lemma OwnDoesNotCreate(cfg: Config, s: State, f: Name, act: FleetAct, t: State)
    requires FleetStep(cfg, s, f, act, t) && !act.CreateGs? && OwnedName(f) !in s.w.servers
    ensures OwnedName(f) !in t.w.servers
  {
    hide ComputeTemplateHash, DefaultSpec, ValidSpec, BuildServer, Redeploy, SyncEdit, StartEdit, CompleteEdit,
      CreatedEdit, ResetEdit, Without, LastTime, CloseLast, NoneOwned;
  }

  /** Only Release takes the finalizer, and only it may remove the fleet. */
  lemma OwnKeepsFleet(cfg: Config, s: State, f: Name, act: FleetAct, t: State)
    requires Inv(cfg, s) && FleetStep(cfg, s, f, act, t) && !act.Release?
    requires f in s.w.fleets && (Held(s.w, f) || s.w.fleets[f].deleting)
    ensures f in t.w.fleets && (Held(s.w, f) ==> Held(t.w, f))
  {
    hide Inv, ComputeTemplateHash, DefaultSpec, ValidSpec, BuildServer, Redeploy, SyncEdit, StartEdit, CompleteEdit,
      CreatedEdit, ResetEdit, Without, LastTime, CloseLast, NoneOwned;
    if s.w.fleets[f].deleting {
      MarkedFleet(cfg, s, f);
    }
    if FleetTarget(FleetCtl(f, act)) != Some(f) {
      FleetsUntouchedByFleet(cfg, s, f, act, t);
    }
  }

  lemma {:induction false} FleetRelyRun(cfg: Config, path: seq<State>, acts: seq<Action>, f: Name, i: nat, j: nat)
    requires Runs(cfg, path, acts) && Inv(cfg, path[0]) && i <= j < |path|
    requires forall k :: i <= k < j ==> !By(FleetController(f), acts[k])
    ensures FleetRely(path[i], path[j], f)
    decreases j
  {
    hide Inv, Step, FleetRely;
    if i == j {
      FleetRelySelf(path[i], f);
    } else {
      FleetRelyRun(cfg, path, acts, f, i, j - 1);
      RunKeeps(cfg, path, acts, j - 1);
      FleetRelyStep(cfg, path[j - 1], acts[j - 1], path[j], f);
      FleetRelyTransitive(path[i], path[j - 1], path[j], f);
    }
  }

  lemma FleetRelySelf(s: State, f: Name)
    ensures FleetRely(s, s, f)
  {
  }

  // ---- the GameServer controller's rely ----

  /** Between two calls of the controller of GameServer `n`: its pass is still the one it is; a marked
      GameServer is still there and keeps its finalizers; nobody else makes, scales or resizes its
      StatefulSet, whose pods only move toward what is asked for. */
  ghost predicate ServerRely(s: State, t: State, n: Name) {
    && s.w.revision <= t.w.revision && s.w.now <= t.w.now
    && SamePass(s.l.serverPass, t.l.serverPass, n)
    && ServerSince(s, t, n)
    && (n in s.w.servers && s.w.servers[n].deleting ==>
          n in t.w.servers && Evolves(s.w.servers[n], t.w.servers[n])
          && t.w.servers[n].finalizers == s.w.servers[n].finalizers)
    && (n in t.w.sets ==> n in s.w.sets && SetEvolves(s.w.sets[n], t.w.sets[n]))
  }

  ghost predicate SetEvolves(x: StatefulSet, y: StatefulSet) {
    && x.owner == y.owner && x.selector == y.selector && x.replicas == y.replicas
    && (y.readyReplicas <= x.readyReplicas || (x.replicas.Some? && y.readyReplicas <= x.replicas.value))
    && x.version <= y.version && (x.version == y.version ==> x == y)
  }

  /** Others leave the finalizers of a marked GameServer alone. */
  lemma OthersKeepMarked(cfg: Config, s: State, a: Action, t: State, n: Name)
    requires Inv(cfg, s) && Step(cfg, s, a, t) && !By(ServerController(n), a)
    requires n in s.w.servers && s.w.servers[n].deleting
    ensures n in t.w.servers && t.w.servers[n].finalizers == s.w.servers[n].finalizers
  {
    hide FleetStep, ServerStep, EnvStep, Inv;
    MarkedHaveFinalizers(cfg, s);
    if Target(a) == Some(n) {
      match a
      case FleetCtl(f, act) => FleetKeepsMarked(cfg, s, f, act, t);
      case ServerCtl(m, act) =>
      case Env(act) => EnvKeepsMarked(cfg, s, act, t, n);
    } else {
      Untouched(cfg, s, a, t);
    }
  }

  lemma FleetKeepsMarked(cfg: Config, s: State, f: Name, act: FleetAct, t: State)
    requires FleetStep(cfg, s, f, act, t)
    requires var n := OwnedName(f); n in s.w.servers && s.w.servers[n].deleting && s.w.servers[n].finalizers != []
    requires Target(FleetCtl(f, act)) == Some(OwnedName(f))
    ensures var n := OwnedName(f); n in t.w.servers && t.w.servers[n].finalizers == s.w.servers[n].finalizers
  {
    hide ComputeTemplateHash, DefaultSpec, ValidSpec, SyncEdit, StartEdit, CompleteEdit, CreatedEdit, ResetEdit,
      Without, LastTime, CloseLast, NoneOwned, Held;
  }

  lemma EnvKeepsMarked(cfg: Config, s: State, act: EnvAct, t: State, n: Name)
    requires EnvStep(cfg, s, act, t) && Target(Env(act)) == Some(n)
    requires n in s.w.servers && s.w.servers[n].deleting && s.w.servers[n].finalizers != []
    ensures n in t.w.servers && t.w.servers[n].finalizers == s.w.servers[n].finalizers
  {
    hide ComputeTemplateHash, DefaultSpec, ValidSpec, Rehash, Toward, NewFleet;
  }

  lemma OthersKeepSet(cfg: Config, s: State, a: Action, t: State, n: Name)
    requires Inv(cfg, s) && Step(cfg, s, a, t) && !By(ServerController(n), a)
    ensures n in t.w.sets ==> n in s.w.sets && SetEvolves(s.w.sets[n], t.w.sets[n])
  {
    hide FleetStep, ServerStep, EnvStep;
    assert SetOk(s, n);
    match a
    case FleetCtl(f, act) => SetByFleet(cfg, s, f, act, t);
    case ServerCtl(m, act) => OtherServerKeepsSet(cfg, s, m, act, t, n);
    case Env(act) => EnvKeepsSet(cfg, s, act, t, n);
  }

  lemma OtherServerKeepsSet(cfg: Config, s: State, m: Name, act: ServerAct, t: State, n: Name)
    requires ServerStep(cfg, s, m, act, t) && m != n
    ensures n in t.w.sets <==> n in s.w.sets
    ensures n in t.w.sets ==> t.w.sets[n] == s.w.sets[n]
  {
    hide UpdateServer, UpdateServerStatus, ProbeEdit, UnregisteredEdit, Without, StatefulSetFor;
    if act.AddServerFinalizer? || act.MarkUnregistered? || act.Report? || act.MarkStopping? || act.ReleaseServer? {
      SetsUntouched(cfg, s, m, act, t);
    }
  }

  lemma EnvKeepsSet(cfg: Config, s: State, act: EnvAct, t: State, n: Name)
    requires EnvStep(cfg, s, act, t) && SetOk(s, n)
    ensures n in t.w.sets ==> n in s.w.sets && SetEvolves(s.w.sets[n], t.w.sets[n])
  {
    hide ComputeTemplateHash, DefaultSpec, ValidSpec, Rehash, NewFleet;
  }

  lemma ServerRelyStep(cfg: Config, s: State, a: Action, t: State, n: Name)
    requires Inv(cfg, s) && Step(cfg, s, a, t) && !By(ServerController(n), a)
    ensures ServerRely(s, t, n)
  {
    hide Inv, Step, ServerSince, Evolves, SetEvolves;
    StepKeeps(cfg, s, a, t);
    ServerSinceStep(cfg, s, a, t, n);
    StepPassNext(cfg, s, a, t);
    assert (a.ServerCtl? && a.n == n) || SamePass(s.l.serverPass, t.l.serverPass, n);
    if n in s.w.servers && s.w.servers[n].deleting {
      OthersKeepMarked(cfg, s, a, t, n);
      StepServerNext(cfg, s, a, t, n);
    }
    OthersKeepSet(cfg, s, a, t, n);
  }

  lemma SetEvolvesTransitive(x: StatefulSet, y: StatefulSet, z: StatefulSet)
    requires SetEvolves(x, y) && SetEvolves(y, z)
    ensures SetEvolves(x, z)
  {
  }

  lemma ServerRelyTransitive(s: State, t: State, u: State, n: Name)
    requires ServerRely(s, t, n) && ServerRely(t, u, n)
    ensures ServerRely(s, u, n)
  {
    hide Evolves, SetEvolves;
    if n in u.w.sets {
      SetEvolvesTransitive(s.w.sets[n], t.w.sets[n], u.w.sets[n]);
    }
    if n in s.w.servers && s.w.servers[n].deleting {
      StillMarked(s.w.servers[n], t.w.servers[n]);
      EvolvesTransitive(s.w.servers[n], t.w.servers[n], u.w.servers[n]);
    }
    SinceTransitive(s, t, u, n);
  }

  lemma StillMarked(a: GameServer, b: GameServer)
    requires Evolves(a, b) && a.deleting
    ensures b.deleting
  {
  }

  lemma ServerRelySelf(s: State, n: Name)
    ensures ServerRely(s, s, n)
  {
  }

  lemma {:induction false} ServerRelyRun(cfg: Config, path: seq<State>, acts: seq<Action>, n: Name, i: nat, j: nat)
    requires Runs(cfg, path, acts) && Inv(cfg, path[0]) && i <= j < |path|
    requires forall k :: i <= k < j ==> !By(ServerController(n), acts[k])
    ensures ServerRely(path[i], path[j], n)
    decreases j
  {
    hide Inv, Step, ServerRely;
    if i == j {
      ServerRelySelf(path[i], n);
    } else {
      ServerRelyRun(cfg, path, acts, n, i, j - 1);
      RunKeeps(cfg, path, acts, j - 1);
      ServerRelyStep(cfg, path[j - 1], acts[j - 1], path[j], n);
      ServerRelyTransitive(path[i], path[j - 1], path[j], n);
    }
  }
}

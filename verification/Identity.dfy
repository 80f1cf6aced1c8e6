/** A fleet and its GameServer over whole runs: one server per fleet, kept from creation until the fleet is
    deleted, never outliving it. */
module Identity {
  import opened Types
  import opened Live
  import opened Webhook
  import opened TemplateHash
  import opened Builders
  import opened Store
  import opened Actions
  import opened Invariants
  import opened Preservation
  import opened Evolution

  /** All GameServers labelled with a fleet are one, and carry the fleet's name. */
  lemma OnePerFleet(cfg: Config, s: State, f: Name, m: Name, n: Name)
    requires Inv(cfg, s) && OwnedBy(s.w, f, m) && OwnedBy(s.w, f, n)
    ensures m == n == OwnedName(f)
  {
    assert ServerOk(cfg, s, m) && ServerOk(cfg, s, n);
  }

  /** A fleet's GameServer is created only when nothing at all has its name. */
  lemma ReplacedOnlyWhenGone(cfg: Config, s: State, f: Name, t: State)
    requires Inv(cfg, s) && FCreateGs(cfg, s, f, t)
    ensures NoneOwned(s.w, f) && OwnedName(f) !in s.w.servers && OwnedBy(t.w, f, OwnedName(f))
    ensures t.w.servers[OwnedName(f)].uid > s.w.revision
  {
    hide ComputeTemplateHash;
    forall m | m in s.w.servers ensures LabelOf(s.w.servers[m].labels) != Some(f) { assert ServerOk(cfg, s, m); }
  }

  // ---- identity ----

  /** The fleet is up and owns an unmarked GameServer of a registered type. */
  ghost predicate Up(cfg: Config, s: State, f: Name) {
    && f in s.w.fleets && !s.w.fleets[f].deleting && OwnedBy(s.w, f, OwnedName(f))
    && !s.w.servers[OwnedName(f)].deleting && s.w.servers[OwnedName(f)].spec.gameType in cfg.registered
  }

  lemma FleetCtlKeepsUp(cfg: Config, s: State, g: Name, act: FleetAct, t: State, f: Name)
    requires Inv(cfg, s) && Up(cfg, s, f) && FleetStep(cfg, s, g, act, t)
    ensures OwnedName(f) in t.w.servers && !t.w.servers[OwnedName(f)].deleting
    ensures act != DeleteFailed || g != f
  {
    hide Inv, ComputeTemplateHash, DefaultSpec, ValidSpec, BuildServer, Redeploy, SyncEdit, StartEdit, CompleteEdit,
      CreatedEdit, ResetEdit, Without, LastTime, CloseLast, NoneOwned, Held;
    if OwnedName(g) == OwnedName(f) {
      OwnedNameInjective(g, f);
    } else {
      UntouchedByFleet(cfg, s, g, act, t);
    }
  }

  lemma ServerCtlKeepsUp(cfg: Config, s: State, m: Name, act: ServerAct, t: State, n: Name)
    requires ServerStep(cfg, s, m, act, t) && n in s.w.servers && !s.w.servers[n].deleting
    ensures n in t.w.servers && !t.w.servers[n].deleting
  {
    hide DefaultSpec, ValidSpec, ProbeEdit, UnregisteredEdit, StatefulSetFor, Without, Builders.SyncSet, Drained;
  }

  lemma EnvKeepsUp(cfg: Config, s: State, act: EnvAct, t: State, n: Name)
    requires EnvStep(cfg, s, act, t) && n in s.w.servers && !s.w.servers[n].deleting
             && LabelOf(s.w.servers[n].labels) != None
    ensures n in t.w.servers && !t.w.servers[n].deleting
  {
    hide ComputeTemplateHash, DefaultSpec, ValidSpec, Rehash, Toward, NewFleet;
  }

  /** One step keeps the fleet up with the very same GameServer, unless a user deletes the fleet. */
  lemma StepKeepsUp(cfg: Config, s: State, a: Action, t: State, f: Name)
    requires Inv(cfg, s) && Step(cfg, s, a, t) && Up(cfg, s, f) && a != Env(UserDeleteFleet(f))
    ensures Up(cfg, t, f)
    ensures t.w.fleets[f].uid == s.w.fleets[f].uid && t.w.servers[OwnedName(f)].uid == s.w.servers[OwnedName(f)].uid
    ensures a != FleetCtl(f, DeleteFailed)
  {
    hide Inv, FleetStep, ServerStep, EnvStep;
    var n := OwnedName(f);
    match a {
      case FleetCtl(g, act) => FleetCtlKeepsUp(cfg, s, g, act, t, f);
      case ServerCtl(m, act) => ServerCtlKeepsUp(cfg, s, m, act, t, n);
      case Env(act) => EnvKeepsUp(cfg, s, act, t, n);
    }
    StepServerNext(cfg, s, a, t, n);
    OwnerHeld(cfg, s, f);
    StepFleetNext(cfg, s, a, t, f);
    FleetStaysUnmarked(cfg, s, a, t, f);
  }

  lemma OwnerHeld(cfg: Config, s: State, f: Name)
    requires Inv(cfg, s) && OwnedBy(s.w, f, OwnedName(f))
    ensures Held(s.w, f) && !NoneOwned(s.w, f)
  {
    assert ServerOk(cfg, s, OwnedName(f));
  }

  /** Only a user's delete marks a fleet. */
  lemma FleetStaysUnmarked(cfg: Config, s: State, a: Action, t: State, f: Name)
    requires Step(cfg, s, a, t) && f in s.w.fleets && !s.w.fleets[f].deleting && f in t.w.fleets
    requires a != Env(UserDeleteFleet(f))
    ensures !t.w.fleets[f].deleting
  {
    hide FleetStep, ServerStep, ComputeTemplateHash;
    if FleetTarget(a) == Some(f) {
      if a.FleetCtl? {
        FleetCtlDoesNotMark(cfg, s, f, a.fact, t);
      }
    } else {
      FleetsUntouched(cfg, s, a, t);
    }
  }

  lemma FleetCtlDoesNotMark(cfg: Config, s: State, f: Name, act: FleetAct, t: State)
    requires FleetStep(cfg, s, f, act, t) && f in s.w.fleets && !s.w.fleets[f].deleting && f in t.w.fleets
    requires FleetTarget(FleetCtl(f, act)) == Some(f)
    ensures !t.w.fleets[f].deleting
  {
    hide ComputeTemplateHash, CreateServer, UpdateServer, PatchServerHash, DeleteServer, DeleteService, SyncEdit,
      StartEdit, CompleteEdit, CreatedEdit, ResetEdit, Without, LastTime, CloseLast, NoneOwned;
  }

  /** Over any run without a delete of the fleet, its GameServer keeps its uid and is never marked, its
      phase is never Failed, and the failed-server path is never taken. */
  lemma {:induction false} IdentityKept(cfg: Config, path: seq<State>, acts: seq<Action>, f: Name, j: nat)
    requires Runs(cfg, path, acts) && Inv(cfg, path[0]) && Up(cfg, path[0], f) && j < |path|
    requires Env(UserDeleteFleet(f)) !in acts
    ensures Up(cfg, path[j], f) && path[j].w.servers[OwnedName(f)].uid == path[0].w.servers[OwnedName(f)].uid
    ensures path[j].w.servers[OwnedName(f)].status.phase != Failed
    ensures FleetCtl(f, DeleteFailed) !in acts[..j]
    decreases j
  {
    hide Inv, Step;
    if j != 0 {
      IdentityKept(cfg, path, acts, f, j - 1);
      RunKeeps(cfg, path, acts, j - 1);
      StepKeepsUp(cfg, path[j - 1], acts[j - 1], path[j], f);
      assert acts[..j] == acts[..j - 1] + [acts[j - 1]];
    }
    RunKeeps(cfg, path, acts, j);
    RegisteredNeverFailed(cfg, path[j], OwnedName(f));
  }

  lemma RegisteredNeverFailed(cfg: Config, s: State, n: Name)
    requires Inv(cfg, s) && n in s.w.servers && s.w.servers[n].spec.gameType in cfg.registered
    ensures s.w.servers[n].status.phase != Failed
  {
    assert ServerOk(cfg, s, n);
  }

  // ---- the end of a fleet ----

  /** The fleet is marked and its finalizer is gone, or the fleet itself is. */
  ghost predicate LetGo(s: State, f: Name) {
    f !in s.w.fleets || (s.w.fleets[f].deleting && FLEET_FINALIZER !in s.w.fleets[f].finalizers)
  }

  /** In every reachable state a fleet without its finalizer owns no GameServer. */
  lemma NoneWithoutFinalizer(cfg: Config, s: State, f: Name)
    requires Inv(cfg, s) && !Held(s.w, f)
    ensures NoneOwned(s.w, f)
  {
    forall n | n in s.w.servers ensures LabelOf(s.w.servers[n].labels) != Some(f) { assert ServerOk(cfg, s, n); }
  }

  /** Once let go, a fleet never owns a GameServer again, over any run without a new fleet of that name. */
  lemma {:induction false} NoneAfterwards(cfg: Config, path: seq<State>, acts: seq<Action>, f: Name, j: nat)
    requires Runs(cfg, path, acts) && Inv(cfg, path[0]) && LetGo(path[0], f) && j < |path|
    requires forall i :: 0 <= i < |acts| ==> !Creates(acts[i], f)
    ensures LetGo(path[j], f) && NoneOwned(path[j].w, f)
    decreases j
  {
    hide Inv, Step;
    RunKeeps(cfg, path, acts, j);
    if j != 0 {
      NoneAfterwards(cfg, path, acts, f, j - 1);
      RunKeeps(cfg, path, acts, j - 1);
      StepFleetNext(cfg, path[j - 1], acts[j - 1], path[j], f);
      if f !in path[j - 1].w.fleets {
        OnlyUsersCreate(cfg, path[j - 1], acts[j - 1], path[j], f);
      }
    }
    NoneWithoutFinalizer(cfg, path[j], f);
  }

  lemma OnlyUsersCreate(cfg: Config, s: State, a: Action, t: State, f: Name)
    requires Step(cfg, s, a, t) && f !in s.w.fleets && !Creates(a, f)
    ensures f !in t.w.fleets
  {
    hide FleetStep, ServerStep, ComputeTemplateHash;
    if FleetTarget(a) == Some(f) {
      if a.FleetCtl? {
        FleetCtlNeedsFleet(cfg, s, f, a.fact, t);
      }
    } else {
      FleetsUntouched(cfg, s, a, t);
    }
  }

  /** The fleet controller writes no fleet that is not there. */
  lemma FleetCtlNeedsFleet(cfg: Config, s: State, f: Name, act: FleetAct, t: State)
    requires FleetStep(cfg, s, f, act, t) && FleetTarget(FleetCtl(f, act)) == Some(f)
    ensures f in s.w.fleets
  {
    hide ComputeTemplateHash, CreateServer, UpdateServer, PatchServerHash, DeleteServer, DeleteService, SyncEdit,
      StartEdit, CompleteEdit, CreatedEdit, ResetEdit, Without, LastTime, CloseLast, NoneOwned;
  }
}

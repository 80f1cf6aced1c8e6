/** What one step may do to an object that was there before it: the two-state half of the invariants. */
module Evolution {
  import opened Types
  import opened Conditions
  import opened Live
  import opened Webhook
  import opened TemplateHash
  import opened Builders
  import opened Store
  import opened Actions
  import opened Invariants
  import opened Preservation

  // ---- GameServers ----

  /** The edges of the phase machine. */
  predicate PhaseEdge(p: ServerPhase, q: ServerPhase) {
    || p == q || q == Stopping
    || ((p == Unset || p == Pending) && (q == Provisioning || q == Running || q == Failed))
    || (p == Provisioning && q == Running)
  }

  /** A stored GameServer never becomes another one: uid, game type and fleet label are fixed, deletion is
      final, the phase follows its edges, and generations only grow. */
  ghost predicate Evolves(a: GameServer, b: GameServer) {
    && a.uid == b.uid && a.spec.gameType == b.spec.gameType && LabelOf(a.labels) == LabelOf(b.labels)
    && (a.deleting ==> b.deleting)
    && PhaseEdge(a.status.phase, b.status.phase)
    && a.generation <= b.generation && a.status.observedGeneration <= b.status.observedGeneration
    && a.version <= b.version && (a.version == b.version ==> a == b)
  }

  /** What a step may do at name `n`. */
  ghost predicate ServerNext(s: State, t: State, n: Name) {
    && (n in s.w.servers && n in t.w.servers ==> Evolves(s.w.servers[n], t.w.servers[n]))
    && (n !in s.w.servers && n in t.w.servers ==> t.w.servers[n].uid == s.w.revision + 1)
  }

  /** The GameServer an action writes, if any. */
  function Target(a: Action): Option<Name> {
    match a
    case FleetCtl(f, act) =>
      if act.CreateGs? || act.UpdateGs? || act.PatchHash? || act.DeleteFailed? || act.StripGs? || act.DeleteGs?
      then Some(OwnedName(f)) else None
    case ServerCtl(n, act) =>
      if act.AddServerFinalizer? || act.MarkUnregistered? || act.Report? || act.MarkStopping? || act.ReleaseServer?
      then Some(n) else None
    case Env(UserCreateServer(n, _)) => Some(n)
    case Env(UserUpdateServer(n, _)) => Some(n)
    case Env(UserDeleteServer(n)) => Some(n)
    case Env(UserUnstamp(n)) => Some(n)
    case _ => None
  }

  ghost predicate OnlyAt(s: State, t: State, k: Option<Name>) {
    forall n :: k != Some(n) ==> (n in s.w.servers <==> n in t.w.servers)
                                 && (n in s.w.servers ==> s.w.servers[n] == t.w.servers[n])
  }

  lemma UntouchedByFleet(cfg: Config, s: State, f: Name, act: FleetAct, t: State)
    requires FleetStep(cfg, s, f, act, t)
    ensures OnlyAt(s, t, Target(FleetCtl(f, act)))
  {
    hide ComputeTemplateHash, DefaultSpec, ValidSpec, BuildServer, Redeploy, Steady, SyncEdit, StartEdit,
      CompleteEdit, CreatedEdit, ResetEdit, Without, LastTime, CloseLast;
  }

  lemma UntouchedByServer(cfg: Config, s: State, n: Name, act: ServerAct, t: State)
    requires ServerStep(cfg, s, n, act, t)
    ensures OnlyAt(s, t, Target(ServerCtl(n, act)))
  {
    hide DefaultSpec, ValidSpec, ProbeEdit, UnregisteredEdit, StatefulSetFor, Without, Builders.SyncSet;
  }

  lemma UntouchedByOthers(cfg: Config, s: State, act: EnvAct, t: State)
    requires EnvStep(cfg, s, act, t)
    ensures OnlyAt(s, t, Target(Env(act)))
  {
    hide ComputeTemplateHash, DefaultSpec, ValidSpec, Rehash, Toward, NewFleet;
  }

  lemma Untouched(cfg: Config, s: State, a: Action, t: State)
    requires Step(cfg, s, a, t)
    ensures OnlyAt(s, t, Target(a))
  {
    hide FleetStep, ServerStep, EnvStep, OnlyAt, Target;
    match a
    case FleetCtl(f, act) => UntouchedByFleet(cfg, s, f, act, t);
    case ServerCtl(n, act) => UntouchedByServer(cfg, s, n, act, t);
    case Env(act) => UntouchedByOthers(cfg, s, act, t);
  }

  lemma UpdateNext(cfg: Config, s: State, n: Name, gs: GameServer, t: State)
    requires Inv(cfg, s) && Done(UpdateServer(s.w, n, gs), t)
    requires LabelOf(gs.labels) == LabelOf(s.w.servers[n].labels)
    ensures ServerNext(s, t, n)
  {
    assert ServerOk(cfg, s, n);
  }

  lemma PatchNext(cfg: Config, s: State, n: Name, hash: string, t: State)
    requires Inv(cfg, s) && Done(PatchServerHash(s.w, n, hash), t)
    ensures ServerNext(s, t, n)
  {
    assert ServerOk(cfg, s, n);
  }

  lemma StatusNext(cfg: Config, s: State, n: Name, after: ServerStatus, t: State)
    requires Inv(cfg, s) && SStatus(s, n, after, t)
    requires PhaseEdge(s.w.servers[n].status.phase, after.phase)
    requires s.w.servers[n].status.observedGeneration <= after.observedGeneration
    ensures ServerNext(s, t, n)
  {
    assert ServerOk(cfg, s, n);
  }

  lemma DeleteNext(cfg: Config, s: State, n: Name, t: State)
    requires Inv(cfg, s) && Done(DeleteServer(s.w, n), t)
    ensures ServerNext(s, t, n)
  {
    assert ServerOk(cfg, s, n);
  }

  lemma CreateNext(s: State, n: Name, gs: GameServer, t: State)
    requires Done(CreateServer(s.w, n, gs), t)
    ensures ServerNext(s, t, n) && n !in s.w.servers
  {
  }

  lemma FleetStepNext(cfg: Config, s: State, f: Name, act: FleetAct, t: State)
    requires Inv(cfg, s) && FleetStep(cfg, s, f, act, t)
    requires Target(FleetCtl(f, act)) == Some(OwnedName(f))
    ensures ServerNext(s, t, OwnedName(f))
  {
    hide Inv, ServerNext, CreateServer, UpdateServer, PatchServerHash, DeleteServer, ComputeTemplateHash, BuildServer;
    var n := OwnedName(f);
    match act
    case CreateGs => CreateNext(s, n, BuildServer(cfg, f, Wanted(s, f)), t);
    case UpdateGs =>
      RedeployLabel(cfg, s, f);
      UpdateNext(cfg, s, n, Redeploy(cfg, f, s.w.servers[n], Wanted(s, f)), t);
    case PatchHash => PatchNext(cfg, s, n, ComputeTemplateHash(cfg, Wanted(s, f)), t);
    case DeleteFailed => DeleteNext(cfg, s, n, t);
    case StripGs =>
      UpdateNext(cfg, s, n, s.w.servers[n].(finalizers := Without(s.w.servers[n].finalizers, SERVER_FINALIZER)), t);
    case DeleteGs => DeleteNext(cfg, s, n, t);
    case _ =>
  }

  lemma RedeployLabel(cfg: Config, s: State, f: Name)
    requires f in s.l.fleetPass && OwnedBy(s.w, f, OwnedName(f))
    ensures LabelOf(Redeploy(cfg, f, s.w.servers[OwnedName(f)], Wanted(s, f)).labels) == Some(f)
  {
  }

  lemma ServerStepNext(cfg: Config, s: State, n: Name, act: ServerAct, t: State)
    requires Inv(cfg, s) && ServerStep(cfg, s, n, act, t)
    requires Target(ServerCtl(n, act)) == Some(n)
    ensures ServerNext(s, t, n)
  {
    hide ServerNext, SStatus, UpdateServer;
    assert ServerOk(cfg, s, n) && PassOk(s, n);
    var gs := s.w.servers[n];
    match act
    case AddServerFinalizer => UpdateNext(cfg, s, n, gs.(finalizers := gs.finalizers + [SERVER_FINALIZER]), t);
    case MarkUnregistered(message, now) => StatusNext(cfg, s, n, UnregisteredEdit(gs.status, message, now), t);
    case Report(probe, observe, now) => StatusNext(cfg, s, n,
                                                   ProbeEdit(gs.status, gs.generation, probe, observe, now), t);
    case MarkStopping => StatusNext(cfg, s, n, gs.status.(phase := Stopping), t);
    case ReleaseServer => UpdateNext(cfg, s, n, gs.(finalizers := Without(gs.finalizers, SERVER_FINALIZER)), t);
    case _ =>
  }

  lemma EnvStepNext(cfg: Config, s: State, act: EnvAct, t: State, n: Name)
    requires Inv(cfg, s) && EnvStep(cfg, s, act, t)
    requires Target(Env(act)) == Some(n)
    ensures ServerNext(s, t, n)
  {
    hide Inv, ServerNext, CreateServer, UpdateServer, DeleteServer;
    match act
    case UserCreateServer(_, gs) => CreateNext(s, n, gs, t);
    case UserUpdateServer(_, gs) => UpdateNext(cfg, s, n, gs, t);
    case UserDeleteServer(_) => DeleteNext(cfg, s, n, t);
    case UserUnstamp(_) =>
      UpdateNext(cfg, s, n, s.w.servers[n].(annotations := s.w.servers[n].annotations - {HASH_ANNOTATION}), t);
    case _ =>
  }

  /** At every name, a step leaves the GameServer alone, lets it evolve, removes it, or creates one. */
  lemma StepServerNext(cfg: Config, s: State, a: Action, t: State, n: Name)
    requires Inv(cfg, s) && Step(cfg, s, a, t)
    ensures ServerNext(s, t, n)
  {
    hide Inv, FleetStep, ServerStep, EnvStep;
    if Target(a) == Some(n) {
      match a
      case FleetCtl(f, act) => FleetStepNext(cfg, s, f, act, t);
      case ServerCtl(m, act) => ServerStepNext(cfg, s, m, act, t);
      case Env(act) => EnvStepNext(cfg, s, act, t, n);
    } else {
      Untouched(cfg, s, a, t);
    }
  }

  // ---- fleets ----

  /** A stored fleet never becomes another one; deletion is final and cannot be followed by taking the
      finalizer back; a Degraded condition that is True stays True; generations only grow. */
  ghost predicate FleetEvolves(a: Fleet, b: Fleet) {
    && a.uid == b.uid && (a.deleting ==> b.deleting)
    && (a.deleting && FLEET_FINALIZER !in a.finalizers ==> FLEET_FINALIZER !in b.finalizers)
    && a.generation <= b.generation && a.status.observedGeneration <= b.status.observedGeneration
    && (Shows(a.status, "Degraded", True) ==> Shows(b.status, "Degraded", True))
    && a.version <= b.version && (a.version == b.version ==> a == b)
  }

  ghost predicate FleetNext(s: State, t: State, f: Name) {
    && (f in s.w.fleets && f in t.w.fleets ==> FleetEvolves(s.w.fleets[f], t.w.fleets[f]))
    && (f !in s.w.fleets && f in t.w.fleets ==> t.w.fleets[f].uid == s.w.revision + 1)
    && (Held(s.w, f) && !Held(t.w, f) ==> s.w.fleets[f].deleting && NoneOwned(s.w, f) && f !in s.l.fleetPass)
  }

  /** The fleet an action writes, if any. */
  function FleetTarget(a: Action): Option<Name> {
    match a
    case FleetCtl(f, act) =>
      if act.AddFinalizer? || act.SyncStatus? || act.StartStatus? || act.CompleteStatus? || act.CreatedStatus?
         || act.ResetStatus? || act.Release?
      then Some(f) else None
    case Env(UserCreateFleet(f, _, _)) => Some(f)
    case Env(UserEditFleet(f, _)) => Some(f)
    case Env(UserDeleteFleet(f)) => Some(f)
    case _ => None
  }

  ghost predicate OnlyFleetAt(s: State, t: State, k: Option<Name>) {
    forall f :: k != Some(f) ==> (f in s.w.fleets <==> f in t.w.fleets)
                                 && (f in s.w.fleets ==> s.w.fleets[f] == t.w.fleets[f])
  }

  lemma FleetsUntouchedByFleet(cfg: Config, s: State, f: Name, act: FleetAct, t: State)
    requires FleetStep(cfg, s, f, act, t)
    ensures OnlyFleetAt(s, t, FleetTarget(FleetCtl(f, act)))
  {
    hide ComputeTemplateHash, DefaultSpec, ValidSpec, BuildServer, Redeploy, Steady, SyncEdit, StartEdit,
      CompleteEdit, CreatedEdit, ResetEdit, Without, LastTime, CloseLast;
  }

  lemma FleetsUntouchedByServer(cfg: Config, s: State, n: Name, act: ServerAct, t: State)
    requires ServerStep(cfg, s, n, act, t)
    ensures OnlyFleetAt(s, t, None)
  {
    hide DefaultSpec, ValidSpec, ProbeEdit, UnregisteredEdit, StatefulSetFor, Without, Builders.SyncSet;
  }

  lemma FleetsUntouchedByOthers(cfg: Config, s: State, act: EnvAct, t: State)
    requires EnvStep(cfg, s, act, t)
    ensures OnlyFleetAt(s, t, FleetTarget(Env(act)))
  {
    hide ComputeTemplateHash, DefaultSpec, ValidSpec, Rehash, Toward, NewFleet;
  }

  lemma FleetsUntouched(cfg: Config, s: State, a: Action, t: State)
    requires Step(cfg, s, a, t)
    ensures OnlyFleetAt(s, t, FleetTarget(a))
  {
    hide FleetStep, ServerStep, EnvStep, OnlyFleetAt;
    match a
    case FleetCtl(f, act) => FleetsUntouchedByFleet(cfg, s, f, act, t);
    case ServerCtl(n, act) => FleetsUntouchedByServer(cfg, s, n, act, t);
    case Env(act) => FleetsUntouchedByOthers(cfg, s, act, t);
  }

  /** No status edit turns the Degraded condition off, and none lowers the observed generation. */
  ghost predicate Onward(fleet: Fleet, after: FleetStatus) {
    && fleet.status.observedGeneration <= after.observedGeneration
    && (Shows(fleet.status, "Degraded", True) ==> Shows(after, "Degraded", True))
  }

  lemma SyncOnward(f: Name, fleet: Fleet, gs: ServerStatus, now: nat)
    requires FleetStatusOk(f, fleet) && gs.phase != Failed
    ensures Onward(fleet, SyncEdit(fleet.status, fleet.generation, Some(gs), now))
  {
    KindsDistinct();
    var st := fleet.status;
    if gs.ready {
      var a := st.(readyReplicas := 1, phase := Available);
      assert Shows(st, "Degraded", True) ==> Shows(a, "Degraded", True);
      FleetPutOk(f, fleet, a, "Available", True, "Available", "GameServer is ready", now);
      FleetPutOk(f, fleet, FleetPut(a, "Available", True, "Available", "GameServer is ready", now),
                 "Progressing", False, "Available", "GameServer is ready", now);
    } else {
      var a := st.(readyReplicas := 0, phase := FleetPhase.Degraded);
      assert Shows(st, "Degraded", True) ==> Shows(a, "Degraded", True);
      FleetPutOk(f, fleet, a, "Degraded", True, "GameServerNotReady", "GameServer is not ready", now);
      FleetPutOk(f, fleet, FleetPut(a, "Degraded", True, "GameServerNotReady", "GameServer is not ready", now),
                 "Available", False, "NotAvailable", "GameServer is not ready", now);
    }
  }

  lemma CompleteOnward(f: Name, fleet: Fleet, version: string, now: nat)
    requires FleetStatusOk(f, fleet)
    ensures Onward(fleet, CompleteEdit(fleet.status, fleet.generation, OwnedName(f), version, now))
  {
    KindsDistinct();
    var a := fleet.status.(phase := Available, current := OwnedName(f), readyReplicas := 1);
    assert Shows(fleet.status, "Degraded", True) ==> Shows(a, "Degraded", True);
    FleetPutOk(f, fleet, a, "Available", True, "Available", "GameServer is ready", now);
    FleetPutOk(f, fleet, FleetPut(a, "Available", True, "Available", "GameServer is ready", now),
               "Progressing", False, "Available", "Rolling update completed", now);
  }

  lemma StartOnward(f: Name, fleet: Fleet, from: string, to: string, now: nat)
    requires FleetStatusOk(f, fleet)
    ensures Onward(fleet, StartEdit(fleet.status, from, to, now))
    ensures Onward(fleet, CreatedEdit(fleet.status, OwnedName(f), now))
    ensures Onward(fleet, ResetEdit(fleet.status))
  {
    KindsDistinct();
    var a := fleet.status.(phase := Progressing,
                           history := fleet.status.history + [Rollout(now, None, from, to, "", "")]);
    assert Shows(fleet.status, "Degraded", True) ==> Shows(a, "Degraded", True);
    FleetPutOk(f, fleet, a, "Progressing", True, "Updating", "GameServer spec updated", now);
    var b := fleet.status.(current := OwnedName(f), phase := Progressing);
    assert Shows(fleet.status, "Degraded", True) ==> Shows(b, "Degraded", True);
    FleetPutOk(f, fleet, b, "Progressing", True, "Creating", "GameServer created", now);
  }

  lemma FleetStatusNext(cfg: Config, s: State, f: Name, after: FleetStatus, t: State)
    requires Inv(cfg, s) && FStatus(cfg, s, f, after, t)
    requires Onward(s.w.fleets[f], after)
    ensures FleetNext(s, t, f)
  {
    hide ComputeTemplateHash;
    assert FleetOk(cfg, s, f);
  }

  lemma FleetUpdateNext(cfg: Config, s: State, f: Name, fleet: Fleet, t: State)
    requires Inv(cfg, s) && Done(UpdateFleet(s.w, f, fleet), t)
    requires || (FLEET_FINALIZER in fleet.finalizers && !s.w.fleets[f].deleting)
             || fleet.finalizers == s.w.fleets[f].finalizers
             || (s.w.fleets[f].deleting && NoneOwned(s.w, f) && f !in s.l.fleetPass
                 && FLEET_FINALIZER !in fleet.finalizers)
    ensures FleetNext(s, t, f)
  {
    hide ComputeTemplateHash;
    assert FleetOk(cfg, s, f);
  }

  lemma FleetDeleteNext(cfg: Config, s: State, f: Name, t: State)
    requires Inv(cfg, s) && Done(DeleteFleet(s.w, f), t)
    ensures FleetNext(s, t, f)
  {
    hide ComputeTemplateHash;
    assert FleetOk(cfg, s, f);
  }

  lemma CompleteNext(cfg: Config, s: State, f: Name, gs: ServerStatus, unsynced: Option<nat>, version: string,
                     now: nat, t: State)
    requires Inv(cfg, s) && FCompleteStatus(cfg, s, f, gs, unsynced, version, now, t)
    ensures FleetNext(s, t, f)
  {
    hide FStatus, ComputeTemplateHash, SyncEdit, CompleteEdit;
    assert FleetOk(cfg, s, f);
    var fleet := s.w.fleets[f];
    if unsynced == None {
      CompleteOnward(f, fleet, version, now);
      FleetStatusNext(cfg, s, f, CompleteEdit(fleet.status, fleet.generation, OwnedName(f), version, now), t);
    } else {
      var synced := SyncEdit(fleet.status, fleet.generation, Some(gs), unsynced.value);
      SyncOk(f, fleet, gs, unsynced.value);
      SyncOnward(f, fleet, gs, unsynced.value);
      CompleteOnward(f, fleet.(status := synced), version, now);
      FleetStatusNext(cfg, s, f, CompleteEdit(synced, fleet.generation, OwnedName(f), version, now), t);
    }
  }

  lemma CompleteHasFleet(cfg: Config, s: State, f: Name, gs: ServerStatus, unsynced: Option<nat>, version: string,
                         now: nat, t: State)
    requires FCompleteStatus(cfg, s, f, gs, unsynced, version, now, t)
    ensures f in s.w.fleets
  {
  }

  lemma FleetCtlFleetNext(cfg: Config, s: State, f: Name, act: FleetAct, t: State)
    requires Inv(cfg, s) && FleetStep(cfg, s, f, act, t)
    requires FleetTarget(FleetCtl(f, act)) == Some(f)
    ensures FleetNext(s, t, f)
  {
    hide FleetNext, FCompleteStatus, UpdateFleet, UpdateFleetStatus, ComputeTemplateHash, SyncEdit, StartEdit,
      CreatedEdit;
    assert f in s.w.fleets by {
      if act.CompleteStatus? {
        assert FCompleteStatus(cfg, s, f, act.gs, act.unsynced, act.version, act.now, t);
        CompleteHasFleet(cfg, s, f, act.gs, act.unsynced, act.version, act.now, t);
      }
    }
    assert FleetOk(cfg, s, f);
    var fleet := s.w.fleets[f];
    match act
    case AddFinalizer => FleetUpdateNext(cfg, s, f, fleet.(finalizers := fleet.finalizers + [FLEET_FINALIZER]), t);
    case SyncStatus(gs, now) =>
      SyncOnward(f, fleet, gs, now);
      FleetStatusNext(cfg, s, f, SyncEdit(fleet.status, fleet.generation, Some(gs), now), t);
    case StartStatus(from, now) =>
      StartOnward(f, fleet, from, fleet.template.spec.version, now);
      FleetStatusNext(cfg, s, f, StartEdit(fleet.status, from, fleet.template.spec.version, now), t);
    case CompleteStatus(gs, unsynced, version, now) => CompleteNext(cfg, s, f, gs, unsynced, version, now, t);
    case CreatedStatus(now) =>
      StartOnward(f, fleet, "", "", now);
      FleetStatusNext(cfg, s, f, CreatedEdit(fleet.status, OwnedName(f), now), t);
    case ResetStatus =>
      StartOnward(f, fleet, "", "", 0);
      FleetStatusNext(cfg, s, f, ResetEdit(fleet.status), t);
    case Release => FleetUpdateNext(cfg, s, f, fleet.(finalizers := Without(fleet.finalizers, FLEET_FINALIZER)), t);
    case _ =>
  }

  /** At every fleet name, a step leaves the fleet alone, lets it evolve, removes it, or creates one; and
      the fleet finalizer only goes once the fleet is marked, owns nothing, and no pass is in flight. */
  lemma StepFleetNext(cfg: Config, s: State, a: Action, t: State, f: Name)
    requires Inv(cfg, s) && Step(cfg, s, a, t)
    ensures FleetNext(s, t, f)
  {
    hide Inv, FleetStep, UpdateFleet, DeleteFleet, ComputeTemplateHash, ServerStep;
    if FleetTarget(a) == Some(f) {
      match a
      case FleetCtl(_, act) => FleetCtlFleetNext(cfg, s, f, act, t);
      case Env(UserCreateFleet(_, template, finalizers)) =>
      case Env(UserEditFleet(_, template)) => FleetUpdateNext(cfg, s, f, s.w.fleets[f].(template := template), t);
      case Env(UserDeleteFleet(_)) => FleetDeleteNext(cfg, s, f, t);
      case _ =>
    } else {
      FleetsUntouched(cfg, s, a, t);
    }
  }

  // ---- passes and logs ----

  /** A rollout log changes only by appending an open record or by closing its last one. */
  ghost predicate RolloutsNext(a: seq<Rollout>, b: seq<Rollout>) {
    || b == a
    || (|b| == |a| + 1 && b[..|a|] == a && b[|a|].completedAt == None && b[|a|].result == "")
    || (|b| == |a| > 0 && b[..|a| - 1] == a[..|a| - 1] && a[|a| - 1].completedAt == None
        && b[|a| - 1].completedAt.Some? && b[|a| - 1].result == "Success"
        && b[|a| - 1].startedAt == a[|a| - 1].startedAt && b[|a| - 1].toVersion == a[|a| - 1].toVersion
        && b[|a| - 1].fromVersion == a[|a| - 1].fromVersion)
  }

  predicate Changes(cfg: Config, s: State, a: Action, f: Name) {
    && a.Env? && a.eact.UserEditFleet? && a.eact.f == f && f in s.l.logs && s.l.logs[f].hashes != []
    && ComputeTemplateHash(cfg, a.eact.template) != s.l.logs[f].hashes[|s.l.logs[f].hashes| - 1]
  }

  predicate Creates(a: Action, f: Name) {
    a.Env? && a.eact.UserCreateFleet? && a.eact.f == f
  }

  /** A log keeps its hashes and adds one per hash-changing edit; the stamp never goes back and goes
      strictly forward with each in-place spec write, which is counted. */
  ghost predicate LogNext(cfg: Config, s: State, a: Action, t: State, f: Name) {
    f in s.l.logs && !Creates(a, f) ==>
      && f in t.l.logs && s.l.logs[f].hashes <= t.l.logs[f].hashes
      && |t.l.logs[f].hashes| == |s.l.logs[f].hashes| + (if Changes(cfg, s, a, f) then 1 else 0)
      && t.l.logs[f].writes == s.l.logs[f].writes + (if a == FleetCtl(f, UpdateGs) then 1 else 0)
      && s.l.logs[f].stamp <= t.l.logs[f].stamp
      && (a == FleetCtl(f, UpdateGs) ==> s.l.logs[f].stamp < t.l.logs[f].stamp)
      && (s.l.logs[f].stamp < |s.l.logs[f].hashes| ==> t.l.logs[f].stamp < |t.l.logs[f].hashes|)
      && RolloutsNext(s.l.logs[f].rollouts, t.l.logs[f].rollouts)
  }

  predicate SamePass<T(==)>(a: map<Name, T>, b: map<Name, T>, k: Name) {
    (k in a <==> k in b) && (k in a ==> a[k] == b[k])
  }

  /** Passes begin and end only by their own controller. */
  ghost predicate PassNext(s: State, a: Action, t: State) {
    && (forall f :: (a.FleetCtl? && a.f == f) || SamePass(s.l.fleetPass, t.l.fleetPass, f))
    && (forall n :: (a.ServerCtl? && a.n == n) || SamePass(s.l.serverPass, t.l.serverPass, n))
  }

  lemma StepPassNext(cfg: Config, s: State, a: Action, t: State)
    requires Step(cfg, s, a, t)
    ensures PassNext(s, a, t)
  {
    hide FleetStep, ServerStep, EnvStep, PassNext;
    match a
    case FleetCtl(f, act) => FleetPassNext(cfg, s, f, act, t);
    case ServerCtl(n, act) => ServerPassNext(cfg, s, n, act, t);
    case Env(act) => EnvPassNext(cfg, s, act, t);
  }

  lemma FleetPassNext(cfg: Config, s: State, f: Name, act: FleetAct, t: State)
    requires FleetStep(cfg, s, f, act, t)
    ensures PassNext(s, FleetCtl(f, act), t)
  {
    hide ComputeTemplateHash, UpdateFleet, UpdateFleetStatus, CreateServer, UpdateServer, PatchServerHash,
      DeleteServer, DeleteService, PutService, SyncEdit, StartEdit, CompleteEdit, CreatedEdit, ResetEdit, Without,
      LastTime, CloseLast;
  }

  lemma ServerPassNext(cfg: Config, s: State, n: Name, act: ServerAct, t: State)
    requires ServerStep(cfg, s, n, act, t)
    ensures PassNext(s, ServerCtl(n, act), t)
  {
    hide UpdateServer, UpdateServerStatus, CreateSet, UpdateSet, PutService, ProbeEdit, UnregisteredEdit,
      StatefulSetFor, Without, Builders.SyncSet;
  }

  lemma EnvPassNext(cfg: Config, s: State, act: EnvAct, t: State)
    requires EnvStep(cfg, s, act, t)
    ensures PassNext(s, Env(act), t)
  {
    hide ComputeTemplateHash, UpdateFleet, CreateServer, UpdateServer, DeleteServer, DeleteFleet, PutFleet, PutSet,
      Rehash, Toward, NewFleet;
  }

  lemma CloseLastNext(h: seq<Rollout>, version: string, t: nat)
    ensures RolloutsNext(h, CloseLast(h, version, t))
  {
    if h != [] && h[|h| - 1].completedAt.Some? {
      assert CloseLast(h, version, t) == h;
    }
  }

  lemma StampLogNext(cfg: Config, s: State, f: Name, more: nat, a: Action, t: State)
    requires Inv(cfg, s) && Steady(s, f) && t.l == Stamped(s, f, more)
    requires more == if a == FleetCtl(f, UpdateGs) then 1 else 0
    requires a.FleetCtl? && a.f == f
    requires a == FleetCtl(f, UpdateGs) ==> s.l.logs[f].stamp < s.l.fleetPass[f].epoch
    ensures LogNext(cfg, s, a, t, f)
  {
    hide ComputeTemplateHash;
    assert SnapOk(cfg, s, f);
  }

  lemma FleetLogNext(cfg: Config, s: State, f: Name, act: FleetAct, t: State)
    requires Inv(cfg, s) && FleetStep(cfg, s, f, act, t)
    ensures LogNext(cfg, s, FleetCtl(f, act), t, f)
    ensures forall g :: g != f && g in s.l.logs ==> g in t.l.logs && t.l.logs[g] == s.l.logs[g]
  {
    hide Inv, ComputeTemplateHash, UpdateFleet, UpdateFleetStatus, CreateServer, UpdateServer, PatchServerHash,
      DeleteServer, DeleteService, PutService, SyncEdit, StartEdit, CompleteEdit, CreatedEdit, ResetEdit, Without,
      LastTime, CloseLast;
    match act
    case CreateGs => StampLogNext(cfg, s, f, 0, FleetCtl(f, act), t);
    case UpdateGs =>
      StampMoves(cfg, s, f, t);
      StampLogNext(cfg, s, f, 1, FleetCtl(f, act), t);
    case PatchHash =>
      if OwnedBy(s.w, f, OwnedName(f)) {
        StampLogNext(cfg, s, f, 0, FleetCtl(f, act), t);
      }
    case CompleteStatus(_, _, version, now) => CloseLastNext(s.l.logs[f].rollouts, version, now);
    case _ =>
  }

  lemma StepLogNext(cfg: Config, s: State, a: Action, t: State, f: Name)
    requires Inv(cfg, s) && Step(cfg, s, a, t)
    ensures LogNext(cfg, s, a, t, f)
  {
    hide Inv, ComputeTemplateHash, FleetStep, UpdateFleet, CreateServer, UpdateServer, DeleteServer, DeleteFleet,
      PutFleet, PutSet, Toward, NewFleet, UpdateServerStatus, CreateSet, UpdateSet, PutService, ProbeEdit,
      UnregisteredEdit, StatefulSetFor, Without, Builders.SyncSet;
    match a
    case FleetCtl(g, act) => FleetLogNext(cfg, s, g, act, t);
    case ServerCtl(n, act) =>
    case Env(act) =>
  }
}

/** GameServers and their StatefulSets over whole runs: phases, scale-down before release, selectors. */
module Servers {
  import opened Types
  import opened Conditions
  import opened Live
  import opened Webhook
  import opened TemplateHash
  import opened Builders
  import opened Store
  import opened Actions
  import opened Invariants
  import opened Preservation
  import opened Evolution

  // ---- what the edits mean ----

  lemma ReadyPutMeans(st: ServerStatus, ready: bool, reason: string, message: string, now: nat)
    ensures var a := ReadyPut(st, ready, reason, message, now);
            && a == st.(conditions := a.conditions, ready := ready)
            && forall k :: Find(a.conditions, k)
                           == if k == "Ready" then
                                Some(Condition("Ready", if ready then True else False, reason, message,
                                               st.observedGeneration, now))
                              else Find(st.conditions, k)
  {
    var c := Condition("Ready", TruthOf(ready), reason, message, st.observedGeneration, now);
    forall k ensures Find(Put(st.conditions, c), k) == if k == "Ready" then Some(c) else Find(st.conditions, k) {
      PutIsMapUpdate(st.conditions, c, k);
    }
  }

  /** A report: ready means Running; a phase not yet set, or Pending, becomes Provisioning; flag and Ready condition
      follow what was found out, if anything was; only an observing report takes over the generation. */
  lemma ProbeMeans(st: ServerStatus, generation: int, probe: Probe, observe: bool, now: nat)
    ensures var a := ProbeEdit(st, generation, probe, observe, now);
            && a.phase == (if probe.Probe? && probe.ready then Running
                           else if st.phase == Unset || st.phase == Pending then Provisioning else st.phase)
            && a.observedGeneration == (if observe then generation else st.observedGeneration)
            && a.ready == (if probe.Probe? then probe.ready else st.ready)
    ensures forall k :: Find(ProbeEdit(st, generation, probe, observe, now).conditions, k)
                        == if k == "Ready" && probe.Probe? then
                             Some(Condition("Ready", if probe.ready then True else False, probe.reason, probe.message,
                                            st.observedGeneration, now))
                           else Find(st.conditions, k)
  {
    hide ReadyPut, Find, Put;
    if probe.Probe? {
      var a := if st.phase == Unset || st.phase == Pending then st.(phase := Provisioning) else st;
      ReadyPutMeans(if probe.ready then a.(phase := Running) else a, probe.ready, probe.reason, probe.message, now);
    }
  }

  /** A GameServer without an adapter is Failed and not ready, and the condition says why; the generation stays. */
  lemma UnregisteredMeans(st: ServerStatus, message: string, now: nat)
    ensures var a := UnregisteredEdit(st, message, now);
            && a.phase == Failed && !a.ready && a.observedGeneration == st.observedGeneration
    ensures forall k :: Find(UnregisteredEdit(st, message, now).conditions, k)
                        == if k == "Ready" then
                             Some(Condition("Ready", False, "AdapterNotFound", message, st.observedGeneration, now))
                           else Find(st.conditions, k)
  {
    hide ReadyPut, Find, Put;
    ReadyPutMeans(st.(phase := Failed), false, "AdapterNotFound", message, now);
  }

  // ---- phases ----

  /** The edges compose, so they also say what a GameServer's phase can be given what it once was. */
  lemma EdgesCompose(p: ServerPhase, q: ServerPhase, r: ServerPhase)
    requires PhaseEdge(p, q) && PhaseEdge(q, r)
    ensures PhaseEdge(p, r)
  {
  }

  /** While a GameServer stays stored it is the same one; its phase only follows the machine's edges, so
      Stopping is final and a Running server never becomes Provisioning or Failed; deletion is final. */
  lemma {:induction false} PhaseHistory(cfg: Config, path: seq<State>, acts: seq<Action>, n: Name, j: nat)
    requires Runs(cfg, path, acts) && Inv(cfg, path[0]) && j < |path|
    requires forall i :: 0 <= i <= j ==> n in path[i].w.servers
    ensures var a, b := path[0].w.servers[n], path[j].w.servers[n];
            && a.uid == b.uid && a.spec.gameType == b.spec.gameType && (a.deleting ==> b.deleting)
            && PhaseEdge(a.status.phase, b.status.phase)
            && a.status.observedGeneration <= b.status.observedGeneration <= b.generation
    decreases j
  {
    hide Inv, Step, PhaseEdge;
    if j != 0 {
      PhaseHistory(cfg, path, acts, n, j - 1);
      RunKeeps(cfg, path, acts, j - 1);
      StepServerNext(cfg, path[j - 1], acts[j - 1], path[j], n);
      EdgesCompose(path[0].w.servers[n].status.phase, path[j - 1].w.servers[n].status.phase,
                   path[j].w.servers[n].status.phase);
    } else {
      EdgeToSelf(path[0].w.servers[n].status.phase);
    }
    RunKeeps(cfg, path, acts, j);
    StoredPhase(cfg, path[j], n);
  }

  lemma EdgeToSelf(p: ServerPhase)
    ensures PhaseEdge(p, p)
  {
  }

  /** In every reachable state: the Ready flag and the unique Ready condition agree, ready servers are Running
      or Stopping, and Failed means that the type has no adapter. */
  lemma StoredPhase(cfg: Config, s: State, n: Name)
    requires Inv(cfg, s) && n in s.w.servers
    ensures var gs := s.w.servers[n];
            && (gs.status.ready ==> gs.status.phase == Running || gs.status.phase == Stopping)
            && (gs.status.phase == Failed ==> gs.spec.gameType !in cfg.registered)
            && (forall c :: Find(gs.status.conditions, "Ready") == Some(c) ==> c.status == TruthOf(gs.status.ready))
            && (gs.status.ready ==> Find(gs.status.conditions, "Ready").Some?)
            && Unique(gs.status.conditions)
            && gs.status.observedGeneration <= gs.generation
  {
    assert ServerOk(cfg, s, n);
  }

  // ---- the StatefulSet of a deleted GameServer ----

  /** A step keeps a StatefulSet's identity and selector; only a steady pass's sync may raise its replicas,
      and pods become ready only up to the number asked for. */
  ghost predicate SetNext(s: State, a: Action, t: State, n: Name) {
    && (n in s.w.sets && n in t.w.sets ==>
          var x, y := s.w.sets[n], t.w.sets[n];
          && x.owner == y.owner && x.selector == y.selector && x.serviceName == y.serviceName
          && (y.replicas == x.replicas || y.replicas == Some(0) || a == ServerCtl(n, Resync))
          && (y.readyReplicas <= x.readyReplicas || (x.replicas.Some? && y.readyReplicas <= x.replicas.value)))
    && (n !in s.w.sets && n in t.w.sets ==> a == ServerCtl(n, MakeSet))
  }

  lemma SetByServer(cfg: Config, s: State, m: Name, act: ServerAct, t: State, n: Name)
    requires ServerStep(cfg, s, m, act, t)
    ensures SetNext(s, ServerCtl(m, act), t, n)
  {
    hide UpdateServer, UpdateServerStatus, ProbeEdit, UnregisteredEdit, Without, StatefulSetFor;
    if act.AddServerFinalizer? || act.MarkUnregistered? || act.Report? || act.MarkStopping? || act.ReleaseServer? {
      SetsUntouched(cfg, s, m, act, t);
    }
  }

  lemma SetsUntouched(cfg: Config, s: State, m: Name, act: ServerAct, t: State)
    requires ServerStep(cfg, s, m, act, t)
    requires act.AddServerFinalizer? || act.MarkUnregistered? || act.Report? || act.MarkStopping? || act.ReleaseServer?
    ensures t.w.sets == s.w.sets
  {
    hide DefaultSpec, ValidSpec, ProbeEdit, UnregisteredEdit, Without, Drained;
  }

  lemma SetByFleet(cfg: Config, s: State, f: Name, act: FleetAct, t: State)
    requires FleetStep(cfg, s, f, act, t)
    ensures t.w.sets == s.w.sets
  {
    hide ComputeTemplateHash, DefaultSpec, ValidSpec, BuildServer, Redeploy, Steady, SyncEdit, StartEdit,
      CompleteEdit, CreatedEdit, ResetEdit, Without, LastTime, CloseLast, NoneOwned;
  }

  lemma SetByOthers(cfg: Config, s: State, act: EnvAct, t: State, n: Name)
    requires EnvStep(cfg, s, act, t)
    ensures SetNext(s, Env(act), t, n)
  {
    hide ComputeTemplateHash, DefaultSpec, ValidSpec, Rehash, NewFleet;
  }

  lemma StepSetNext(cfg: Config, s: State, a: Action, t: State, n: Name)
    requires Step(cfg, s, a, t)
    ensures SetNext(s, a, t, n)
  {
    hide FleetStep, ServerStep, EnvStep;
    match a
    case FleetCtl(f, act) => SetByFleet(cfg, s, f, act, t);
    case ServerCtl(m, act) => SetByServer(cfg, s, m, act, t, n);
    case Env(act) => SetByOthers(cfg, s, act, t, n);
  }

  /** The GameServer is marked, no steady pass is left in flight, and its StatefulSet is asked for no pods. */
  ghost predicate GoingDown(s: State, n: Name) {
    Leaving(s, n) && (n in s.w.sets ==> s.w.sets[n].replicas == Some(0))
  }

  lemma NoSteadyPass(cfg: Config, s: State, act: ServerAct, t: State, n: Name)
    requires ServerStep(cfg, s, n, act, t) && Leaving(s, n)
    ensures n !in t.l.serverPass && act != Resync && act != MakeSet
  {
    hide UpdateServer, UpdateServerStatus, UpdateSet, Without, Drained;
  }

  /** After the scale-down nothing raises the replica count again, and the number of ready pods only falls,
      for as long as the GameServer is stored. */
  lemma {:induction false} StaysDown(cfg: Config, path: seq<State>, acts: seq<Action>, n: Name, j: nat)
    requires Runs(cfg, path, acts) && Inv(cfg, path[0]) && j < |path|
    requires GoingDown(path[0], n)
    requires forall i :: 0 <= i <= j ==> n in path[i].w.servers
    ensures GoingDown(path[j], n)
    ensures n in path[j].w.sets ==> n in path[0].w.sets && path[j].w.sets[n].owner == path[0].w.sets[n].owner
    ensures n in path[j].w.sets ==> path[j].w.sets[n].readyReplicas <= path[0].w.sets[n].readyReplicas
    decreases j
  {
    hide Inv, Step;
    if j != 0 {
      var s, a, t := path[j - 1], acts[j - 1], path[j];
      StaysDown(cfg, path, acts, n, j - 1);
      RunKeeps(cfg, path, acts, j - 1);
      StepServerNext(cfg, s, a, t, n);
      StepSetNext(cfg, s, a, t, n);
      StepPassNext(cfg, s, a, t);
      if a.ServerCtl? && a.n == n {
        StepIsServers(cfg, s, a, t);
        NoSteadyPass(cfg, s, a.sact, t, n);
      } else {
        assert SamePass(s.l.serverPass, t.l.serverPass, n);
      }
      if n in s.w.sets {
        SetReadyNonNegative(cfg, s, n);
      }
    }
  }

  lemma StepIsServers(cfg: Config, s: State, a: Action, t: State)
    requires Step(cfg, s, a, t) && a.ServerCtl?
    ensures ServerStep(cfg, s, a.n, a.sact, t)
  {
    hide ServerStep;
  }

  lemma SetReadyNonNegative(cfg: Config, s: State, n: Name)
    requires Inv(cfg, s) && n in s.w.sets
    ensures 0 <= s.w.sets[n].readyReplicas
  {
    assert SetOk(s, n);
  }

  // ---- who takes the finalizer off ----

  predicate Guarded(w: World, n: Name) {
    n in w.servers && SERVER_FINALIZER in w.servers[n].finalizers
  }

  lemma GuardByFleet(cfg: Config, s: State, f: Name, act: FleetAct, t: State, n: Name)
    requires FleetStep(cfg, s, f, act, t) && Guarded(s.w, n) && !Guarded(t.w, n)
    ensures act == FleetAct.StripGs && n == OwnedName(f) && f in s.w.fleets && s.w.fleets[f].deleting
            && !s.w.servers[n].deleting
  {
    hide ComputeTemplateHash, DefaultSpec, ValidSpec, BuildServer, Steady, SyncEdit, StartEdit, CompleteEdit,
      CreatedEdit, ResetEdit, LastTime, CloseLast, NoneOwned;
  }

  lemma GuardByServer(cfg: Config, s: State, m: Name, act: ServerAct, t: State, n: Name)
    requires ServerStep(cfg, s, m, act, t) && Guarded(s.w, n) && !Guarded(t.w, n)
    ensures act == ReleaseServer && m == n && s.w.servers[n].deleting && Drained(s.w, n)
  {
    hide DefaultSpec, ValidSpec, ProbeEdit, UnregisteredEdit, StatefulSetFor, Builders.SyncSet;
  }

  lemma GuardByOthers(cfg: Config, s: State, act: EnvAct, t: State, n: Name)
    requires EnvStep(cfg, s, act, t) && Guarded(s.w, n)
    ensures Guarded(t.w, n)
  {
    hide ComputeTemplateHash, DefaultSpec, ValidSpec, Rehash, Toward, NewFleet;
  }

  /** The GameServer finalizer goes in two ways only: the GameServer controller takes it off a marked GameServer whose
      StatefulSet is absent or wants no pod and has none ready; or the fleet controller takes it off an unmarked one of
      a fleet being deleted, without waiting for anything. */
  lemma FinalizerGoes(cfg: Config, s: State, a: Action, t: State, n: Name)
    requires Step(cfg, s, a, t) && Guarded(s.w, n) && !Guarded(t.w, n)
    ensures s.w.servers[n].deleting ==> a == ServerCtl(n, ReleaseServer) && Drained(s.w, n)
    ensures !s.w.servers[n].deleting ==>
              a.FleetCtl? && a.fact == FleetAct.StripGs && n == OwnedName(a.f) && a.f in s.w.fleets
                && s.w.fleets[a.f].deleting
  {
    hide FleetStep, ServerStep, EnvStep;
    match a
    case FleetCtl(f, act) => GuardByFleet(cfg, s, f, act, t, n);
    case ServerCtl(m, act) => GuardByServer(cfg, s, m, act, t, n);
    case Env(act) => GuardByOthers(cfg, s, act, t, n);
  }

  // ---- selectors ----

  /** A StatefulSet sync is accepted exactly when the set carries the selector of the GameServer the pass
      read: always for the GameServer's own set, and for a predecessor's exactly when the game type is the same. */
  lemma SyncAccepted(cfg: Config, s: State, n: Name)
    requires Inv(cfg, s) && n in s.l.serverPass && n in s.w.sets
    ensures var snap := s.l.serverPass[n];
            && (UpdateSet(s.w, n, Builders.SyncSet(s.w.sets[n], StatefulSetFor(n, snap))).err == None
                <==> s.w.sets[n].selector == GameServerLabels(n, snap.spec.gameType))
            && (s.w.sets[n].owner == snap.uid ==>
                UpdateSet(s.w, n, Builders.SyncSet(s.w.sets[n], StatefulSetFor(n, snap))).err == None)
  {
    assert SetOk(s, n) && PassOk(s, n);
  }

  /** A scale-down is always accepted. */
  lemma ScaleDownAccepted(cfg: Config, s: State, n: Name)
    requires Inv(cfg, s) && n in s.w.sets
    ensures UpdateSet(s.w, n, s.w.sets[n].(replicas := Some(0))).err == None
  {
    assert SetOk(s, n);
  }

  /** In every reachable state the selector of a GameServer's own StatefulSet is that of its pods, and the pods
      of no other GameServer match it. */
  lemma SelectsOwnPods(cfg: Config, s: State, n: Name, m: Name, u: string)
    requires Inv(cfg, s) && n in s.w.servers && n in s.w.sets && s.w.sets[n].owner == s.w.servers[n].uid
    ensures Selects(s.w.sets[n].selector, GameServerLabels(m, u)) <==> m == n && u == s.w.servers[n].spec.gameType
    ensures s.w.sets[n].podLabels == s.w.sets[n].selector && s.w.sets[n].serviceName == n + "-headless"
  {
    assert SetOk(s, n);
    SelectorIsExact(n, s.w.servers[n].spec.gameType, m, u);
  }

  /** Every stored Service selects pods of at most one GameServer, and that one's name is the Service's own,
      the Service's with "-gs" behind it, or the Service's without "-headless" behind it. */
  lemma ServiceSelectsOne(cfg: Config, s: State, k: Name, m: Name, u: string, m': Name, u': string)
    requires Inv(cfg, s) && k in s.w.services
    requires Selects(s.w.services[k].selector, GameServerLabels(m, u))
    ensures k == m || k == m + "-headless" || m == OwnedName(k)
    ensures Selects(s.w.services[k].selector, GameServerLabels(m', u')) ==> m == m' && u == u'
  {
    assert ServiceOk(s, k);
    var n, t :| s.w.services[k].selector == GameServerLabels(n, t)
      && (k == n || k == n + "-headless" || n == OwnedName(k));
    SelectorIsExact(n, t, m, u);
    SelectorIsExact(n, t, m', u');
  }
}

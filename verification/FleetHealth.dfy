/** What a fleet's status tells: what each edit means, what every stored status satisfies, and when the Degraded
    condition does and does not follow the GameServer. */
module FleetHealth {
  import opened Types
  import opened Conditions
  import opened Live
  import opened Store
  import opened TemplateHash
  import opened Actions
  import opened Invariants
  import opened Preservation
  import opened Evolution

  // ---- what the edits mean ----

  /** One more condition written: that type reads back, every other type is as before. */
  lemma PutMeans(st: FleetStatus, kind: string, t: Truth, reason: string, message: string, now: nat)
    ensures var after := FleetPut(st, kind, t, reason, message, now);
            && after == st.(conditions := after.conditions)
            && forall k :: Find(after.conditions, k)
                        == if k == kind then Some(Condition(kind, t, reason, message, st.observedGeneration, now))
                           else Find(st.conditions, k)
  {
    var c := Condition(kind, t, reason, message, st.observedGeneration, now);
    forall k ensures Find(Put(st.conditions, c), k) == if k == kind then Some(c) else Find(st.conditions, k) {
      PutIsMapUpdate(st.conditions, c, k);
    }
  }

  /** A sync copies readiness: one ready replica, phase and Available condition follow the GameServer, Progressing ends
      when it is ready. Degraded is set when it is not ready and never unset. History and current name stay. */
  lemma SyncMeans(st: FleetStatus, generation: int, gs: ServerStatus, now: nat)
    ensures var a := SyncEdit(st, generation, Some(gs), now);
            && a.history == st.history && a.current == st.current && a.observedGeneration == generation
            && a.readyReplicas == (if gs.ready then 1 else 0)
            && a.phase == (if gs.ready then Available else if gs.phase == Failed then FleetFailed else Degraded)
            && Shows(a, "Available", TruthOf(gs.ready))
            && (Shows(a, "Progressing", False) <==> gs.ready || Shows(st, "Progressing", False))
            && (Shows(a, "Degraded", True) <==> !gs.ready || Shows(st, "Degraded", True))
    ensures var a, g := SyncEdit(st, generation, Some(gs), now), st.observedGeneration;
            if gs.ready then
              && Find(a.conditions, "Available")
                 == Some(Condition("Available", True, "Available", "GameServer is ready", g, now))
              && Find(a.conditions, "Progressing")
                 == Some(Condition("Progressing", False, "Available", "GameServer is ready", g, now))
              && Find(a.conditions, "Degraded") == Find(st.conditions, "Degraded")
            else
              && Find(a.conditions, "Available")
                 == Some(Condition("Available", False, "NotAvailable", "GameServer is not ready", g, now))
              && Find(a.conditions, "Degraded")
                 == Some(if gs.phase == Failed
                         then Condition("Degraded", True, "GameServerFailed", "GameServer is in Failed phase", g, now)
                         else Condition("Degraded", True, "GameServerNotReady", "GameServer is not ready", g, now))
              && Find(a.conditions, "Progressing") == Find(st.conditions, "Progressing")
    ensures forall k :: k != "Available" && k != "Progressing" && k != "Degraded" ==>
              Find(SyncEdit(st, generation, Some(gs), now).conditions, k) == Find(st.conditions, k)
  {
    hide FleetPut, Find, Put;
    KindsDistinct();
    if gs.ready {
      var a := st.(readyReplicas := 1, phase := Available);
      var b := FleetPut(a, "Available", True, "Available", "GameServer is ready", now);
      PutMeans(a, "Available", True, "Available", "GameServer is ready", now);
      PutMeans(b, "Progressing", False, "Available", "GameServer is ready", now);
    } else {
      var failed := gs.phase == Failed;
      var a := st.(readyReplicas := 0, phase := if failed then FleetFailed else FleetPhase.Degraded);
      var reason := if failed then "GameServerFailed" else "GameServerNotReady";
      var message := if failed then "GameServer is in Failed phase" else "GameServer is not ready";
      var b := FleetPut(a, "Degraded", True, reason, message, now);
      PutMeans(a, "Degraded", True, reason, message, now);
      PutMeans(b, "Available", False, "NotAvailable", "GameServer is not ready", now);
    }
  }

  /** A start adds one open record at the end of the history and shows Progressing; readiness, generation, current name
      and the other conditions stay. */
  lemma StartMeans(st: FleetStatus, from: string, to: string, now: nat)
    ensures var a := StartEdit(st, from, to, now);
            && |a.history| == |st.history| + 1 && a.history[..|st.history|] == st.history
            && a.history[|st.history|].completedAt == None && a.history[|st.history|].startedAt == now
            && a.history[|st.history|].fromVersion == from && a.history[|st.history|].toVersion == to
            && a.phase == Progressing && Shows(a, "Progressing", True)
            && a.readyReplicas == st.readyReplicas && a.current == st.current
            && a.observedGeneration == st.observedGeneration
    ensures Find(StartEdit(st, from, to, now).conditions, "Progressing")
            == Some(Condition("Progressing", True, "Updating", "GameServer spec updated", st.observedGeneration, now))
    ensures forall k :: k != "Progressing" ==>
            Find(StartEdit(st, from, to, now).conditions, k) == Find(st.conditions, k)
  {
    var a := st.(phase := Progressing, history := st.history + [Rollout(now, None, from, to, "", "")]);
    PutMeans(a, "Progressing", True, "Updating", "GameServer spec updated", now);
  }

  /** A completion shows the fleet available with its GameServer; Degraded is not touched. */
  lemma CompleteMeans(st: FleetStatus, generation: int, n: Name, version: string, now: nat)
    ensures var a := CompleteEdit(st, generation, n, version, now);
            && a.phase == Available && a.current == n && a.readyReplicas == 1 && a.observedGeneration == generation
            && Shows(a, "Available", True) && Shows(a, "Progressing", False)
    ensures var a, g := CompleteEdit(st, generation, n, version, now), st.observedGeneration;
            && Find(a.conditions, "Available")
               == Some(Condition("Available", True, "Available", "GameServer is ready", g, now))
            && Find(a.conditions, "Progressing")
               == Some(Condition("Progressing", False, "Available", "Rolling update completed", g, now))
    ensures forall k :: k != "Available" && k != "Progressing" ==>
              Find(CompleteEdit(st, generation, n, version, now).conditions, k) == Find(st.conditions, k)
  {
    KindsDistinct();
    var a := st.(phase := Available, current := n, readyReplicas := 1);
    var b := FleetPut(a, "Available", True, "Available", "GameServer is ready", now);
    PutMeans(a, "Available", True, "Available", "GameServer is ready", now);
    PutMeans(b, "Progressing", False, "Available", "Rolling update completed", now);
  }

  /** A new GameServer is noted by its name and shows Progressing; readiness, generation, history and the other
      conditions stay. */
  lemma CreatedMeans(st: FleetStatus, n: Name, now: nat)
    ensures var a := CreatedEdit(st, n, now);
            && a.current == n && a.phase == Progressing && Shows(a, "Progressing", True)
            && a.readyReplicas == st.readyReplicas && a.observedGeneration == st.observedGeneration
            && a.history == st.history
    ensures Find(CreatedEdit(st, n, now).conditions, "Progressing")
            == Some(Condition("Progressing", True, "Creating", "GameServer created", st.observedGeneration, now))
    ensures forall k :: k != "Progressing" ==> Find(CreatedEdit(st, n, now).conditions, k) == Find(st.conditions, k)
  {
    PutMeans(st.(current := n, phase := Progressing), "Progressing", True, "Creating", "GameServer created", now);
  }

  /** After a failed GameServer the name is cleared and the phase is Progressing; all else stays. */
  lemma ResetMeans(st: FleetStatus)
    ensures var a := ResetEdit(st);
            && a.current == "" && a.phase == Progressing
            && a.readyReplicas == st.readyReplicas && a.observedGeneration == st.observedGeneration
            && a.history == st.history && a.conditions == st.conditions
  {
  }

  // ---- what is stored ----

  /** In every reachable state: at most one ready replica; Available and Degraded go with their replica count and
      conditions; Failed is never stored; the current name is the fleet's one name; condition, status and object
      generations are in order. */
  lemma StoredFleetStatus(cfg: Config, s: State, f: Name)
    requires Inv(cfg, s) && f in s.w.fleets
    ensures var fleet := s.w.fleets[f]; var st := fleet.status;
            && (st.readyReplicas == 0 || st.readyReplicas == 1)
            && (st.phase == Available ==>
                  st.readyReplicas == 1 && Shows(st, "Available", True) && Shows(st, "Progressing", False))
            && (st.phase == Degraded ==>
                  st.readyReplicas == 0 && Shows(st, "Degraded", True) && Shows(st, "Available", False))
            && st.phase != FleetFailed && (st.current == "" || st.current == OwnedName(f))
            && Unique(st.conditions) && st.observedGeneration <= fleet.generation
            && forall i :: 0 <= i < |st.conditions| ==> st.conditions[i].observedGeneration <= st.observedGeneration
  {
    hide ComputeTemplateHash;
    assert FleetOk(cfg, s, f);
  }

  // ---- the Degraded condition ----

  /** The action is a stored sync of fleet `f` with a GameServer that was not ready. */
  predicate SawUnready(a: Action, f: Name) {
    a.FleetCtl? && a.f == f && a.fact.SyncStatus? && !a.fact.gs.ready
  }

  lemma OtherEdits(st: FleetStatus, n: Name, from: string, to: string, now: nat)
    ensures Shows(StartEdit(st, from, to, now), "Degraded", True) == Shows(st, "Degraded", True)
    ensures Shows(CreatedEdit(st, n, now), "Degraded", True) == Shows(st, "Degraded", True)
    ensures Shows(ResetEdit(st), "Degraded", True) == Shows(st, "Degraded", True)
  {
    KindsDistinct();
    StartMeans(st, from, to, now);
    PutMeans(st.(current := n, phase := Progressing), "Progressing", True, "Creating", "GameServer created", now);
  }

  lemma DegradedByFleet(cfg: Config, s: State, f: Name, act: FleetAct, t: State)
    requires FleetStep(cfg, s, f, act, t) && FleetTarget(FleetCtl(f, act)) == Some(f)
    requires f in s.w.fleets && f in t.w.fleets
    ensures Shows(t.w.fleets[f].status, "Degraded", True)
            <==> Shows(s.w.fleets[f].status, "Degraded", True) || SawUnready(FleetCtl(f, act), f)
  {
    hide ComputeTemplateHash, SyncEdit, StartEdit, CompleteEdit, CreatedEdit, ResetEdit, LastTime, CloseLast,
      NoneOwned, Without, Shows;
    KindsDistinct();
    var fleet := s.w.fleets[f];
    OtherEdits(fleet.status, OwnedName(f), "", "", 0);
    match act
    case SyncStatus(gs, now) => SyncMeans(fleet.status, fleet.generation, gs, now);
    case StartStatus(from, now) => OtherEdits(fleet.status, OwnedName(f), from, fleet.template.spec.version, now);
    case CreatedStatus(now) => OtherEdits(fleet.status, OwnedName(f), "", "", now);
    case CompleteStatus(gs, unsynced, version, now) =>
      var synced := if unsynced == None then fleet.status
                    else SyncEdit(fleet.status, fleet.generation, Some(gs), unsynced.value);
      if unsynced != None {
        SyncMeans(fleet.status, fleet.generation, gs, unsynced.value);
      }
      DegradedAfterComplete(synced, fleet.generation, OwnedName(f), version, now);
    case _ =>
  }

  lemma DegradedAfterComplete(st: FleetStatus, generation: int, n: Name, version: string, now: nat)
    ensures Shows(CompleteEdit(st, generation, n, version, now), "Degraded", True) == Shows(st, "Degraded", True)
  {
    KindsDistinct();
    CompleteMeans(st, generation, n, version, now);
  }

  /** One step: Degraded becomes True by a sync with an unready GameServer, and in no other way changes. */
  lemma DegradedNext(cfg: Config, s: State, a: Action, t: State, f: Name)
    requires Step(cfg, s, a, t) && f in s.w.fleets && f in t.w.fleets
    ensures Shows(t.w.fleets[f].status, "Degraded", True)
            <==> Shows(s.w.fleets[f].status, "Degraded", True) || SawUnready(a, f)
  {
    hide FleetStep, ServerStep, ComputeTemplateHash, Shows;
    if FleetTarget(a) == Some(f) {
      if a.FleetCtl? {
        DegradedByFleet(cfg, s, f, a.fact, t);
      }
    } else {
      FleetsUntouched(cfg, s, a, t);
    }
  }

  /** Over any run on the same fleet: Degraded is True at the end exactly if it was at the beginning or some stored
      sync saw the GameServer not ready. Nothing ever sets it back. */
  lemma {:induction false} DegradedExactly(cfg: Config, path: seq<State>, acts: seq<Action>, f: Name, j: nat)
    requires Runs(cfg, path, acts) && j < |path|
    requires forall i :: 0 <= i < |path| ==> f in path[i].w.fleets
    ensures Shows(path[j].w.fleets[f].status, "Degraded", True)
            <==> Shows(path[0].w.fleets[f].status, "Degraded", True) || exists i :: 0 <= i < j && SawUnready(acts[i], f)
    decreases j
  {
    hide Step, Shows, SawUnready;
    if j != 0 {
      DegradedExactly(cfg, path, acts, f, j - 1);
      DegradedNext(cfg, path[j - 1], acts[j - 1], path[j], f);
    }
  }

  /** Once a fleet's Degraded condition is True it stays True, whatever becomes of the GameServer. */
  lemma {:induction false} DegradedSticks(cfg: Config, path: seq<State>, acts: seq<Action>, f: Name, j: nat)
    requires Runs(cfg, path, acts) && Inv(cfg, path[0]) && j < |path|
    requires forall i :: 0 <= i < |path| ==> f in path[i].w.fleets
    requires Shows(path[0].w.fleets[f].status, "Degraded", True)
    ensures Shows(path[j].w.fleets[f].status, "Degraded", True)
    ensures path[0].w.fleets[f].status.observedGeneration <= path[j].w.fleets[f].status.observedGeneration
    decreases j
  {
    hide Inv, Step;
    if j != 0 {
      DegradedSticks(cfg, path, acts, f, j - 1);
      RunKeeps(cfg, path, acts, j - 1);
      StepFleetNext(cfg, path[j - 1], acts[j - 1], path[j], f);
    }
  }

  /** What the documentation promises, after a stored sync: Degraded says that the GameServer is not ready exactly if
      it is not ready or the condition was not True before. Otherwise the fleet is Available and degraded at once. */
  lemma DegradedFollows(cfg: Config, s: State, f: Name, gs: ServerStatus, now: nat, t: State)
    requires FSyncStatus(cfg, s, f, gs, now, t)
    ensures f in s.w.fleets && f in t.w.fleets
    ensures (Shows(t.w.fleets[f].status, "Degraded", True) <==> !gs.ready)
            <==> !gs.ready || !Shows(s.w.fleets[f].status, "Degraded", True)
    ensures gs.ready ==> t.w.fleets[f].status.phase == Available && Shows(t.w.fleets[f].status, "Available", True)
  {
    hide ComputeTemplateHash, SyncEdit;
    SyncMeans(s.w.fleets[f].status, s.w.fleets[f].generation, gs, now);
  }
}

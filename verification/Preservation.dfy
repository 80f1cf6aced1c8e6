/** Every action keeps the invariants. */
module Preservation {
  import opened Types
  import opened Conditions
  import opened Live
  import opened Webhook
  import opened TemplateHash
  import opened Builders
  import opened Store
  import opened Actions
  import opened Invariants

  // ---- GameServer objects ----

  lemma ReadyPutOk(cfg: Config, gs: GameServer, phase: ServerPhase, ready: bool, reason: string, message: string,
                   now: nat)
    requires PhaseOk(cfg, gs)
    requires PhaseOk(cfg, gs.(status := gs.status.(phase := phase, ready := false, conditions := [])))
    requires ready ==> phase == Running || phase == Stopping
    ensures PhaseOk(cfg, gs.(status := ReadyPut(gs.status.(phase := phase), ready, reason, message, now)))
  {
    var c := Condition("Ready", TruthOf(ready), reason, message, gs.status.observedGeneration, now);
    PutObserved(gs.status.conditions, c, gs.status.observedGeneration, gs.generation);
    PutKeepsOrder(gs.status.conditions, c);
    PutIsMapUpdate(gs.status.conditions, c, "Ready");
  }

  lemma ProbeOk(cfg: Config, gs: GameServer, probe: Probe, observe: bool, now: nat)
    requires PhaseOk(cfg, gs) && gs.spec.gameType in cfg.registered && !gs.deleting
    ensures PhaseOk(cfg, gs.(status := ProbeEdit(gs.status, gs.generation, probe, observe, now)))
  {
    var st := gs.status;
    var a := if st.phase == Unset || st.phase == ServerPhase.Pending then st.(phase := Provisioning) else st;
    var b := gs.(status := a);
    assert PhaseOk(cfg, b);
    if probe.Probe? {
      ReadyPutOk(cfg, b, if probe.ready then Running else a.phase, probe.ready, probe.reason, probe.message, now);
    }
  }

  lemma UnregisteredOk(cfg: Config, gs: GameServer, message: string, now: nat)
    requires PhaseOk(cfg, gs) && gs.spec.gameType !in cfg.registered && !gs.deleting
    ensures PhaseOk(cfg, gs.(status := UnregisteredEdit(gs.status, message, now)))
  {
    ReadyPutOk(cfg, gs, Failed, false, "AdapterNotFound", message, now);
  }

  // ---- GameServer controller ----

  lemma AddFinalizerKeeps(cfg: Config, s: State, n: Name, t: State)
    requires Inv(cfg, s) && SAddFinalizer(s, n, t)
    ensures Inv(cfg, t)
  {
    assert ServerOk(cfg, s, n);
    var gs := s.w.servers[n];
    ServerWrite(cfg, s, t, n, gs.(version := s.w.revision + 1, finalizers := gs.finalizers + [SERVER_FINALIZER]));
  }

  lemma StatusKeeps(cfg: Config, s: State, n: Name, after: ServerStatus, t: State)
    requires Inv(cfg, s) && SStatus(s, n, after, t)
    requires PhaseOk(cfg, s.w.servers[n].(status := after))
    ensures Inv(cfg, t)
  {
    assert ServerOk(cfg, s, n);
    var gs := s.w.servers[n];
    ServerWrite(cfg, s, t, n, gs.(version := s.w.revision + 1, status := after));
  }

  lemma UnregisteredKeeps(cfg: Config, s: State, n: Name, message: string, now: nat, t: State)
    requires Inv(cfg, s) && SUnregistered(cfg, s, n, message, now, t)
    ensures Inv(cfg, t)
  {
    assert ServerOk(cfg, s, n) && PassOk(s, n);
    UnregisteredOk(cfg, s.w.servers[n], message, now);
    StatusKeeps(cfg, s, n, UnregisteredEdit(s.w.servers[n].status, message, now), t);
  }

  lemma ProbeKeeps(cfg: Config, s: State, n: Name, probe: Probe, observe: bool, now: nat, t: State)
    requires Inv(cfg, s) && SProbe(cfg, s, n, probe, observe, now, t)
    ensures Inv(cfg, t)
  {
    assert ServerOk(cfg, s, n) && PassOk(s, n);
    ProbeOk(cfg, s.w.servers[n], probe, observe, now);
    StatusKeeps(cfg, s, n, ProbeEdit(s.w.servers[n].status, s.w.servers[n].generation, probe, observe, now), t);
  }

  lemma StoppingKeeps(cfg: Config, s: State, n: Name, t: State)
    requires Inv(cfg, s) && SStopping(s, n, t)
    ensures Inv(cfg, t)
  {
    assert ServerOk(cfg, s, n);
    StatusKeeps(cfg, s, n, s.w.servers[n].status.(phase := Stopping), t);
  }

  lemma ReleaseServerKeeps(cfg: Config, s: State, n: Name, t: State)
    requires Inv(cfg, s) && SRelease(s, n, t)
    ensures Inv(cfg, t)
  {
    assert ServerOk(cfg, s, n);
    var gs := s.w.servers[n];
    ServerWrite(cfg, s, t, n, gs.(version := s.w.revision + 1, finalizers := Without(gs.finalizers, SERVER_FINALIZER)));
  }

  lemma CreateSetKeeps(cfg: Config, s: State, n: Name, t: State)
    requires Inv(cfg, s) && SCreateSet(cfg, s, n, t)
    ensures Inv(cfg, t)
  {
    assert SetOk(s, n) && PassOk(s, n);
    SetWrite(cfg, s, t, n);
  }

  lemma SyncSetKeeps(cfg: Config, s: State, n: Name, t: State)
    requires Inv(cfg, s) && SSyncSet(cfg, s, n, t)
    ensures Inv(cfg, t)
  {
    assert SetOk(s, n) && PassOk(s, n);
    SetWrite(cfg, s, t, n);
  }

  lemma ScaleDownKeeps(cfg: Config, s: State, n: Name, t: State)
    requires Inv(cfg, s) && SScaleDown(s, n, t)
    ensures Inv(cfg, t)
  {
    assert SetOk(s, n) && PassOk(s, n);
    SetWrite(cfg, s, t, n);
  }

  lemma ServeKeeps(cfg: Config, s: State, n: Name, name: Name, svc: Service, t: State)
    requires Inv(cfg, s) && SServe(s, n, name, svc, t)
    ensures Inv(cfg, t)
  {
    ServiceWrite(cfg, s, t, name);
  }

  lemma ServerPassKeeps(cfg: Config, s: State, n: Name, t: State)
    requires Inv(cfg, s) && (SBegin(s, n, t) || SEnd(s, n, t))
    ensures Inv(cfg, t)
  {
    assert ServerOk(cfg, s, n) && SetOk(s, n);
    forall f ensures SnapOk(cfg, t, f) { assert SnapOk(cfg, s, f); }
    forall m ensures PassOk(t, m) { assert PassOk(s, m); }
    Bookkeeping(cfg, s, t);
  }

  lemma ServerStepKeeps(cfg: Config, s: State, n: Name, act: ServerAct, t: State)
    requires Inv(cfg, s) && ServerStep(cfg, s, n, act, t)
    ensures Inv(cfg, t)
  {
    hide Inv, SBegin, SEnd, SAddFinalizer, SUnregistered, SProbe, SCreateSet, SSyncSet, SServe, SScaleDown, SStopping,
      SRelease;
    match act
    case BeginServer => ServerPassKeeps(cfg, s, n, t);
    case EndServer => ServerPassKeeps(cfg, s, n, t);
    case AddServerFinalizer => AddFinalizerKeeps(cfg, s, n, t);
    case MarkUnregistered(message, now) => UnregisteredKeeps(cfg, s, n, message, now, t);
    case Report(probe, observe, now) => ProbeKeeps(cfg, s, n, probe, observe, now, t);
    case MakeSet => CreateSetKeeps(cfg, s, n, t);
    case Resync => SyncSetKeeps(cfg, s, n, t);
    case Serve(name, svc) => ServeKeeps(cfg, s, n, name, svc, t);
    case ScaleDown => ScaleDownKeeps(cfg, s, n, t);
    case MarkStopping => StoppingKeeps(cfg, s, n, t);
    case ReleaseServer => ReleaseServerKeeps(cfg, s, n, t);
  }

  // ---- the fleet's GameServer ----

  lemma CreateGsKeeps(cfg: Config, s: State, f: Name, t: State)
    requires Inv(cfg, s) && FCreateGs(cfg, s, f, t)
    ensures Inv(cfg, t)
  {
    hide ComputeTemplateHash;
    assert SnapOk(cfg, s, f) && FleetOk(cfg, s, f);
    var b := BuildServer(cfg, f, Wanted(s, f));
    var r := s.w.revision + 1;
    StampedWrite(cfg, s, t, f,
                 GameServer(r, r, 1, [], false, b.labels, b.annotations, DefaultSpec(b.spec), NEW_STATUS), 0);
  }

  /** An in-place update writes the pass's template over the fleet's GameServer and stamps its hash;
      the stamp moves strictly forward in the hash log. */
  lemma UpdateGsWrite(cfg: Config, s: State, f: Name, t: State) returns (gs: GameServer)
    requires Inv(cfg, s) && FUpdateGs(cfg, s, f, t)
    ensures t == State(PutServer(s.w, OwnedName(f), gs), Stamped(s, f, 1))
    ensures Successor(s, OwnedName(f), gs) && Stored(gs.spec) && gs.spec == DefaultSpec(Wanted(s, f).spec)
    ensures LabelOf(gs.labels) == Some(f) && HashOf(gs.annotations) == ComputeTemplateHash(cfg, Wanted(s, f))
    ensures gs.status == s.w.servers[OwnedName(f)].status && gs.generation >= s.w.servers[OwnedName(f)].generation
    ensures gs.deleting == s.w.servers[OwnedName(f)].deleting && gs.finalizers == s.w.servers[OwnedName(f)].finalizers
  {
    hide ComputeTemplateHash;
    var n := OwnedName(f);
    var obj := Redeploy(cfg, f, s.w.servers[n], Wanted(s, f));
    DefaultIdempotent(obj.spec);
    var before, spec := s.w.servers[n], DefaultSpec(obj.spec);
    gs := before.(version := s.w.revision + 1,
                  generation := if spec == before.spec then before.generation else before.generation + 1,
                  finalizers := obj.finalizers, labels := obj.labels, annotations := obj.annotations, spec := spec);
  }

  lemma StampMoves(cfg: Config, s: State, f: Name, t: State)
    requires Inv(cfg, s) && FUpdateGs(cfg, s, f, t)
    ensures s.l.logs[f].writes + 1 <= s.l.fleetPass[f].epoch && s.l.logs[f].stamp < s.l.fleetPass[f].epoch
  {
    hide ComputeTemplateHash, UpdateServer, PutServer;
    assert SnapOk(cfg, s, f) && FleetOk(cfg, s, f) && ServerOk(cfg, s, OwnedName(f));
  }

  lemma UpdateGsKeeps(cfg: Config, s: State, f: Name, t: State)
    requires Inv(cfg, s) && FUpdateGs(cfg, s, f, t)
    ensures Inv(cfg, t)
  {
    StampMoves(cfg, s, f, t);
    var gs := UpdateGsWrite(cfg, s, f, t);
    UpdatedOk(cfg, s, f, t, gs);
    StampedWrite(cfg, s, t, f, gs, 1);
  }

  lemma UpdatedOk(cfg: Config, s: State, f: Name, t: State, gs: GameServer)
    requires Inv(cfg, s) && Steady(s, f) && OwnedBy(s.w, f, OwnedName(f))
    requires t == State(PutServer(s.w, OwnedName(f), gs), Stamped(s, f, 1))
    requires Successor(s, OwnedName(f), gs) && Stored(gs.spec)
    requires LabelOf(gs.labels) == Some(f) && HashOf(gs.annotations) == ComputeTemplateHash(cfg, Wanted(s, f))
    requires gs.status == s.w.servers[OwnedName(f)].status && gs.generation >= s.w.servers[OwnedName(f)].generation
    requires gs.deleting == s.w.servers[OwnedName(f)].deleting && gs.finalizers == s.w.servers[OwnedName(f)].finalizers
    ensures ServerOk(cfg, t, OwnedName(f))
  {
    assert SnapOk(cfg, s, f) && ServerOk(cfg, s, OwnedName(f));
  }

  lemma PatchHashKeeps(cfg: Config, s: State, f: Name, t: State)
    requires Inv(cfg, s) && FPatchHash(cfg, s, f, t)
    ensures Inv(cfg, t)
  {
    hide ComputeTemplateHash;
    var n := OwnedName(f);
    assert ServerOk(cfg, s, n);
    var before := s.w.servers[n];
    var gs := before.(version := s.w.revision + 1,
                      annotations := before.annotations[HASH_ANNOTATION := ComputeTemplateHash(cfg, Wanted(s, f))]);
    assert t.w == PutServer(s.w, n, gs);
    if OwnedBy(s.w, f, n) {
      PatchOwned(cfg, s, f, t, gs);
    } else {
      if LabelOf(gs.labels).Some? {
        OwnedNameInjective(f, LabelOf(gs.labels).value);
      }
      ServerWrite(cfg, s, t, n, gs);
    }
  }

  lemma PatchOwned(cfg: Config, s: State, f: Name, t: State, gs: GameServer)
    requires Inv(cfg, s) && Steady(s, f) && OwnedBy(s.w, f, OwnedName(f))
    requires t == State(PutServer(s.w, OwnedName(f), gs), Stamped(s, f, 0))
    requires var before := s.w.servers[OwnedName(f)];
             gs == before.(version := s.w.revision + 1,
                           annotations := before.annotations[HASH_ANNOTATION := ComputeTemplateHash(cfg, Wanted(s, f))])
    ensures Inv(cfg, t)
  {
    hide ComputeTemplateHash;
    assert SnapOk(cfg, s, f) && FleetOk(cfg, s, f) && ServerOk(cfg, s, OwnedName(f));
    StampedWrite(cfg, s, t, f, gs, 0);
  }

  lemma DeleteKeeps(cfg: Config, s: State, n: Name, t: State)
    requires Inv(cfg, s) && Done(DeleteServer(s.w, n), t) && t.l == s.l
    ensures Inv(cfg, t)
  {
    assert ServerOk(cfg, s, n);
    if !s.w.servers[n].deleting {
      var gs := s.w.servers[n];
      ServerWrite(cfg, s, t, n, gs.(version := s.w.revision + 1, deleting := true, generation := gs.generation + 1));
    }
  }

  lemma StripGsKeeps(cfg: Config, s: State, f: Name, t: State)
    requires Inv(cfg, s) && FStripGs(s, f, t)
    ensures Inv(cfg, t)
  {
    var n := OwnedName(f);
    assert ServerOk(cfg, s, n);
    var gs := s.w.servers[n];
    ServerWrite(cfg, s, t, n, gs.(version := s.w.revision + 1, finalizers := Without(gs.finalizers, SERVER_FINALIZER)));
  }

  // ---- fleet status ----

  lemma FleetPutOk(f: Name, fleet: Fleet, st: FleetStatus, kind: string, t: Truth, reason: string, message: string,
                   now: nat)
    requires Unique(st.conditions) && Observed(st.conditions, st.observedGeneration, fleet.generation)
    ensures var after := FleetPut(st, kind, t, reason, message, now);
            && Unique(after.conditions) && Observed(after.conditions, st.observedGeneration, fleet.generation)
            && Shows(after, kind, t)
            && forall k, u :: k != kind && Shows(st, k, u) ==> Shows(after, k, u)
  {
    var c := Condition(kind, t, reason, message, st.observedGeneration, now);
    PutObserved(st.conditions, c, st.observedGeneration, fleet.generation);
    PutKeepsOrder(st.conditions, c);
    PutIsMapUpdate(st.conditions, c, kind);
    forall k, u | k != kind && Shows(st, k, u) ensures Shows(FleetPut(st, kind, t, reason, message, now), k, u) {
      PutIsMapUpdate(st.conditions, c, k);
    }
  }

  lemma KindsDistinct()
    ensures "Available" != "Progressing" && "Available" != "Degraded" && "Progressing" != "Degraded"
  {
    assert |"Available"| == 9 && |"Progressing"| == 11 && |"Degraded"| == 8;
  }

  /** A sync with a GameServer that is not Failed leaves a coherent status, whatever it was. */
  lemma SyncOk(f: Name, fleet: Fleet, gs: ServerStatus, now: nat)
    requires FleetStatusOk(f, fleet) && gs.phase != Failed
    ensures FleetStatusOk(f, fleet.(status := SyncEdit(fleet.status, fleet.generation, Some(gs), now)))
    ensures SyncEdit(fleet.status, fleet.generation, Some(gs), now).history == fleet.status.history
    ensures SyncEdit(fleet.status, fleet.generation, Some(gs), now).observedGeneration == fleet.generation
  {
    KindsDistinct();
    var st := fleet.status;
    if gs.ready {
      var a := st.(readyReplicas := 1, phase := Available);
      FleetPutOk(f, fleet, a, "Available", True, "Available", "GameServer is ready", now);
      var b := FleetPut(a, "Available", True, "Available", "GameServer is ready", now);
      FleetPutOk(f, fleet, b, "Progressing", False, "Available", "GameServer is ready", now);
    } else {
      var a := st.(readyReplicas := 0, phase := FleetPhase.Degraded);
      FleetPutOk(f, fleet, a, "Degraded", True, "GameServerNotReady", "GameServer is not ready", now);
      var b := FleetPut(a, "Degraded", True, "GameServerNotReady", "GameServer is not ready", now);
      FleetPutOk(f, fleet, b, "Available", False, "NotAvailable", "GameServer is not ready", now);
    }
  }

  lemma StartOk(f: Name, fleet: Fleet, from: string, to: string, now: nat)
    requires FleetStatusOk(f, fleet)
    ensures FleetStatusOk(f, fleet.(status := StartEdit(fleet.status, from, to, now)))
  {
    var st := fleet.status;
    var a := st.(phase := Progressing, history := st.history + [Rollout(now, None, from, to, "", "")]);
    FleetPutOk(f, fleet, a, "Progressing", True, "Updating", "GameServer spec updated", now);
  }

  lemma CompleteOk(f: Name, fleet: Fleet, version: string, now: nat)
    requires FleetStatusOk(f, fleet)
    ensures FleetStatusOk(f, fleet.(status := CompleteEdit(fleet.status, fleet.generation, OwnedName(f), version, now)))
  {
    KindsDistinct();
    var a := fleet.status.(phase := Available, current := OwnedName(f), readyReplicas := 1);
    FleetPutOk(f, fleet, a, "Available", True, "Available", "GameServer is ready", now);
    var b := FleetPut(a, "Available", True, "Available", "GameServer is ready", now);
    FleetPutOk(f, fleet, b, "Progressing", False, "Available", "Rolling update completed", now);
  }

  lemma CreatedOk(f: Name, fleet: Fleet, now: nat)
    requires FleetStatusOk(f, fleet)
    ensures FleetStatusOk(f, fleet.(status := CreatedEdit(fleet.status, OwnedName(f), now)))
  {
    var a := fleet.status.(current := OwnedName(f), phase := Progressing);
    FleetPutOk(f, fleet, a, "Progressing", True, "Creating", "GameServer created", now);
  }

  // ---- rollout history ----

  lemma TimelineSnoc(h: seq<Rollout>, r: Rollout, now: nat)
    requires Timeline(h, now) && RecordOk(r, now) && LastTime(h) <= r.startedAt
    ensures Timeline(h + [r], now)
  {
    var k := h + [r];
    forall i | 0 < i < |k| ensures LastTime(k[..i]) <= k[i].startedAt {
      assert k[..i] == if i < |h| then h[..i] else h;
    }
  }

  lemma LastTimeBounded(h: seq<Rollout>, now: nat)
    requires Timeline(h, now)
    ensures LastTime(h) <= now
    ensures h != [] ==> h[|h| - 1].startedAt <= LastTime(h)
  {
  }

  lemma TimelineClose(h: seq<Rollout>, version: string, t: nat, now: nat)
    requires Timeline(h, now) && LastTime(h) <= t <= now
    ensures Timeline(CloseLast(h, version, t), now)
  {
    if h != [] {
      var k := CloseLast(h, version, t);
      LastTimeBounded(h, now);
      forall i | 0 < i < |k| ensures LastTime(k[..i]) <= k[i].startedAt {
        assert k[..i] == h[..i];
      }
    }
  }

  lemma SuffixLast(h: seq<Rollout>, all: seq<Rollout>)
    requires Suffix(h, all) && h != []
    ensures LastTime(h) == LastTime(all) && h[|h| - 1] == all[|all| - 1]
  {
  }

  /** A start record goes to the end of both the stored history and the log. */
  lemma HistoryStart(cfg: Config, now: nat, h: seq<Rollout>, all: seq<Rollout>, r: Rollout)
    requires HistoryOk(cfg, now, h, all) && RecordOk(r, now) && LastTime(h) <= r.startedAt
    requires cfg.capHistory ==> |h| < 10
    ensures HistoryOk(cfg, now, h + [r], all + [r])
  {
    if h != [] {
      SuffixLast(h, all);
    }
    TimelineSnoc(all, r, now);
    assert (all + [r])[|all + [r]| - |h + [r]|..] == all[|all| - |h|..] + [r];
  }

  /** Completion closes the last record of both and keeps the last ten. */
  lemma HistoryComplete(cfg: Config, now: nat, h: seq<Rollout>, all: seq<Rollout>, version: string, t: nat)
    requires HistoryOk(cfg, now, h, all) && LastTime(h) <= t <= now
    ensures HistoryOk(cfg, now, LastTen(CloseLast(h, version, t)), if h == [] then all else CloseLast(all, version, t))
  {
    if h != [] {
      SuffixLast(h, all);
      TimelineClose(all, version, t, now);
      var c, d := CloseLast(h, version, t), CloseLast(all, version, t);
      assert d[|d| - |c|..] == c;
      assert d[|d| - |LastTen(c)|..] == LastTen(c);
    }
  }

  // ---- fleet writes ----

  lemma FleetStatusKeeps(cfg: Config, s: State, f: Name, after: FleetStatus, log: FleetLog, t: State)
    requires Inv(cfg, s) && FStatus(cfg, s, f, after, t)
    requires t.l == s.l.(logs := s.l.logs[f := log])
    requires log == s.l.logs[f].(rollouts := log.rollouts)
    requires FleetStatusOk(f, s.w.fleets[f].(status := after))
    requires HistoryOk(cfg, s.w.now, after.history, log.rollouts)
    ensures Inv(cfg, t)
  {
    hide ComputeTemplateHash, Timeline;
    assert FleetOk(cfg, s, f);
    var fleet := s.w.fleets[f].(version := s.w.revision + 1, status := after);
    FleetWrite(cfg, s, t, f, fleet, log);
  }

  lemma SameLog(s: State, f: Name)
    requires f in s.l.logs
    ensures s.l == s.l.(logs := s.l.logs[f := s.l.logs[f]])
  {
    assert s.l.logs == s.l.logs[f := s.l.logs[f]];
  }

  lemma SyncStatusKeeps(cfg: Config, s: State, f: Name, gs: ServerStatus, now: nat, t: State)
    requires Inv(cfg, s) && FSyncStatus(cfg, s, f, gs, now, t)
    ensures Inv(cfg, t)
  {
    assert FleetOk(cfg, s, f);
    var fleet := s.w.fleets[f];
    SyncOk(f, fleet, gs, now);
    SameLog(s, f);
    FleetStatusKeeps(cfg, s, f, SyncEdit(fleet.status, fleet.generation, Some(gs), now), s.l.logs[f], t);
  }

  lemma StartStatusKeeps(cfg: Config, s: State, f: Name, from: string, now: nat, t: State)
    requires Inv(cfg, s) && FStartStatus(cfg, s, f, from, now, t)
    ensures Inv(cfg, t)
  {
    assert FleetOk(cfg, s, f);
    var fleet := s.w.fleets[f];
    var to := fleet.template.spec.version;
    var r := Rollout(now, None, from, to, "", "");
    StartOk(f, fleet, from, to, now);
    HistoryStart(cfg, s.w.now, fleet.status.history, s.l.logs[f].rollouts, r);
    FleetStatusKeeps(cfg, s, f, StartEdit(fleet.status, from, to, now),
                     s.l.logs[f].(rollouts := s.l.logs[f].rollouts + [r]), t);
  }

  lemma CompleteStatusKeeps(cfg: Config, s: State, f: Name, gs: ServerStatus, unsynced: Option<nat>, version: string,
                            now: nat, t: State)
    requires Inv(cfg, s) && FCompleteStatus(cfg, s, f, gs, unsynced, version, now, t)
    ensures Inv(cfg, t)
  {
    assert FleetOk(cfg, s, f);
    var fleet := s.w.fleets[f];
    var synced := if unsynced == None then fleet.status
                  else SyncEdit(fleet.status, fleet.generation, Some(gs), unsynced.value);
    if unsynced != None {
      SyncOk(f, fleet, gs, unsynced.value);
    }
    CompleteOk(f, fleet.(status := synced), version, now);
    HistoryComplete(cfg, s.w.now, fleet.status.history, s.l.logs[f].rollouts, version, now);
    SameLog(s, f);
    var log := if fleet.status.history == [] then s.l.logs[f]
               else s.l.logs[f].(rollouts := CloseLast(s.l.logs[f].rollouts, version, now));
    FleetStatusKeeps(cfg, s, f, CompleteEdit(synced, fleet.generation, OwnedName(f), version, now), log, t);
  }

  lemma CreatedStatusKeeps(cfg: Config, s: State, f: Name, now: nat, t: State)
    requires Inv(cfg, s) && FCreatedStatus(cfg, s, f, now, t)
    ensures Inv(cfg, t)
  {
    assert FleetOk(cfg, s, f);
    CreatedOk(f, s.w.fleets[f], now);
    SameLog(s, f);
    FleetStatusKeeps(cfg, s, f, CreatedEdit(s.w.fleets[f].status, OwnedName(f), now), s.l.logs[f], t);
  }

  lemma ResetStatusKeeps(cfg: Config, s: State, f: Name, t: State)
    requires Inv(cfg, s) && FResetStatus(cfg, s, f, t)
    ensures Inv(cfg, t)
  {
    assert FleetOk(cfg, s, f);
    SameLog(s, f);
    FleetStatusKeeps(cfg, s, f, ResetEdit(s.w.fleets[f].status), s.l.logs[f], t);
  }

  lemma FleetFinalizersKeep(cfg: Config, s: State, f: Name, finalizers: seq<string>, t: State)
    requires Inv(cfg, s) && f in s.w.fleets
    requires Done(UpdateFleet(s.w, f, s.w.fleets[f].(finalizers := finalizers)), t) && t.l == s.l
    requires FLEET_FINALIZER in finalizers || (NoneOwned(s.w, f) && f !in s.l.fleetPass)
    ensures Inv(cfg, t)
  {
    assert FleetOk(cfg, s, f);
    SameLog(s, f);
    var fleet := s.w.fleets[f].(version := s.w.revision + 1, finalizers := finalizers);
    FleetWrite(cfg, s, t, f, fleet, s.l.logs[f]);
  }

  lemma FleetPassKeeps(cfg: Config, s: State, f: Name, t: State)
    requires Inv(cfg, s) && (FBegin(s, f, t) || FEnd(s, f, t))
    ensures Inv(cfg, t)
  {
    assert FleetOk(cfg, s, f);
    forall g ensures SnapOk(cfg, t, g) { assert SnapOk(cfg, s, g); }
    forall m ensures PassOk(t, m) { assert PassOk(s, m); }
    Bookkeeping(cfg, s, t);
  }

  lemma FleetServiceKeeps(cfg: Config, s: State, f: Name, t: State)
    requires Inv(cfg, s)
    requires FDropService(s, f, t) || exists svc, gameType :: FServe(s, f, svc, gameType, t)
    ensures Inv(cfg, t)
  {
    ServiceWrite(cfg, s, t, f);
  }

  lemma FleetStepKeeps(cfg: Config, s: State, f: Name, act: FleetAct, t: State)
    requires Inv(cfg, s) && FleetStep(cfg, s, f, act, t)
    ensures Inv(cfg, t)
  {
    hide Inv, FBegin, FEnd, FCreateGs, FUpdateGs, FPatchHash, FStartStatus, FSyncStatus, FCreatedStatus, FResetStatus,
      FServe, FStripGs, FDropService, UpdateFleet, DeleteServer;
    match act
    case Begin => FleetPassKeeps(cfg, s, f, t);
    case End => FleetPassKeeps(cfg, s, f, t);
    case AddFinalizer => FleetFinalizersKeep(cfg, s, f, s.w.fleets[f].finalizers + [FLEET_FINALIZER], t);
    case CreateGs => CreateGsKeeps(cfg, s, f, t);
    case UpdateGs => UpdateGsKeeps(cfg, s, f, t);
    case PatchHash => PatchHashKeeps(cfg, s, f, t);
    case DeleteFailed => DeleteKeeps(cfg, s, OwnedName(f), t);
    case SyncStatus(gs, now) => SyncStatusKeeps(cfg, s, f, gs, now, t);
    case StartStatus(from, now) => StartStatusKeeps(cfg, s, f, from, now, t);
    case CompleteStatus(gs, unsynced, version, now) => CompleteStatusKeeps(cfg, s, f, gs, unsynced, version, now, t);
    case CreatedStatus(now) => CreatedStatusKeeps(cfg, s, f, now, t);
    case ResetStatus => ResetStatusKeeps(cfg, s, f, t);
    case ServeFleet(svc, gameType) => FleetServiceKeeps(cfg, s, f, t);
    case StripGs => StripGsKeeps(cfg, s, f, t);
    case DeleteGs => DeleteKeeps(cfg, s, OwnedName(f), t);
    case DropService => FleetServiceKeeps(cfg, s, f, t);
    case Release => FleetFinalizersKeep(cfg, s, f, Without(s.w.fleets[f].finalizers, FLEET_FINALIZER), t);
  }

  // ---- everybody else ----

  lemma TickKeeps(cfg: Config, s: State, d: nat, t: State)
    requires Inv(cfg, s) && ETick(s, d, t)
    ensures Inv(cfg, t)
  {
    forall f ensures SnapOk(cfg, t, f) { assert SnapOk(cfg, s, f); }
    forall n ensures PassOk(t, n) { assert PassOk(s, n); }
    Bookkeeping(cfg, s, t);
  }

  lemma MoveSetKeeps(cfg: Config, s: State, n: Name, replicas: int, ready: int, t: State)
    requires Inv(cfg, s) && EMoveSet(s, n, replicas, ready, t)
    ensures Inv(cfg, t)
  {
    assert SetOk(s, n) && PassOk(s, n);
    SetWrite(cfg, s, t, n);
  }

  lemma CollectSetKeeps(cfg: Config, s: State, n: Name, t: State)
    requires Inv(cfg, s) && ECollectSet(s, n, t)
    ensures Inv(cfg, t)
  {
    assert SetOk(s, n) && PassOk(s, n);
    SetWrite(cfg, s, t, n);
  }

  lemma CreateFleetKeeps(cfg: Config, s: State, f: Name, template: Template, finalizers: seq<string>, t: State)
    requires Inv(cfg, s) && ECreateFleet(cfg, s, f, template, finalizers, t)
    ensures Inv(cfg, t)
  {
    FleetWrite(cfg, s, t, f, NewFleet(s.w, template, finalizers), t.l.logs[f]);
  }

  lemma RehashOk(cfg: Config, log: FleetLog, before: Template, template: Template)
    requires LogOk(cfg, log, before)
    ensures LogOk(cfg, Rehash(log, ComputeTemplateHash(cfg, template)), template)
    ensures LogGrows(log, Rehash(log, ComputeTemplateHash(cfg, template)))
  {
    hide ComputeTemplateHash;
  }

  lemma EditFleetKeeps(cfg: Config, s: State, f: Name, template: Template, t: State)
    requires Inv(cfg, s) && EEditFleet(cfg, s, f, template, t)
    ensures Inv(cfg, t)
  {
    hide ComputeTemplateHash, LogOk, HistoryOk;
    assert FleetOk(cfg, s, f);
    var before := s.w.fleets[f];
    RehashOk(cfg, s.l.logs[f], before.template, template);
    var fleet := before.(version := s.w.revision + 1, template := template,
                         generation := if template == before.template then before.generation
                           else before.generation + 1);
    assert FleetStatusOk(f, fleet);
    FleetWrite(cfg, s, t, f, fleet, Rehash(s.l.logs[f], ComputeTemplateHash(cfg, template)));
  }

  lemma DeleteFleetKeeps(cfg: Config, s: State, f: Name, t: State)
    requires Inv(cfg, s) && EDeleteFleet(s, f, t)
    ensures Inv(cfg, t)
  {
    assert FleetOk(cfg, s, f);
    if !s.w.fleets[f].deleting {
      SameLog(s, f);
      var fleet := s.w.fleets[f];
      FleetWrite(cfg, s, t, f,
                 fleet.(version := s.w.revision + 1, deleting := true, generation := fleet.generation + 1),
                 s.l.logs[f]);
    }
  }

  lemma CreateServerKeeps(cfg: Config, s: State, n: Name, gs: GameServer, t: State)
    requires Inv(cfg, s) && ECreateServer(s, n, gs, t)
    ensures Inv(cfg, t)
  {
    DefaultIdempotent(gs.spec);
    var r := s.w.revision + 1;
    ServerWrite(cfg, s, t, n, GameServer(r, r, 1, gs.finalizers, false, gs.labels, gs.annotations, DefaultSpec(gs.spec),
                                         NEW_STATUS));
  }

  lemma UpdateServerKeeps(cfg: Config, s: State, n: Name, gs: GameServer, t: State)
    requires Inv(cfg, s) && Done(UpdateServer(s.w, n, gs), t) && t.l == s.l
    requires LabelOf(gs.labels) == LabelOf(s.w.servers[n].labels)
    requires || LabelOf(gs.labels) == None || HashOf(gs.annotations) == ""
             || HashOf(gs.annotations) == HashOf(s.w.servers[n].annotations)
    requires gs.finalizers == s.w.servers[n].finalizers
    ensures Inv(cfg, t)
  {
    assert ServerOk(cfg, s, n);
    DefaultIdempotent(gs.spec);
    var before := s.w.servers[n];
    var spec := DefaultSpec(gs.spec);
    ServerWrite(cfg, s, t, n,
                before.(version := s.w.revision + 1,
                        generation := if spec == before.spec then before.generation else before.generation + 1,
                        finalizers := gs.finalizers, labels := gs.labels, annotations := gs.annotations, spec := spec));
  }

  lemma EnvStepKeeps(cfg: Config, s: State, act: EnvAct, t: State)
    requires Inv(cfg, s) && EnvStep(cfg, s, act, t)
    ensures Inv(cfg, t)
  {
    hide Inv, ETick, EMoveSet, ECollectSet, ECreateFleet, EEditFleet, EDeleteFleet, ECreateServer, UpdateServer,
      DeleteServer;
    match act
    case Tick(d) => TickKeeps(cfg, s, d, t);
    case MoveSet(n, replicas, ready) => MoveSetKeeps(cfg, s, n, replicas, ready, t);
    case CollectSet(n) => CollectSetKeeps(cfg, s, n, t);
    case CollectService(k) => ServiceWrite(cfg, s, t, k);
    case UserCreateFleet(f, template, finalizers) => CreateFleetKeeps(cfg, s, f, template, finalizers, t);
    case UserEditFleet(f, template) => EditFleetKeeps(cfg, s, f, template, t);
    case UserDeleteFleet(f) => DeleteFleetKeeps(cfg, s, f, t);
    case UserCreateServer(n, gs) => CreateServerKeeps(cfg, s, n, gs, t);
    case UserUpdateServer(n, gs) => UpdateServerKeeps(cfg, s, n, gs, t);
    case UserDeleteServer(n) => DeleteKeeps(cfg, s, n, t);
    case UserUnstamp(n) =>
      UpdateServerKeeps(cfg, s, n, s.w.servers[n].(annotations := s.w.servers[n].annotations - {HASH_ANNOTATION}), t);
  }

  /** Every action of anybody keeps the invariants. */
  lemma StepKeeps(cfg: Config, s: State, a: Action, t: State)
    requires Inv(cfg, s) && Step(cfg, s, a, t)
    ensures Inv(cfg, t)
  {
    hide Inv, FleetStep, ServerStep, EnvStep;
    match a
    case FleetCtl(f, act) => FleetStepKeeps(cfg, s, f, act, t);
    case ServerCtl(n, act) => ServerStepKeeps(cfg, s, n, act, t);
    case Env(act) => EnvStepKeeps(cfg, s, act, t);
  }

  /** Every state of every run satisfies the invariants. */
  lemma {:induction false} RunKeeps(cfg: Config, path: seq<State>, acts: seq<Action>, i: nat)
    requires Runs(cfg, path, acts) && Inv(cfg, path[0]) && i < |path|
    ensures Inv(cfg, path[i])
    decreases i
  {
    hide Inv, Step;
    if i != 0 {
      RunKeeps(cfg, path, acts, i - 1);
      StepKeeps(cfg, path[i - 1], acts[i - 1], path[i]);
    }
  }

  /** A run goes on by any step. */
  lemma RunsGrow(cfg: Config, path: seq<State>, run: seq<Action>, act: Action, t: State)
    requires Runs(cfg, path, run) && Step(cfg, path[|run|], act, t)
    ensures Runs(cfg, path + [t], run + [act])
  {
    hide Step;
    var p, r := path + [t], run + [act];
    forall i | 0 <= i < |r| ensures Step(cfg, p[i], r[i], p[i + 1]) {
      if i < |run| {
        assert Step(cfg, path[i], run[i], path[i + 1]);
      }
    }
  }
}

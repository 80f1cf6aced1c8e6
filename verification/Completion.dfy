/** The end of a rollout: the undisturbed pass that closes its record. */
module Completion {
  import opened Types
  import opened Live
  import opened Webhook
  import opened TemplateHash
  import opened Store
  import opened Actions
  import opened Invariants
  import opened Preservation
  import opened Plans
  import opened Decisions
  import opened FleetHealth
  import opened FleetWrites

  /** A rollout shows as under way, its GameServer is ready, and nothing is left to be written to it. */
  ghost predicate Due(cfg: Config, s: State, f: Name) {
    && Held(s.w, f) && !s.w.fleets[f].deleting && f !in s.l.fleetPass
    && OwnedBy(s.w, f, f + "-gs") && s.w.servers[f + "-gs"].status.phase != Failed
    && HashOf(s.w.servers[f + "-gs"].annotations) in {"", ComputeTemplateHash(cfg, s.w.fleets[f].template)}
    && s.w.fleets[f].status.phase == Progressing && s.w.servers[f + "-gs"].status.ready
    && s.w.fleets[f].generation >= s.w.servers[f + "-gs"].generation
  }

  /** A pass begun in `s` and now in `t`: the fleet but for its status, and the GameServer but for its stamp, are as
      they were. */
  ghost predicate During(s: State, t: State, f: Name) {
    && Steady(t, f) && f in s.w.fleets && t.l.fleetPass[f].fleet == s.w.fleets[f]
    && t.w.now == s.w.now && t.w.services == s.w.services
    && t.w.fleets[f].generation == s.w.fleets[f].generation
    && OwnedBy(s.w, f, OwnedName(f)) && OwnedBy(t.w, f, OwnedName(f))
    && t.w.servers[OwnedName(f)].status == s.w.servers[OwnedName(f)].status
    && t.w.servers[OwnedName(f)].spec == s.w.servers[OwnedName(f)].spec
  }

  lemma AsStep(cfg: Config, s: State, f: Name, act: FleetAct, t: State)
    requires FleetStep(cfg, s, f, act, t)
    ensures Step(cfg, s, FleetCtl(f, act), t)
  {
    hide FleetStep;
  }

  lemma OneMore(cfg: Config, path: seq<State>, f: Name, acts: seq<FleetAct>, act: FleetAct, t: State)
    requires Runs(cfg, path, FleetActs(f, acts)) && FleetStep(cfg, path[|acts|], f, act, t)
    ensures Runs(cfg, path + [t], FleetActs(f, acts + [act])) && (path + [t])[|acts| + 1] == t
            && (path + [t])[0] == path[0]
    ensures |path + [t]| == |acts + [act]| + 1
  {
    hide Step;
    AsStep(cfg, path[|acts|], f, act, t);
    RunsGrow(cfg, path, FleetActs(f, acts), FleetCtl(f, act), t);
    assert FleetActs(f, acts + [act]) == FleetActs(f, acts) + [FleetCtl(f, act)];
  }

  lemma BeginTurn(cfg: Config, s: State, f: Name) returns (t: State)
    requires Inv(cfg, s) && Due(cfg, s, f)
    ensures FleetStep(cfg, s, f, Begin, t) && During(s, t, f) && Inv(cfg, t) && t.w == s.w
  {
    hide ComputeTemplateHash;
    assert FleetOk(cfg, s, f);
    t := s.(l := s.l.(fleetPass := s.l.fleetPass[f := FleetSnap(s.w.fleets[f], |s.l.logs[f].hashes| - 1)]));
    FleetStepKeeps(cfg, s, f, Begin, t);
  }

  lemma StampTurn(cfg: Config, s: State, t: State, f: Name) returns (u: State)
    requires Inv(cfg, t) && During(s, t, f) && t.w.fleets == s.w.fleets
    ensures FleetStep(cfg, t, f, PatchHash, u) && During(s, u, f) && Inv(cfg, u) && u.w.fleets == s.w.fleets
  {
    hide ComputeTemplateHash, DefaultSpec, ValidSpec;
    assert ServerOk(cfg, t, OwnedName(f));
    u := State(PatchServerHash(t.w, OwnedName(f), ComputeTemplateHash(cfg, Wanted(t, f))).world, Stamped(t, f, 0));
    FleetStepKeeps(cfg, t, f, PatchHash, u);
  }

  lemma SyncTurn(cfg: Config, s: State, t: State, f: Name) returns (u: State)
    requires Inv(cfg, t) && During(s, t, f) && t.w.fleets == s.w.fleets
             && s.w.servers[OwnedName(f)].status.phase != Failed
    ensures var gs := s.w.servers[OwnedName(f)].status;
            && FleetStep(cfg, t, f, FleetAct.SyncStatus(gs, s.w.now), u) && During(s, u, f) && Inv(cfg, u)
            && f in u.w.fleets
            && u.w.fleets[f].status.history == s.w.fleets[f].status.history
  {
    hide ComputeTemplateHash, SyncEdit;
    var gs, fleet := s.w.servers[OwnedName(f)].status, t.w.fleets[f];
    SyncMeans(fleet.status, fleet.generation, gs, s.w.now);
    HistoryBeforeNow(cfg, t, f);
    u := t.(w := UpdateFleetStatus(cfg, t.w, f,
                                   fleet.(status := SyncEdit(fleet.status, fleet.generation, Some(gs), s.w.now)))
                 .world);
    FleetStepKeeps(cfg, t, f, FleetAct.SyncStatus(gs, s.w.now), u);
  }

  /** What a closed record looks like: as it was if it had been closed, else a success now. */
  function Closed(r: Rollout, version: string, now: nat): Rollout {
    if r.completedAt.Some? then r
    else r.(completedAt := Some(now), result := "Success", message := "Update to version " + version + " completed")
  }

  ghost predicate ClosedLast(h: seq<Rollout>, k: seq<Rollout>, version: string, now: nat) {
    && |k| == (if |h| < 10 then |h| else 10)
    && (h != [] ==> k[|k| - 1] == Closed(h[|h| - 1], version, now))
    && forall i :: 0 <= i < |k| - 1 ==> k[i] == h[|h| - |k| + i]
  }

  lemma CompleteTurn(cfg: Config, s: State, t: State, f: Name) returns (u: State)
    requires Inv(cfg, t) && During(s, t, f) && t.w.fleets[f].status.history == s.w.fleets[f].status.history
    requires s.w.servers[OwnedName(f)].status.phase != Failed && s.w.servers[OwnedName(f)].status.ready
    ensures var gs := s.w.servers[OwnedName(f)];
            && FleetStep(cfg, t, f, CompleteStatus(gs.status, None, gs.spec.version, s.w.now), u) && During(s, u, f)
            && Inv(cfg, u)
            && ClosedLast(s.w.fleets[f].status.history, u.w.fleets[f].status.history, gs.spec.version, s.w.now)
            && u.w.fleets[f].status.phase == Available && u.w.fleets[f].status.current == f + "-gs"
            && f in u.w.fleets && f in u.l.fleetPass
  {
    hide ComputeTemplateHash, FleetPut, LastTime;
    var gs, fleet := s.w.servers[OwnedName(f)], t.w.fleets[f];
    var after := CompleteEdit(fleet.status, fleet.generation, OwnedName(f), gs.spec.version, s.w.now);
    CompletedStatus(fleet.status, fleet.generation, OwnedName(f), gs.spec.version, s.w.now);
    HistoryBeforeNow(cfg, t, f);
    var log := t.l.logs[f].(rollouts := CloseLast(t.l.logs[f].rollouts, gs.spec.version, s.w.now));
    u := State(UpdateFleetStatus(cfg, t.w, f, fleet.(status := after)).world,
               if fleet.status.history == [] then t.l else t.l.(logs := t.l.logs[f := log]));
    FleetStepKeeps(cfg, t, f, CompleteStatus(gs.status, None, gs.spec.version, s.w.now), u);
  }

  lemma CompletedStatus(st: FleetStatus, generation: int, n: Name, version: string, now: nat)
    ensures var a := CompleteEdit(st, generation, n, version, now);
            && ClosedLast(st.history, a.history, version, now) && |a.history| <= 10
            && a.history == LastTen(CloseLast(st.history, version, now))
            && a.phase == Available && a.current == n && a.observedGeneration == generation
  {
  }

  lemma FrontTurn(cfg: Config, s: State, t: State, f: Name, svc: Service) returns (u: State)
    requires Inv(cfg, t) && During(s, t, f)
    requires svc == FleetServiceSync(s.w, f, OwnedName(f), s.w.servers[OwnedName(f)])
    ensures FleetStep(cfg, t, f, ServeFleet(svc, s.w.servers[OwnedName(f)].spec.gameType), u)
    ensures u == t.(w := PutService(t.w, f, svc))
  {
    hide ComputeTemplateHash, Inv;
    u := t.(w := PutService(t.w, f, svc));
  }

  lemma EndTurn(cfg: Config, t: State, f: Name) returns (u: State)
    requires f in t.l.fleetPass
    ensures FleetStep(cfg, t, f, End, u) && u.w == t.w && f !in u.l.fleetPass
  {
    u := t.(l := t.l.(fleetPass := t.l.fleetPass - {f}));
  }

  lemma Alone(cfg: Config, s: State, f: Name)
    ensures Runs(cfg, [s], FleetActs(f, []))
  {
  }

  lemma PlanWhenDue(cfg: Config, s: State, f: Name)
    requires Due(cfg, s, f)
    ensures var gs := s.w.servers[f + "-gs"];
            FleetPlan(cfg, s.w, f)
            == [Begin] + (if HashOf(gs.annotations) == "" then [PatchHash] else [])
               + [FleetAct.SyncStatus(gs.status, s.w.now)] + [CompleteStatus(gs.status, None, gs.spec.version, s.w.now)]
               + ServePlan(s.w, f, gs) + [End]
  {
    hide ComputeTemplateHash, ServePlan, CreatePlan, UpdatePlan, Steady;
    var gs := s.w.servers[f + "-gs"];
    var patch := if HashOf(gs.annotations) == "" then [PatchHash] else [];
    var sync := [FleetAct.SyncStatus(gs.status, s.w.now)];
    var done := [CompleteStatus(gs.status, None, gs.spec.version, s.w.now)];
    assert [Begin] + (patch + (sync + done + ServePlan(s.w, f, gs))) + [End]
           == [Begin] + patch + sync + done + ServePlan(s.w, f, gs) + [End];
  }

  /** The first half of the pass: stamp if that is missing, and sync. */
  lemma FirstHalf(cfg: Config, s: State, f: Name) returns (path: seq<State>, acts: seq<FleetAct>)
    requires Inv(cfg, s) && Due(cfg, s, f)
    ensures Runs(cfg, path, FleetActs(f, acts)) && |path| == |acts| + 1 && path[0] == s
    ensures acts == [Begin] + (if HashOf(s.w.servers[f + "-gs"].annotations) == "" then [PatchHash] else [])
                    + [FleetAct.SyncStatus(s.w.servers[f + "-gs"].status, s.w.now)]
    ensures var t := path[|acts|];
            Inv(cfg, t) && During(s, t, f) && f in t.w.fleets
            && t.w.fleets[f].status.history == s.w.fleets[f].status.history
  {
    hide Inv, FleetStep, Runs, During, ComputeTemplateHash, Steady;
    var gs := s.w.servers[OwnedName(f)];
    var t := BeginTurn(cfg, s, f);
    Alone(cfg, s, f);
    OneMore(cfg, [s], f, [], Begin, t);
    acts := [] + [Begin];
    path := [s] + [t];
    if HashOf(gs.annotations) == "" {
      var u := StampTurn(cfg, s, t, f);
      OneMore(cfg, path, f, acts, PatchHash, u);
      path, acts, t := path + [u], acts + [PatchHash], u;
    }
    var sync := FleetAct.SyncStatus(gs.status, s.w.now);
    var u := SyncTurn(cfg, s, t, f);
    OneMore(cfg, path, f, acts, sync, u);
    path, acts := path + [u], acts + [sync];
  }

  /** From every reachable state in which a rollout is due, one undisturbed pass completes it: the last record is
      closed as a success at the time of the pass, the others are kept, but for the oldest over ten. */
  lemma CompletionTurn(cfg: Config, s: State, f: Name) returns (path: seq<State>)
    requires Inv(cfg, s) && Due(cfg, s, f)
    ensures Runs(cfg, path, FleetActs(f, FleetPlan(cfg, s.w, f))) && path != [] && path[0] == s
    ensures var t := path[|path| - 1];
            && f in t.w.fleets && f !in t.l.fleetPass && t.w.fleets[f].status.phase == Available
            && ClosedLast(s.w.fleets[f].status.history, t.w.fleets[f].status.history,
                          s.w.servers[f + "-gs"].spec.version,
                          s.w.now)
  {
    hide Inv, FleetStep, Runs, During, ComputeTemplateHash, FleetServiceSync, ClosedLast, Steady, FleetPlan;
    var gs := s.w.servers[OwnedName(f)];
    var acts;
    path, acts := FirstHalf(cfg, s, f);
    var complete := CompleteStatus(gs.status, None, gs.spec.version, s.w.now);
    var v := CompleteTurn(cfg, s, path[|acts|], f);
    OneMore(cfg, path, f, acts, complete, v);
    path, acts := path + [v], acts + [complete];
    var svc := FleetServiceSync(s.w, f, OwnedName(f), gs);
    if !HasService(s.w, f, svc) {
      var w := FrontTurn(cfg, s, v, f, svc);
      OneMore(cfg, path, f, acts, ServeFleet(svc, gs.spec.gameType), w);
      path, acts, v := path + [w], acts + [ServeFleet(svc, gs.spec.gameType)], w;
    }
    var x := EndTurn(cfg, v, f);
    OneMore(cfg, path, f, acts, End, x);
    path, acts := path + [x], acts + [End];
    PlanWhenDue(cfg, s, f);
    assert acts == FleetPlan(cfg, s.w, f);
  }
}

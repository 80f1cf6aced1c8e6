/** Why each write of a fleet pass is the action it is: what the pass read, seen from the state it writes to. */
module FleetWrites {
  import opened Types
  import opened Conditions
  import opened Live
  import opened Webhook
  import opened TemplateHash
  import opened Builders
  import opened Store
  import opened Actions
  import opened Invariants
  import opened Preservation
  import opened Evolution
  import opened Identity
  import opened Plans
  import opened Rely

  /** The steady pass in flight for `f` read `read`, a fleet with the finalizer. */
  ghost predicate InPass(cfg: Config, s: State, f: Name, read: Fleet) {
    Inv(cfg, s) && f in s.l.fleetPass && s.l.fleetPass[f].fleet == read && FLEET_FINALIZER in read.finalizers
  }

  lemma PassIsSteady(cfg: Config, s: State, f: Name, read: Fleet)
    requires InPass(cfg, s, f, read)
    ensures Steady(s, f) && Wanted(s, f) == read.template && s.w.fleets[f].uid == read.uid
  {
    assert SnapOk(cfg, s, f);
    assert FleetOk(cfg, s, f);
  }

  /** What the pass knows of its fleet survives what others do. */
  lemma PassStays(cfg: Config, s: State, t: State, f: Name, read: Fleet)
    requires InPass(cfg, s, f, read) && FleetKnows(s, t, f) && Inv(cfg, t)
    ensures InPass(cfg, t, f, read)
    ensures f in t.w.fleets && f in s.w.fleets && FleetEvolves(s.w.fleets[f], t.w.fleets[f])
  {
    PassIsSteady(cfg, s, f, read);
  }

  lemma FleetEvolvesTransitive(a: Fleet, b: Fleet, c: Fleet)
    requires FleetEvolves(a, b) && FleetEvolves(b, c)
    ensures FleetEvolves(a, c)
  {
  }

  // ---- GameServer writes ----

  /** The pass listed the fleet's GameServer `gs` in state `s0`. */
  ghost predicate Listed(cfg: Config, s0: State, f: Name, gs: GameServer) {
    Inv(cfg, s0) && OwnedBy(s0.w, f, OwnedName(f)) && s0.w.servers[OwnedName(f)] == gs
  }

  /** A version check that passes finds the very object that was listed. */
  lemma VersionFinds(cfg: Config, s0: State, s: State, f: Name, gs: GameServer)
    requires Listed(cfg, s0, f, gs) && FleetKnows(s0, s, f)
    requires OwnedName(f) in s.w.servers && s.w.servers[OwnedName(f)].version == gs.version
    ensures s.w.servers[OwnedName(f)] == gs && OwnedBy(s.w, f, OwnedName(f))
  {
    assert ServerOk(cfg, s0, OwnedName(f));
  }

  lemma CreateIsAction(cfg: Config, s: State, f: Name, read: Fleet)
    requires InPass(cfg, s, f, read)
    ensures Steady(s, f)
    ensures var r := CreateServer(s.w, OwnedName(f), BuildServer(cfg, f, read.template));
            if r.err == None then FCreateGs(cfg, s, f, State(r.world, Stamped(s, f, 0))) else r.world == s.w
  {
    hide ComputeTemplateHash;
    PassIsSteady(cfg, s, f, read);
  }

  lemma UpdateIsAction(cfg: Config, s0: State, s: State, f: Name, read: Fleet, gs: GameServer)
    requires InPass(cfg, s, f, read) && Listed(cfg, s0, f, gs) && FleetKnows(s0, s, f)
    requires HashOf(gs.annotations) != "" && HashOf(gs.annotations) != ComputeTemplateHash(cfg, read.template)
    ensures Steady(s, f)
    ensures var r := UpdateServer(s.w, OwnedName(f), Redeploy(cfg, f, gs, read.template));
            if r.err == None then FUpdateGs(cfg, s, f, State(r.world, Stamped(s, f, 1))) else r.world == s.w
  {
    hide ComputeTemplateHash, FleetKnows;
    PassIsSteady(cfg, s, f, read);
    var n := OwnedName(f);
    if n in s.w.servers && s.w.servers[n].version == gs.version {
      VersionFinds(cfg, s0, s, f, gs);
    }
  }

  lemma PatchIsAction(cfg: Config, s: State, f: Name, read: Fleet)
    requires InPass(cfg, s, f, read)
    ensures Steady(s, f)
    ensures var r := PatchServerHash(s.w, OwnedName(f), ComputeTemplateHash(cfg, read.template));
            var l := if OwnedBy(s.w, f, OwnedName(f)) then Stamped(s, f, 0) else s.l;
            if r.err == None then FPatchHash(cfg, s, f, State(r.world, l)) else r.world == s.w
  {
    hide ComputeTemplateHash;
    PassIsSteady(cfg, s, f, read);
  }

  lemma DeleteFailedIsAction(cfg: Config, s0: State, s: State, f: Name, read: Fleet, gs: GameServer)
    requires InPass(cfg, s, f, read) && Listed(cfg, s0, f, gs) && FleetKnows(s0, s, f) && gs.status.phase == Failed
    ensures var r := DeleteServer(s.w, OwnedName(f));
            if r.err == None then FDeleteFailed(cfg, s, f, State(r.world, s.l)) else r.world == s.w
  {
    PassIsSteady(cfg, s, f, read);
    assert ServerOk(cfg, s0, OwnedName(f));
  }

  lemma ServeIsAction(cfg: Config, s0: State, s: State, f: Name, read: Fleet, gs: GameServer, svc: Service)
    requires InPass(cfg, s, f, read) && Listed(cfg, s0, f, gs) && FleetKnows(s0, s, f)
    requires svc.selector == GameServerLabels(OwnedName(f), gs.spec.gameType)
    ensures FServe(s, f, svc, gs.spec.gameType, s.(w := PutService(s.w, f, svc)))
  {
    PassIsSteady(cfg, s, f, read);
  }

  // ---- status writes ----

  /** The status an act computes from the fleet object it works on. */
  function StatusFrom(base: Fleet, f: Name, act: FleetAct): FleetStatus {
    match act
    case SyncStatus(gs, now) => SyncEdit(base.status, base.generation, Some(gs), now)
    case StartStatus(from, now) => StartEdit(base.status, from, base.template.spec.version, now)
    case CompleteStatus(gs, unsynced, version, now) =>
      CompleteEdit(if unsynced == None then base.status
                   else SyncEdit(base.status, base.generation, Some(gs), unsynced.value),
                   base.generation, OwnedName(f), version, now)
    case CreatedStatus(now) => CreatedEdit(base.status, OwnedName(f), now)
    case ResetStatus => ResetEdit(base.status)
    case _ => base.status
  }

  predicate StatusReady(base: Fleet, act: FleetAct, clock: nat) {
    match act
    case SyncStatus(gs, now) => gs.phase != Failed && now <= clock
    case StartStatus(from, now) => LastTime(base.status.history) <= now <= clock
    case CompleteStatus(gs, unsynced, version, now) =>
      gs.ready && gs.phase != Failed && LastTime(base.status.history) <= now <= clock
    case CreatedStatus(now) => now <= clock
    case ResetStatus => true
    case _ => false
  }

  function StatusLedger(s: State, f: Name, act: FleetAct): Ledger
    requires f in s.l.logs && f in s.w.fleets
  {
    match act
    case StartStatus(from, now) =>
      s.l.(logs := s.l.logs[f := s.l.logs[f].(rollouts := s.l.logs[f].rollouts
             + [Rollout(now, None, from, s.w.fleets[f].template.spec.version, "", "")])])
    case CompleteStatus(_, _, version, now) =>
      if s.w.fleets[f].status.history == [] then s.l
      else s.l.(logs := s.l.logs[f := s.l.logs[f].(rollouts := CloseLast(s.l.logs[f].rollouts, version, now))])
    case _ => s.l
  }

  /** A status write whose version check passes is the action computed from the fleet as it is stored. */
  lemma StatusIsAction(cfg: Config, s: State, f: Name, read: Fleet, base: Fleet, memory: Fleet, act: FleetAct)
    requires InPass(cfg, s, f, read) && f in s.w.fleets && FleetEvolves(base, s.w.fleets[f])
    requires memory.version == base.version && memory.status == StatusFrom(base, f, act)
    requires StatusReady(base, act, s.w.now)
    ensures Steady(s, f)
    ensures var r := UpdateFleetStatus(cfg, s.w, f, memory);
            if r.err == None then
              && FleetStep(cfg, s, f, act, State(r.world, StatusLedger(s, f, act)))
              && r.world == s.w.(revision := s.w.revision + 1,
                                 fleets := s.w.fleets[f := base.(version := s.w.revision + 1, status := memory.status)])
            else r.world == s.w
  {
    hide ComputeTemplateHash, SyncEdit, StartEdit, CompleteEdit, CreatedEdit, ResetEdit, Inv;
    PassIsSteady(cfg, s, f, read);
  }

  /** A pass that still holds the stored version is refused only for too long a history. */
  lemma StatusVerdict(cfg: Config, s: State, f: Name, memory: Fleet)
    requires f in s.w.fleets && memory.version == s.w.fleets[f].version
    ensures UpdateFleetStatus(cfg, s.w, f, memory).err
            == if cfg.capHistory && |memory.status.history| > 10 then Some(Invalid) else None
  {
  }

  /** The clock read in a pass is not before anything the fleet's history mentions. */
  lemma HistoryBeforeNow(cfg: Config, s: State, f: Name)
    requires Inv(cfg, s) && f in s.w.fleets
    ensures LastTime(s.w.fleets[f].status.history) <= s.w.now
    ensures cfg.capHistory ==> |s.w.fleets[f].status.history| <= 10
  {
    hide ComputeTemplateHash;
    assert FleetOk(cfg, s, f);
    var h, all := s.w.fleets[f].status.history, s.l.logs[f].rollouts;
    if h != [] {
      SuffixLast(h, all);
      LastTimeBounded(all, s.w.now);
    }
  }

  // ---- keeping track ----

  /** After a pause the pass knows what it knew. */
  lemma PassContinues(cfg: Config, s: State, t: State, f: Name, read: Fleet, base: Fleet)
    requires InPass(cfg, s, f, read) && FleetRely(s, t, f) && Inv(cfg, t)
    requires f in s.w.fleets && FleetEvolves(base, s.w.fleets[f])
    ensures InPass(cfg, t, f, read) && FleetKnows(s, t, f) && s.w.now <= t.w.now
    ensures f in t.w.fleets && FleetEvolves(base, t.w.fleets[f])
  {
    hide InPass, FleetEvolves, Inv;
    RelyKnows(s, t, f);
    PassStays(cfg, s, t, f, read);
    FleetEvolvesTransitive(base, s.w.fleets[f], t.w.fleets[f]);
  }

  lemma RelyKnows(s: State, t: State, f: Name)
    requires FleetRely(s, t, f)
    ensures FleetKnows(s, t, f) && s.w.now <= t.w.now
  {
  }

  lemma ReadyLater(base: Fleet, act: FleetAct, now: nat, later: nat)
    requires StatusReady(base, act, now) && now <= later
    ensures StatusReady(base, act, later)
  {
  }

  /** After a write of its own, too. */
  lemma PassWrote(cfg: Config, s: State, t: State, f: Name, read: Fleet, act: FleetAct)
    requires InPass(cfg, s, f, read) && FleetStep(cfg, s, f, act, t)
    requires !act.Begin? && !act.End? && !act.CreateGs? && !act.Release?
    ensures InPass(cfg, t, f, read) && FleetKnows(s, t, f)
    ensures f in s.w.fleets && f in t.w.fleets && FleetEvolves(s.w.fleets[f], t.w.fleets[f])
  {
    hide FleetStep, FleetKnows, Inv, FleetEvolves;
    FleetStepKeeps(cfg, s, f, act, t);
    OwnWriteKnows(cfg, s, f, act, t);
    PassStays(cfg, s, t, f, read);
  }
}

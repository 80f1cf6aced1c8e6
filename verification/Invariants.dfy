/** What every reachable state satisfies, object by object. */
module Invariants {
  import opened Types
  import opened Conditions
  import opened Live
  import opened Webhook
  import opened TemplateHash
  import opened Builders
  import opened Store
  import opened Actions

  // ---- GameServers ----

  /** Conditions record a generation the status had already observed, the status one the object had. */
  ghost predicate Observed(cs: seq<Condition>, observed: int, generation: int) {
    observed <= generation && forall i :: 0 <= i < |cs| ==> cs[i].observedGeneration <= observed
  }

  /** Putting a condition observed now keeps every condition's generation within bounds. */
  lemma PutObserved(cs: seq<Condition>, c: Condition, observed: int, generation: int)
    requires Observed(cs, observed, generation) && c.observedGeneration == observed
    ensures Observed(Put(cs, c), observed, generation) && (Unique(cs) ==> Unique(Put(cs, c)))
  {
    PutKeepsOrder(cs, c);
    var r := Put(cs, c);
    forall i | 0 <= i < |r| ensures r[i].observedGeneration <= observed {
      PutEntries(cs, c, i);
    }
  }

  /** Failed means no adapter, Provisioning and Running mean there is one, Stopping means deleted;
      a ready server is Running or Stopping, and the Ready condition mirrors the flag. */
  ghost predicate PhaseOk(cfg: Config, gs: GameServer) {
    var st := gs.status;
    && (st.phase == Failed ==> gs.spec.gameType !in cfg.registered)
    && (st.phase == Provisioning || st.phase == Running ==> gs.spec.gameType in cfg.registered)
    && (st.phase == Stopping ==> gs.deleting)
    && st.phase != Pending && st.phase != Stopped && st.phase != BackupInProgress
    && (st.ready ==> st.phase == Running || st.phase == Stopping)
    && Unique(st.conditions)
    && (var c := Find(st.conditions, "Ready"); if c == None then !st.ready else c.value.status == TruthOf(st.ready))
    && Observed(st.conditions, st.observedGeneration, gs.generation)
  }

  predicate OnlyOurs(finalizers: seq<string>) {
    forall x :: x in finalizers ==> x == SERVER_FINALIZER
  }

  /** A labelled GameServer has its fleet's one name and no finalizer but the operator's, its fleet is there with
      the finalizer, and its hash annotation is the logged stamp unless somebody dropped it. */
  ghost predicate OwnerOk(s: State, n: Name, gs: GameServer, f: Name) {
    && n == OwnedName(f) && OnlyOurs(gs.finalizers) && Held(s.w, f) && f in s.l.logs
    && (HashOf(gs.annotations) == "" || HashOf(gs.annotations) == StampedHash(s.l.logs[f]))
  }

  function StampedHash(log: FleetLog): string {
    if log.stamp < |log.hashes| then log.hashes[log.stamp] else ""
  }

  ghost predicate ServerOk(cfg: Config, s: State, n: Name) {
    n in s.w.servers ==>
      var gs := s.w.servers[n];
      && gs.version <= s.w.revision && gs.uid <= s.w.revision
      && (gs.deleting ==> gs.finalizers != [])
      && Stored(gs.spec)
      && PhaseOk(cfg, gs)
      && (LabelOf(gs.labels).Some? ==> OwnerOk(s, n, gs, LabelOf(gs.labels).value))
  }

  // ---- fleets ----

  ghost predicate FleetStatusOk(f: Name, fleet: Fleet) {
    var st := fleet.status;
    && 0 <= st.readyReplicas <= 1
    && (st.phase == Available ==>
          st.readyReplicas == 1 && Shows(st, "Available", True) && Shows(st, "Progressing", False))
    && (st.phase == Degraded ==>
          st.readyReplicas == 0 && Shows(st, "Degraded", True) && Shows(st, "Available", False))
    && st.phase != FleetFailed
    && (st.current == "" || st.current == OwnedName(f))
    && Unique(st.conditions)
    && Observed(st.conditions, st.observedGeneration, fleet.generation)
  }

  predicate Shows(st: FleetStatus, kind: string, t: Truth) {
    var c := Find(st.conditions, kind);
    c.Some? && c.value.status == t
  }

  /** The hash log ends in the current template's hash, its neighbours differ, the stamp is one of its
      entries, and every in-place write moved the stamp forward. */
  ghost predicate LogOk(cfg: Config, log: FleetLog, template: Template) {
    && log.hashes != [] && log.hashes[|log.hashes| - 1] == ComputeTemplateHash(cfg, template)
    && (forall i :: 0 < i < |log.hashes| ==> log.hashes[i - 1] != log.hashes[i])
    && log.stamp < |log.hashes| && log.writes <= log.stamp
  }

  ghost predicate Suffix(a: seq<Rollout>, b: seq<Rollout>) {
    |a| <= |b| && a == b[|b| - |a|..]
  }

  ghost predicate RecordOk(r: Rollout, now: nat) {
    && r.startedAt <= now
    && (r.completedAt.Some? <==> r.result == "Success")
    && (r.completedAt.Some? ==> r.startedAt <= r.completedAt.value <= now)
    && (r.completedAt == None ==> r.result == "" && r.message == "")
  }

  /** Records follow one another in time. */
  ghost predicate Timeline(h: seq<Rollout>, now: nat) {
    && (forall i :: 0 <= i < |h| ==> RecordOk(h[i], now))
    && (forall i :: 0 < i < |h| ==> LastTime(h[..i]) <= h[i].startedAt)
  }

  ghost predicate HistoryOk(cfg: Config, now: nat, h: seq<Rollout>, rollouts: seq<Rollout>) {
    && Suffix(h, rollouts) && (h == [] <==> rollouts == []) && Timeline(rollouts, now)
    && (cfg.capHistory ==> |h| <= 10)
  }

  ghost predicate FleetOk(cfg: Config, s: State, f: Name) {
    f in s.w.fleets ==>
      var fleet := s.w.fleets[f];
      && fleet.version <= s.w.revision && fleet.uid <= s.w.revision
      && (fleet.deleting ==> fleet.finalizers != [])
      && FleetStatusOk(f, fleet)
      && f in s.l.logs && LogOk(cfg, s.l.logs[f], fleet.template)
      && HistoryOk(cfg, s.w.now, fleet.status.history, s.l.logs[f].rollouts)
  }

  // ---- StatefulSets and Services ----

  /** Asked for zero or one pod; selector, pod labels and service name are those of one GameServer of
      that name, and the current GameServer's own if it made the set. */
  ghost predicate SetOk(s: State, n: Name) {
    n in s.w.sets ==>
      var sts := s.w.sets[n];
      && sts.version <= s.w.revision && sts.owner <= s.w.revision
      && (sts.replicas == Some(0) || sts.replicas == Some(1))
      && 0 <= sts.readyReplicas <= sts.statusReplicas
      && sts.podLabels == sts.selector && sts.serviceName == n + "-headless"
      && (exists gameType :: sts.selector == GameServerLabels(n, gameType))
      && (n in s.w.servers && s.w.servers[n].uid == sts.owner ==>
            sts.selector == GameServerLabels(n, s.w.servers[n].spec.gameType))
  }

  /** A Service selects the pods of one GameServer, whose name the Service's own name gives away. */
  ghost predicate ServiceOk(s: State, k: Name) {
    k in s.w.services ==>
      exists n, gameType :: s.w.services[k].selector == GameServerLabels(n, gameType)
                            && (k == n || k == n + "-headless" || n == OwnedName(k))
  }

  // ---- passes in flight ----

  /** What a fleet pass read: a fleet that is still held if it was then; the stored fleet, if the version
      is still the same; and, for the same fleet, a template no older than the stamp. */
  ghost predicate SnapOk(cfg: Config, s: State, f: Name) {
    f in s.l.fleetPass ==>
      var snap := s.l.fleetPass[f].fleet;
      && snap.version <= s.w.revision && snap.uid <= s.w.revision && !snap.deleting
      && (FLEET_FINALIZER in snap.finalizers ==> Held(s.w, f) && s.w.fleets[f].uid == snap.uid)
      && (f in s.w.fleets && s.w.fleets[f].version == snap.version ==> s.w.fleets[f] == snap)
      && (f in s.w.fleets && s.w.fleets[f].uid == snap.uid && f in s.l.logs ==>
          EpochOk(cfg, s.l.logs[f], s.l.fleetPass[f]))
  }

  ghost predicate EpochOk(cfg: Config, log: FleetLog, snap: FleetSnap) {
    && log.stamp <= snap.epoch < |log.hashes|
    && log.hashes[snap.epoch] == ComputeTemplateHash(cfg, snap.fleet.template)
  }

  ghost predicate PassOk(s: State, n: Name) {
    n in s.l.serverPass ==>
      var snap := s.l.serverPass[n];
      && snap.version <= s.w.revision && snap.uid <= s.w.revision && !snap.deleting
      && (n in s.w.servers && s.w.servers[n].version == snap.version ==> s.w.servers[n] == snap)
      && (n in s.w.servers && s.w.servers[n].uid == snap.uid ==> s.w.servers[n].spec.gameType == snap.spec.gameType)
      && (n in s.w.sets && s.w.sets[n].owner == snap.uid ==>
            s.w.sets[n].selector == GameServerLabels(n, snap.spec.gameType))
  }

  ghost predicate Inv(cfg: Config, s: State) {
    && (forall n :: ServerOk(cfg, s, n))
    && (forall f :: FleetOk(cfg, s, f))
    && (forall n :: SetOk(s, n))
    && (forall k :: ServiceOk(s, k))
    && (forall f :: SnapOk(cfg, s, f))
    && (forall n :: PassOk(s, n))
  }

  lemma Initially(cfg: Config)
    ensures Inv(cfg, START)
  {
  }

  // ---- one write at a time ----

  /** What a write at `n` may put there: the same GameServer in a new version, or a new one. */
  ghost predicate Successor(s: State, n: Name, gs: GameServer) {
    && gs.version == s.w.revision + 1
    && if n in s.w.servers then gs.uid == s.w.servers[n].uid && gs.spec.gameType == s.w.servers[n].spec.gameType
       else gs.uid == s.w.revision + 1
  }

  /** A GameServer write keeps every invariant, given the new object's own. */
  lemma ServerWrite(cfg: Config, s: State, t: State, n: Name, gs: GameServer)
    requires Inv(cfg, s) && t == s.(w := PutServer(s.w, n, gs))
    requires Successor(s, n, gs) && ServerOk(cfg, t, n)
    ensures Inv(cfg, t)
  {
    forall m ensures ServerOk(cfg, t, m) { assert ServerOk(cfg, s, m); }
    forall f ensures FleetOk(cfg, t, f) { assert FleetOk(cfg, s, f); }
    forall m ensures SetOk(t, m) { assert SetOk(s, m); }
    forall k ensures ServiceOk(t, k) { assert ServiceOk(s, k); }
    forall f ensures SnapOk(cfg, t, f) { assert SnapOk(cfg, s, f); }
    forall m ensures PassOk(t, m) { assert PassOk(s, m); }
  }

  /** The same for a write of the fleet's own GameServer that moves the stamp to the pass's epoch. */
  lemma StampedWrite(cfg: Config, s: State, t: State, f: Name, gs: GameServer, more: nat)
    requires Inv(cfg, s) && Steady(s, f)
    requires t == State(PutServer(s.w, OwnedName(f), gs), Stamped(s, f, more))
    requires Successor(s, OwnedName(f), gs) && ServerOk(cfg, t, OwnedName(f))
    requires s.l.logs[f].writes + more <= s.l.fleetPass[f].epoch
    ensures Inv(cfg, t)
  {
    StampedFleets(cfg, s, t, f, more);
    forall m ensures ServerOk(cfg, t, m) { assert ServerOk(cfg, s, m); }
    forall m ensures SetOk(t, m) { assert SetOk(s, m); }
    forall k ensures ServiceOk(t, k) { assert ServiceOk(s, k); }
    forall m ensures PassOk(t, m) { assert PassOk(s, m); }
  }

  lemma StampedFleets(cfg: Config, s: State, t: State, f: Name, more: nat)
    requires Inv(cfg, s) && Steady(s, f)
    requires t.w.fleets == s.w.fleets && t.w.now == s.w.now && t.w.revision >= s.w.revision
    requires t.l == Stamped(s, f, more)
    requires s.l.logs[f].writes + more <= s.l.fleetPass[f].epoch
    ensures forall g :: FleetOk(cfg, t, g)
    ensures forall g :: SnapOk(cfg, t, g)
  {
    hide FleetStatusOk, HistoryOk, ComputeTemplateHash;
    assert SnapOk(cfg, s, f);
    forall g ensures FleetOk(cfg, t, g) { assert FleetOk(cfg, s, g); }
    forall g ensures SnapOk(cfg, t, g) { assert SnapOk(cfg, s, g); }
  }

  /** A fleet's log may only be extended under its GameServer. */
  ghost predicate LogGrows(a: FleetLog, b: FleetLog) {
    a.stamp == b.stamp && a.hashes <= b.hashes
  }

  /** A fleet write, together with its log: the fleet stays held while it owns a GameServer or a pass is
      in flight. */
  lemma FleetWrite(cfg: Config, s: State, t: State, f: Name, fleet: Fleet, log: FleetLog)
    requires Inv(cfg, s)
    requires t == State(PutFleet(s.w, f, fleet), s.l.(logs := s.l.logs[f := log]))
    requires fleet.version == s.w.revision + 1 && FleetOk(cfg, t, f)
    requires if f in s.w.fleets then fleet.uid == s.w.fleets[f].uid && f in s.l.logs && LogGrows(s.l.logs[f], log)
             else fleet.uid == s.w.revision + 1
    requires Held(s.w, f) ==> Held(t.w, f) || (NoneOwned(s.w, f) && f !in s.l.fleetPass)
    ensures Inv(cfg, t)
  {
    hide FleetStatusOk, HistoryOk, ComputeTemplateHash, PhaseOk, GameServerLabels, Stored;
    assert FleetOk(cfg, s, f);
    forall m ensures ServerOk(cfg, t, m) { assert ServerOk(cfg, s, m); }
    forall g ensures FleetOk(cfg, t, g) { assert FleetOk(cfg, s, g); }
    forall m ensures SetOk(t, m) { assert SetOk(s, m); }
    forall k ensures ServiceOk(t, k) { assert ServiceOk(s, k); }
    forall g ensures SnapOk(cfg, t, g) { assert SnapOk(cfg, s, g); }
    forall m ensures PassOk(t, m) { assert PassOk(s, m); }
  }

  /** A StatefulSet write or removal. */
  lemma SetWrite(cfg: Config, s: State, t: State, n: Name)
    requires Inv(cfg, s)
    requires t == s.(w := s.w.(revision := s.w.revision + 1, sets := t.w.sets))
    requires forall m :: m != n && m in t.w.sets ==> m in s.w.sets && t.w.sets[m] == s.w.sets[m]
    requires SetOk(t, n) && PassOk(t, n)
    ensures Inv(cfg, t)
  {
    forall m ensures ServerOk(cfg, t, m) { assert ServerOk(cfg, s, m); }
    forall g ensures FleetOk(cfg, t, g) { assert FleetOk(cfg, s, g); }
    forall m ensures SetOk(t, m) { assert SetOk(s, m); }
    forall k ensures ServiceOk(t, k) { assert ServiceOk(s, k); }
    forall g ensures SnapOk(cfg, t, g) { assert SnapOk(cfg, s, g); }
    forall m ensures PassOk(t, m) { assert PassOk(s, m); }
  }

  /** A Service write or removal. */
  lemma ServiceWrite(cfg: Config, s: State, t: State, k: Name)
    requires Inv(cfg, s)
    requires t == s.(w := s.w.(revision := s.w.revision + 1, services := t.w.services))
    requires forall m :: m != k && m in t.w.services ==> m in s.w.services && t.w.services[m] == s.w.services[m]
    requires ServiceOk(t, k)
    ensures Inv(cfg, t)
  {
    forall m ensures ServerOk(cfg, t, m) { assert ServerOk(cfg, s, m); }
    forall g ensures FleetOk(cfg, t, g) { assert FleetOk(cfg, s, g); }
    forall m ensures SetOk(t, m) { assert SetOk(s, m); }
    forall m ensures ServiceOk(t, m) { assert ServiceOk(s, m); }
    forall g ensures SnapOk(cfg, t, g) { assert SnapOk(cfg, s, g); }
    forall m ensures PassOk(t, m) { assert PassOk(s, m); }
  }

  /** Passes begin and end, the clock moves. */
  lemma Bookkeeping(cfg: Config, s: State, t: State)
    requires Inv(cfg, s)
    requires t == State(s.w.(now := t.w.now), s.l.(fleetPass := t.l.fleetPass, serverPass := t.l.serverPass))
    requires s.w.now <= t.w.now
    requires forall f :: SnapOk(cfg, t, f)
    requires forall n :: PassOk(t, n)
    ensures Inv(cfg, t)
  {
    forall m ensures ServerOk(cfg, t, m) { assert ServerOk(cfg, s, m); }
    forall g ensures FleetOk(cfg, t, g) { assert FleetOk(cfg, s, g); }
    forall m ensures SetOk(t, m) { assert SetOk(s, m); }
    forall k ensures ServiceOk(t, k) { assert ServiceOk(s, k); }
  }
}

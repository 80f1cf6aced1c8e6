/** Which template a fleet's GameServer runs: what a deploy leaves, what stays until the next one, what the stamp tells
    about it, and which template edits are rolled out. */
module Templates {
  import opened Types
  import opened Live
  import opened Webhook
  import opened TemplateHash
  import opened Store
  import opened Actions
  import opened Invariants
  import opened Preservation
  import opened Evolution
  import opened Plans
  import opened Drift
  import opened Rollouts
  import opened FleetWrites

  // ---- writers of the spec and of the stamp ----

  /** The two writes that put a template's spec there. */
  predicate Deploys(a: Action, f: Name) {
    a == FleetCtl(f, CreateGs) || a == FleetCtl(f, UpdateGs)
  }

  /** The three writes that put a template's hash there. */
  predicate Stamps(a: Action, f: Name) {
    Deploys(a, f) || a == FleetCtl(f, PatchHash)
  }

  function WithoutStamp(annotations: map<string, string>): map<string, string> {
    annotations - {HASH_ANNOTATION}
  }

  /** Spec, labels and annotations but for the stamp. */
  predicate SameContent(a: GameServer, b: GameServer) {
    a.spec == b.spec && a.labels == b.labels && WithoutStamp(a.annotations) == WithoutStamp(b.annotations)
  }

  /** A deploy leaves the pass's template, defaulted, under its own hash. A new GameServer has the template's labels and
      annotations; an old one gets the labels on top of its own, and keeps its annotations. */
  lemma DeployLeaves(cfg: Config, s: State, a: Action, t: State, f: Name)
    requires Inv(cfg, s) && Step(cfg, s, a, t) && Deploys(a, f)
    ensures f in s.l.fleetPass && OwnedBy(t.w, f, OwnedName(f))
    ensures var gs, template := t.w.servers[OwnedName(f)], Wanted(s, f);
            && gs.spec == DefaultSpec(template.spec) && HashOf(gs.annotations) == ComputeTemplateHash(cfg, template)
            && (if a.fact.CreateGs? then
                  && gs.finalizers == [] && !gs.deleting && gs.status == ServerStatus(Unset, false, [], 0)
                  && gs.labels == template.labels["games.gobehost.com/fleet-name" := f]
                  && WithoutStamp(gs.annotations) == WithoutStamp(template.annotations)
                else
                  && OwnedBy(s.w, f, OwnedName(f))
                  && gs.labels
                     == (s.w.servers[OwnedName(f)].labels + template.labels)["games.gobehost.com/fleet-name" := f]
                  && WithoutStamp(gs.annotations) == WithoutStamp(s.w.servers[OwnedName(f)].annotations))
  {
    hide ComputeTemplateHash, DefaultSpec, ValidSpec;
    if a.fact.UpdateGs? {
      assert ServerOk(cfg, s, OwnedName(f));
    }
  }

  lemma StampLeaves(cfg: Config, s: State, a: Action, t: State, f: Name)
    requires Inv(cfg, s) && Step(cfg, s, a, t) && Stamps(a, f) && OwnedBy(t.w, f, OwnedName(f))
    ensures f in s.l.fleetPass
            && HashOf(t.w.servers[OwnedName(f)].annotations) == ComputeTemplateHash(cfg, Wanted(s, f))
  {
    if Deploys(a, f) {
      DeployLeaves(cfg, s, a, t, f);
    } else {
      PatchLeaves(cfg, s, f, t);
    }
  }

  lemma PatchLeaves(cfg: Config, s: State, f: Name, t: State)
    requires FPatchHash(cfg, s, f, t) && OwnedName(f) in t.w.servers
    ensures HashOf(t.w.servers[OwnedName(f)].annotations) == ComputeTemplateHash(cfg, Wanted(s, f))
  {
    hide ComputeTemplateHash, DefaultSpec, ValidSpec;
  }

  // ---- what stays in between ----

  /** Nothing else writes the content, and only a user drops the stamp. */
  ghost predicate Carried(s: State, a: Action, t: State, f: Name) {
    var n := OwnedName(f);
    && OwnedBy(s.w, f, n) && OwnedBy(t.w, f, n) && SameContent(s.w.servers[n], t.w.servers[n])
    && (a != FleetCtl(f, PatchHash) ==>
          HashOf(t.w.servers[n].annotations)
          == if a == Env(UserUnstamp(n)) then "" else HashOf(s.w.servers[n].annotations))
  }

  lemma StoredSpec(cfg: Config, s: State, n: Name)
    requires Inv(cfg, s) && n in s.w.servers
    ensures DefaultSpec(s.w.servers[n].spec) == s.w.servers[n].spec
  {
    assert ServerOk(cfg, s, n);
  }

  lemma CarriedByFleet(cfg: Config, s: State, f: Name, act: FleetAct, t: State)
    requires Inv(cfg, s) && FleetStep(cfg, s, f, act, t) && OwnedBy(t.w, f, OwnedName(f))
    requires act.PatchHash? || act.DeleteFailed? || act.StripGs? || act.DeleteGs?
    ensures Carried(s, FleetCtl(f, act), t, f)
  {
    hide Inv, ComputeTemplateHash, DefaultSpec, ValidSpec, Without;
    StoredSpec(cfg, s, OwnedName(f));
  }

  lemma CarriedByServer(cfg: Config, s: State, act: ServerAct, t: State, f: Name)
    requires Inv(cfg, s) && ServerStep(cfg, s, OwnedName(f), act, t) && OwnedBy(t.w, f, OwnedName(f))
    requires Target(ServerCtl(OwnedName(f), act)) == Some(OwnedName(f))
    ensures Carried(s, ServerCtl(OwnedName(f), act), t, f)
  {
    hide Inv, DefaultSpec, ValidSpec, ProbeEdit, UnregisteredEdit, Without, Drained;
    StoredSpec(cfg, s, OwnedName(f));
  }

  lemma CarriedByOthers(cfg: Config, s: State, act: EnvAct, t: State, f: Name)
    requires Inv(cfg, s) && EnvStep(cfg, s, act, t) && OwnedBy(t.w, f, OwnedName(f))
    requires Target(Env(act)) == Some(OwnedName(f))
    ensures Carried(s, Env(act), t, f)
  {
    hide Inv, DefaultSpec, ValidSpec;
    if OwnedName(f) in s.w.servers {
      StoredSpec(cfg, s, OwnedName(f));
    }
  }

  /** Between deploys a fleet's GameServer was its before, with the same content. */
  lemma StepCarries(cfg: Config, s: State, a: Action, t: State, f: Name)
    requires Inv(cfg, s) && Step(cfg, s, a, t) && !Deploys(a, f) && OwnedBy(t.w, f, OwnedName(f))
    ensures Carried(s, a, t, f)
  {
    hide Inv, FleetStep, ServerStep, EnvStep, Carried;
    if Target(a) == Some(OwnedName(f)) {
      match a
      case FleetCtl(g, act) =>
        OwnedNameInjective(g, f);
        CarriedByFleet(cfg, s, f, act, t);
      case ServerCtl(n, act) => CarriedByServer(cfg, s, act, t, f);
      case Env(act) => CarriedByOthers(cfg, s, act, t, f);
    } else {
      Untouched(cfg, s, a, t);
      CarriedUntouched(s, a, t, f);
    }
  }

  lemma CarriedUntouched(s: State, a: Action, t: State, f: Name)
    requires OnlyAt(s, t, Target(a)) && Target(a) != Some(OwnedName(f)) && OwnedBy(t.w, f, OwnedName(f))
    ensures Carried(s, a, t, f)
  {
  }

  // ---- over whole runs ----

  ghost predicate LastDeploy(acts: seq<Action>, f: Name, i: nat, j: nat) {
    i < j <= |acts| && Deploys(acts[i], f) && forall m :: i < m < j ==> !Deploys(acts[m], f)
  }

  ghost predicate LastStamp(acts: seq<Action>, f: Name, k: nat, j: nat) {
    k < j <= |acts| && Stamps(acts[k], f) && forall m :: k < m < j ==> !Stamps(acts[m], f)
  }

  /** Without a deploy between states `i` and `j`, a fleet's GameServer of state `j` was the fleet's in state `i`,
      with the same content. */
  lemma {:induction false} ContentStays(cfg: Config, path: seq<State>, acts: seq<Action>, f: Name, i: nat, j: nat)
    requires Runs(cfg, path, acts) && Inv(cfg, path[0]) && i <= j < |path|
    requires forall m :: i <= m < j ==> !Deploys(acts[m], f)
    requires OwnedBy(path[j].w, f, OwnedName(f))
    ensures OwnedBy(path[i].w, f, OwnedName(f))
    ensures SameContent(path[i].w.servers[OwnedName(f)], path[j].w.servers[OwnedName(f)])
    decreases j - i
  {
    hide Inv, Step, Deploys;
    if i < j {
      RunKeeps(cfg, path, acts, j - 1);
      StepCarries(cfg, path[j - 1], acts[j - 1], path[j], f);
      ContentStays(cfg, path, acts, f, i, j - 1);
    }
  }

  /** Without a stamp between states `i` and `j`, the stamp is as before, or none if somebody dropped it. */
  lemma {:induction false} StampStays(cfg: Config, path: seq<State>, acts: seq<Action>, f: Name, i: nat, j: nat)
    requires Runs(cfg, path, acts) && Inv(cfg, path[0]) && i <= j < |path|
    requires forall m :: i <= m < j ==> !Stamps(acts[m], f)
    requires OwnedBy(path[j].w, f, OwnedName(f))
    ensures OwnedBy(path[i].w, f, OwnedName(f))
    ensures HashOf(path[j].w.servers[OwnedName(f)].annotations)
            == if exists m :: i <= m < j && acts[m] == Env(UserUnstamp(OwnedName(f))) then ""
               else HashOf(path[i].w.servers[OwnedName(f)].annotations)
    decreases j - i
  {
    hide Inv, Step, HashOf;
    if i < j {
      RunKeeps(cfg, path, acts, j - 1);
      assert !Stamps(acts[j - 1], f);
      StepCarries(cfg, path[j - 1], acts[j - 1], path[j], f);
      StampStays(cfg, path, acts, f, i, j - 1);
    }
  }

  /** What a fleet's GameServer runs: the defaulted spec of the template that was deployed last. Its stamp, if it has
      one, is the hash of the template that was stamped last. So as long as no patch has stamped it since the last
      deploy, the stamp tells the template; after a patch it does exactly if both templates have one defaulted spec.
      */
  lemma StampTellsSpec(cfg: Config, path: seq<State>, acts: seq<Action>, f: Name, i: nat, k: nat, j: nat)
    requires Runs(cfg, path, acts) && Inv(cfg, path[0]) && j < |path| && OwnedBy(path[j].w, f, OwnedName(f))
    requires LastDeploy(acts, f, i, j) && LastStamp(acts, f, k, j)
    ensures i <= k && f in path[i].l.fleetPass && f in path[k].l.fleetPass
    ensures var gs, deployed, stamped := path[j].w.servers[OwnedName(f)], Wanted(path[i], f), Wanted(path[k], f);
            && gs.spec == DefaultSpec(deployed.spec)
            && HashOf(gs.annotations) == (if exists m :: k < m < j && acts[m] == Env(UserUnstamp(OwnedName(f))) then ""
                                          else ComputeTemplateHash(cfg, stamped))
            && (acts[k] != FleetCtl(f, PatchHash) ==> i == k)
            && (gs.spec == DefaultSpec(stamped.spec)
                <==> i == k || DefaultSpec(deployed.spec) == DefaultSpec(stamped.spec))
  {
    hide Inv, Step, HashOf, ComputeTemplateHash, DefaultSpec;
    RunKeeps(cfg, path, acts, i);
    RunKeeps(cfg, path, acts, k);
    ContentStays(cfg, path, acts, f, i + 1, j);
    StampStays(cfg, path, acts, f, k + 1, j);
    DeployLeaves(cfg, path[i], acts[i], path[i + 1], f);
    StampLeaves(cfg, path[k], acts[k], path[k + 1], f);
  }

  /** A GameServer that the fleet did not own at the beginning of a run has been deployed, and stamped, during it. */
  lemma {:induction false} Deployed(cfg: Config, path: seq<State>, acts: seq<Action>, f: Name, j: nat)
    returns (i: nat, k: nat)
    requires Runs(cfg, path, acts) && Inv(cfg, path[0]) && j < |path|
    requires !OwnedBy(path[0].w, f, OwnedName(f)) && OwnedBy(path[j].w, f, OwnedName(f))
    ensures LastDeploy(acts, f, i, j) && LastStamp(acts, f, k, j)
    decreases j
  {
    hide Inv, Step;
    var a := acts[j - 1];
    if Deploys(a, f) {
      return j - 1, j - 1;
    }
    RunKeeps(cfg, path, acts, j - 1);
    StepCarries(cfg, path[j - 1], a, path[j], f);
    i, k := Deployed(cfg, path, acts, f, j - 1);
    if Stamps(a, f) {
      k := j - 1;
    }
  }

  // ---- edits that are rolled out ----

  ghost predicate Latest(log: FleetLog) {
    log.stamp + 1 == |log.hashes|
  }

  /** A held fleet with no pass in flight, whose GameServer has not failed, bears a stamp other than its template's
      hash, and could take the template. */
  ghost predicate Drifted(cfg: Config, s: State, f: Name) {
    && Held(s.w, f) && !s.w.fleets[f].deleting && f !in s.l.fleetPass && OwnedBy(s.w, f, OwnedName(f))
    && UpdateGs in SteadyPlan(cfg, s.w, f, s.w.fleets[f])
  }

  /** What a finished rollout leaves: the template's spec, labels and hash, and the latest stamp in the log. */
  ghost predicate RolledOut(cfg: Config, s: State, f: Name, template: Template) {
    && OwnedBy(s.w, f, OwnedName(f)) && f in s.w.fleets && s.w.fleets[f].template == template
    && (var gs := s.w.servers[OwnedName(f)];
        && gs.spec == DefaultSpec(template.spec) && HashOf(gs.annotations) == ComputeTemplateHash(cfg, template)
        && forall key :: key in template.labels && key != FLEET_LABEL ==>
             key in gs.labels && gs.labels[key] == template.labels[key])
    && f in s.l.logs && Latest(s.l.logs[f])
  }

  /** Such a pass in flight, with what it began from. */
  ghost predicate Working(s: State, t: State, f: Name) {
    && Steady(t, f) && f in s.w.fleets && t.w.fleets[f] == s.w.fleets[f] && t.l.fleetPass[f].fleet == s.w.fleets[f]
    && t.w.now == s.w.now && f in s.l.logs && t.l.logs[f].hashes == s.l.logs[f].hashes && s.l.logs[f].hashes != []
    && t.l.fleetPass[f].epoch == |s.l.logs[f].hashes| - 1
  }

  lemma BeginRollout(cfg: Config, s: State, f: Name) returns (t: State)
    requires Inv(cfg, s) && Drifted(cfg, s, f)
    ensures Step(cfg, s, FleetCtl(f, Begin), t) && Working(s, t, f) && t.w == s.w && Inv(cfg, t)
    ensures t.l.logs == s.l.logs
  {
    hide SteadyPlan, ComputeTemplateHash;
    assert FleetOk(cfg, s, f);
    t := s.(l := s.l.(fleetPass := s.l.fleetPass[f := FleetSnap(s.w.fleets[f], |s.l.logs[f].hashes| - 1)]));
    FleetStepKeeps(cfg, s, f, Begin, t);
  }

  lemma WriteRollout(cfg: Config, s: State, t: State, f: Name) returns (u: State)
    requires Inv(cfg, t) && Drifted(cfg, s, f) && Working(s, t, f) && t.w == s.w
    ensures Step(cfg, t, FleetCtl(f, UpdateGs), u) && Working(s, u, f) && RolledOut(cfg, u, f, s.w.fleets[f].template)
    ensures u.w.fleets == s.w.fleets && u.l.logs[f].rollouts == t.l.logs[f].rollouts
  {
    hide Inv, SteadyPlan, ComputeTemplateHash, UpdateServer, Redeploy, Accepts, DefaultSpec;
    UpdatesExactly(cfg, s.w, f, s.w.fleets[f]);
    UpdateAccepted(cfg, s.w, f, s.w.fleets[f].template);
    var r := UpdateServer(t.w, OwnedName(f), Redeploy(cfg, f, t.w.servers[OwnedName(f)], Wanted(t, f)));
    u := State(r.world, Stamped(t, f, 1));
    DeployLeaves(cfg, t, FleetCtl(f, UpdateGs), u, f);
    UpdateKeepsRest(t.w, OwnedName(f), Redeploy(cfg, f, t.w.servers[OwnedName(f)], Wanted(t, f)));
  }

  lemma UpdateKeepsRest(w: World, n: Name, gs: GameServer)
    ensures UpdateServer(w, n, gs).world.fleets == w.fleets && UpdateServer(w, n, gs).world.now == w.now
  {
  }

  lemma StartHistory(st: FleetStatus, from: string, to: string, now: nat)
    ensures StartEdit(st, from, to, now).history == st.history + [Rollout(now, None, from, to, "", "")]
  {
  }

  lemma RecordRollout(cfg: Config, s: State, u: State, f: Name, from: string) returns (v: State)
    requires Inv(cfg, s) && Working(s, u, f) && u.w.fleets == s.w.fleets && u.l.logs[f].rollouts == s.l.logs[f].rollouts
    requires RolledOut(cfg, u, f, s.w.fleets[f].template)
    requires !(cfg.capHistory && |s.w.fleets[f].status.history| >= 10)
    ensures Step(cfg, u, FleetCtl(f, StartStatus(from, s.w.now)), v) && RolledOut(cfg, v, f, s.w.fleets[f].template)
    ensures f in v.l.fleetPass && v.l.logs[f].hashes == s.l.logs[f].hashes
    ensures v.w.fleets[f].status.history
            == s.w.fleets[f].status.history
              + [Rollout(s.w.now, None, from, s.w.fleets[f].template.spec.version, "", "")]
  {
    hide Inv, StartEdit, DefaultSpec, ComputeTemplateHash, LastTime;
    var fleet := u.w.fleets[f];
    StartHistory(fleet.status, from, fleet.template.spec.version, s.w.now);
    StartNeedsRoom(cfg, u, f, from, s.w.now);
    HistoryBeforeNow(cfg, s, f);
    var after := StartEdit(fleet.status, from, fleet.template.spec.version, s.w.now);
    var log := u.l.logs[f].(rollouts := u.l.logs[f].rollouts
                              + [Rollout(s.w.now, None, from, fleet.template.spec.version, "", "")]);
    v := State(UpdateFleetStatus(cfg, u.w, f, fleet.(status := after)).world,
               u.l.(logs := u.l.logs[f := log]));
  }

  lemma RolloutPlan(cfg: Config, s: State, f: Name)
    requires Inv(cfg, s) && Drifted(cfg, s, f)
    ensures var fleet := s.w.fleets[f];
            FleetPlan(cfg, s.w, f)
            == if cfg.capHistory && |fleet.status.history| >= 10 then [Begin, UpdateGs, End]
               else [Begin, UpdateGs, StartStatus(s.w.servers[OwnedName(f)].spec.version, s.w.now), End]
  {
    hide Inv, UpdateServer, Redeploy, ComputeTemplateHash, Accepts, ServePlan;
    UpdatesExactly(cfg, s.w, f, s.w.fleets[f]);
    UpdateAccepted(cfg, s.w, f, s.w.fleets[f].template);
  }

  lemma EndRollout(cfg: Config, u: State, f: Name, template: Template) returns (v: State)
    requires RolledOut(cfg, u, f, template) && f in u.l.fleetPass
    ensures Step(cfg, u, FleetCtl(f, End), v) && RolledOut(cfg, v, f, template) && v.w == u.w
    ensures f !in v.l.fleetPass && v.l.logs == u.l.logs
  {
    hide ComputeTemplateHash, DefaultSpec;
    v := u.(l := u.l.(fleetPass := u.l.fleetPass - {f}));
  }

  /** One undisturbed pass rolls a drifted template out. */
  lemma RolloutTurn(cfg: Config, s: State, f: Name) returns (path: seq<State>)
    requires Inv(cfg, s) && Drifted(cfg, s, f)
    ensures Runs(cfg, path, FleetActs(f, FleetPlan(cfg, s.w, f))) && path[0] == s
    ensures var t := path[|path| - 1];
            && RolledOut(cfg, t, f, s.w.fleets[f].template) && f !in t.l.fleetPass
            && f in s.l.logs && t.l.logs[f].hashes == s.l.logs[f].hashes
    ensures var fleet, after := s.w.fleets[f], path[|path| - 1].w.fleets[f];
            after.status.history
            == if cfg.capHistory && |fleet.status.history| >= 10 then fleet.status.history
               else fleet.status.history + [Rollout(s.w.now, None, s.w.servers[OwnedName(f)].spec.version,
                                                    fleet.template.spec.version, "", "")]
  {
    hide Inv, Step, RolledOut, SteadyPlan, FleetPlan;
    var t := BeginRollout(cfg, s, f);
    var u := WriteRollout(cfg, s, t, f);
    var from, fleet := s.w.servers[OwnedName(f)].spec.version, s.w.fleets[f];
    RolloutPlan(cfg, s, f);
    if cfg.capHistory && |fleet.status.history| >= 10 {
      var v := EndRollout(cfg, u, f, fleet.template);
      path := [s, t, u, v];
      assert FleetActs(f, [Begin, UpdateGs, End])
             == [FleetCtl(f, Begin), FleetCtl(f, UpdateGs), FleetCtl(f, End)];
    } else {
      var v := RecordRollout(cfg, s, u, f, from);
      var w := EndRollout(cfg, v, f, fleet.template);
      path := [s, t, u, v, w];
      assert FleetActs(f, [Begin, UpdateGs, StartStatus(from, s.w.now), End])
             == [FleetCtl(f, Begin), FleetCtl(f, UpdateGs), FleetCtl(f, StartStatus(from, s.w.now)), FleetCtl(f, End)];
    }
  }

  // ---- edits that are not ----

  /** Under the latest stamp a GameServer is left as it is: over any run in which no edit changes the template's hash
      and no new GameServer is made, the template is never written, and spec, labels and annotations but for the stamp
      stay. */
  lemma LatestStays(cfg: Config, path: seq<State>, acts: seq<Action>, f: Name)
    requires Runs(cfg, path, acts) && Inv(cfg, path[0]) && SameFleet(acts, f) && HashChanges(cfg, path, acts, f) == 0
    requires f in path[0].w.fleets && f in path[0].l.logs && Latest(path[0].l.logs[f])
    requires FleetCtl(f, CreateGs) !in acts && OwnedBy(path[|acts|].w, f, OwnedName(f))
    ensures FleetCtl(f, UpdateGs) !in acts && OwnedBy(path[0].w, f, OwnedName(f))
    ensures SameContent(path[0].w.servers[OwnedName(f)], path[|acts|].w.servers[OwnedName(f)])
  {
    hide Inv, Step, HashChanges, SameContent;
    Converges(cfg, path, acts, f);
    forall m | 0 <= m < |acts| ensures !Deploys(acts[m], f) {
      assert acts[m] in acts;
    }
    ContentStays(cfg, path, acts, f, 0, |acts|);
  }

  /** An edit changes the template's hash exactly if the specs have different hashes: never if only labels or
      annotations are edited, nor if two specs share one hash. Otherwise the log, and with it the latest stamp, is as
      before. */
  lemma EditSeen(cfg: Config, s: State, f: Name, template: Template, t: State)
    requires Inv(cfg, s) && EEditFleet(cfg, s, f, template, t)
    ensures Changes(cfg, s, Env(UserEditFleet(f, template)), f)
            <==> ComputeTemplateHash(cfg, template) != ComputeTemplateHash(cfg, s.w.fleets[f].template)
    ensures template.spec == s.w.fleets[f].template.spec ==> !Changes(cfg, s, Env(UserEditFleet(f, template)), f)
    ensures !Changes(cfg, s, Env(UserEditFleet(f, template)), f) <==> t.l == s.l
    ensures t.w.servers == s.w.servers
  {
    hide ComputeTemplateHash, FleetStatusOk, HistoryOk;
    if template.spec == s.w.fleets[f].template.spec {
      HashOfSpec(cfg, template, s.w.fleets[f].template);
    }
    assert FleetOk(cfg, s, f);
  }

  lemma HashOfSpec(cfg: Config, a: Template, b: Template)
    requires a.spec == b.spec
    ensures ComputeTemplateHash(cfg, a) == ComputeTemplateHash(cfg, b)
  {
  }

  /** A patch over a GameServer without a stamp puts the pass's hash on whatever spec it has. With the latest template
      that is the latest stamp: an edit made while the stamp was missing is lost, unless the spec happens to be the
      same. */
  lemma PatchSettles(cfg: Config, s: State, f: Name, t: State)
    requires Inv(cfg, s) && FPatchHash(cfg, s, f, t) && OwnedBy(s.w, f, OwnedName(f))
    requires s.l.fleetPass[f].epoch == |s.l.logs[f].hashes| - 1
    ensures OwnedBy(t.w, f, OwnedName(f)) && SameContent(s.w.servers[OwnedName(f)], t.w.servers[OwnedName(f)])
    ensures HashOf(t.w.servers[OwnedName(f)].annotations) == ComputeTemplateHash(cfg, Wanted(s, f))
    ensures f in t.l.logs && Latest(t.l.logs[f])
  {
    hide Inv, ComputeTemplateHash, DefaultSpec, ValidSpec;
    StoredSpec(cfg, s, OwnedName(f));
    StaysOwned(cfg, s, OwnedName(f));
  }

  lemma StaysOwned(cfg: Config, s: State, n: Name)
    requires Inv(cfg, s) && n in s.w.servers
    ensures s.w.servers[n].deleting ==> s.w.servers[n].finalizers != []
  {
    assert ServerOk(cfg, s, n);
  }

  /** Annotations of the template other than the stamp reach a GameServer only when it is made. */
  lemma {:induction false} AnnotationsStay(cfg: Config, path: seq<State>, acts: seq<Action>, f: Name, i: nat, j: nat)
    requires Runs(cfg, path, acts) && Inv(cfg, path[0]) && i <= j < |path|
    requires forall m :: i <= m < j ==> acts[m] != FleetCtl(f, CreateGs)
    requires OwnedBy(path[j].w, f, OwnedName(f))
    ensures OwnedBy(path[i].w, f, OwnedName(f))
    ensures WithoutStamp(path[i].w.servers[OwnedName(f)].annotations)
            == WithoutStamp(path[j].w.servers[OwnedName(f)].annotations)
    decreases j - i
  {
    hide Inv, Step, WithoutStamp, ComputeTemplateHash, DefaultSpec;
    if i < j {
      RunKeeps(cfg, path, acts, j - 1);
      if acts[j - 1] == FleetCtl(f, UpdateGs) {
        DeployLeaves(cfg, path[j - 1], acts[j - 1], path[j], f);
      } else {
        StepCarries(cfg, path[j - 1], acts[j - 1], path[j], f);
      }
      AnnotationsStay(cfg, path, acts, f, i, j - 1);
    }
  }
}

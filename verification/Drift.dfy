/** Template drift over whole runs: in-place spec writes are bounded by template changes, and stop. */
module Drift {
  import opened Types
  import opened Webhook
  import opened TemplateHash
  import opened Store
  import opened Actions
  import opened Invariants
  import opened Preservation
  import opened Evolution
  import opened Plans

  /** Successful in-place spec writes of the fleet's GameServer in a run. */
  function Writes(acts: seq<Action>, f: Name): nat {
    if acts == [] then 0
    else Writes(acts[..|acts| - 1], f) + if acts[|acts| - 1] == FleetCtl(f, UpdateGs) then 1 else 0
  }

  /** Template edits of the run that changed the template's hash. */
  function HashChanges(cfg: Config, path: seq<State>, acts: seq<Action>, f: Name): nat
    requires |path| == |acts| + 1
  {
    if acts == [] then 0
    else var k := |acts| - 1;
         HashChanges(cfg, path[..k + 1], acts[..k], f) + if Changes(cfg, path[k], acts[k], f) then 1 else 0
  }

  ghost predicate SameFleet(acts: seq<Action>, f: Name) {
    forall i :: 0 <= i < |acts| ==> !Creates(acts[i], f)
  }

  lemma RunPrefix(cfg: Config, path: seq<State>, acts: seq<Action>)
    requires Runs(cfg, path, acts) && acts != []
    ensures Runs(cfg, path[..|acts|], acts[..|acts| - 1])
  {
    hide Step;
  }

  /** Each write moves the stamp strictly forward in the hash log, and the log grows only with changes. */
  lemma {:induction false} WritesMoveStamp(cfg: Config, path: seq<State>, acts: seq<Action>, f: Name)
    requires Runs(cfg, path, acts) && Inv(cfg, path[0]) && f in path[0].l.logs && SameFleet(acts, f)
    ensures f in path[|acts|].l.logs
    ensures var a, b := path[0].l.logs[f], path[|acts|].l.logs[f];
            && b.writes == a.writes + Writes(acts, f)
            && a.stamp + Writes(acts, f) <= b.stamp
            && |b.hashes| == |a.hashes| + HashChanges(cfg, path, acts, f)
            && a.hashes <= b.hashes
            && (a.stamp < |a.hashes| ==> b.stamp < |b.hashes|)
    decreases |acts|
  {
    hide Inv, Step;
    if acts != [] {
      var k := |acts| - 1;
      RunPrefix(cfg, path, acts);
      WritesMoveStamp(cfg, path[..k + 1], acts[..k], f);
      RunKeeps(cfg, path, acts, k);
      StepLogNext(cfg, path[k], acts[k], path[k + 1], f);
    }
  }

  /** The stored fleet's stamp is one of the logged hashes. */
  lemma StampInLog(cfg: Config, s: State, f: Name)
    requires Inv(cfg, s) && f in s.w.fleets
    ensures f in s.l.logs && s.l.logs[f].stamp < |s.l.logs[f].hashes|
    ensures s.l.logs[f].hashes[|s.l.logs[f].hashes| - 1] == ComputeTemplateHash(cfg, s.w.fleets[f].template)
  {
    hide ComputeTemplateHash;
    assert FleetOk(cfg, s, f);
  }

  /** From a fleet's creation on, in-place spec writes never exceed the template's hash changes. */
  lemma WritesBoundedByChanges(cfg: Config, path: seq<State>, acts: seq<Action>, f: Name)
    requires Runs(cfg, path, acts) && Inv(cfg, path[0]) && SameFleet(acts, f)
    requires f in path[0].w.fleets && f in path[0].l.logs && |path[0].l.logs[f].hashes| == 1
    ensures Writes(acts, f) <= HashChanges(cfg, path, acts, f)
  {
    hide Inv, Step, ComputeTemplateHash;
    StampInLog(cfg, path[0], f);
    WritesMoveStamp(cfg, path, acts, f);
  }

  /** With the template left alone, at most as many writes remain as the stamp lags behind the log; once the
      stamp is the latest hash the GameServer's spec is never written again. */
  lemma Converges(cfg: Config, path: seq<State>, acts: seq<Action>, f: Name)
    requires Runs(cfg, path, acts) && Inv(cfg, path[0]) && SameFleet(acts, f)
    requires f in path[0].w.fleets
    requires HashChanges(cfg, path, acts, f) == 0
    ensures f in path[0].l.logs
    ensures var log := path[0].l.logs[f]; Writes(acts, f) <= |log.hashes| - 1 - log.stamp
    ensures path[0].l.logs[f].stamp == |path[0].l.logs[f].hashes| - 1 ==> FleetCtl(f, UpdateGs) !in acts
  {
    hide Inv, Step, ComputeTemplateHash;
    StampInLog(cfg, path[0], f);
    WritesMoveStamp(cfg, path, acts, f);
    if Writes(acts, f) == 0 {
      NoWrites(acts, f);
    }
  }

  lemma {:induction false} NoWrites(acts: seq<Action>, f: Name)
    requires Writes(acts, f) == 0
    ensures FleetCtl(f, UpdateGs) !in acts
    decreases |acts|
  {
    if acts != [] {
      NoWrites(acts[..|acts| - 1], f);
      assert acts == acts[..|acts| - 1] + [acts[|acts| - 1]];
    }
  }

  /** The in-place update stores the defaulted template under the template's own hash. */
  lemma UpdateStores(cfg: Config, s: State, f: Name, t: State)
    requires Inv(cfg, s) && FUpdateGs(cfg, s, f, t) && !s.w.servers[OwnedName(f)].deleting
    ensures OwnedBy(t.w, f, OwnedName(f))
    ensures t.w.servers[OwnedName(f)].spec == DefaultSpec(Wanted(s, f).spec)
    ensures HashOf(t.w.servers[OwnedName(f)].annotations) == ComputeTemplateHash(cfg, Wanted(s, f))
    ensures t.w.servers[OwnedName(f)].uid == s.w.servers[OwnedName(f)].uid
  {
    hide ComputeTemplateHash, DefaultSpec;
    var gs := UpdateGsWrite(cfg, s, f, t);
  }

  /** The stored spec differs from the template wherever admission filled something in, so comparing specs
      would never settle: exactly the templates that are their own defaulted form compare equal. */
  lemma SpecComparisonSettles(cfg: Config, s: State, f: Name, t: State)
    requires Inv(cfg, s) && FUpdateGs(cfg, s, f, t) && !s.w.servers[OwnedName(f)].deleting
    ensures t.w.servers[OwnedName(f)].spec == Wanted(s, f).spec <==> DefaultSpec(Wanted(s, f).spec) == Wanted(s, f).spec
  {
    hide ComputeTemplateHash, DefaultSpec;
    UpdateStores(cfg, s, f, t);
  }

  // ---- which edits are rolled out ----

  /** What a caller can check before asking: the template is valid and keeps the GameServer's type. */
  predicate Accepts(gs: GameServer, template: Template) {
    ValidSpec(template.spec) && template.spec.gameType == gs.spec.gameType
  }

  /** The in-place update on the current version is accepted exactly then, and refused as invalid otherwise. */
  lemma UpdateAccepted(cfg: Config, w: World, f: Name, template: Template)
    requires OwnedName(f) in w.servers
    ensures UpdateServer(w, OwnedName(f), Redeploy(cfg, f, w.servers[OwnedName(f)], template)).err
            == if Accepts(w.servers[OwnedName(f)], template) then None else Some(Invalid)
  {
    hide ComputeTemplateHash;
    DefaultKeepsVerdict(template.spec);
  }

  /** A pass in flight can write its template over the stored GameServer exactly if that bears a stamp, the stamp is not
      the hash of the template's spec, and the template is valid and keeps the type. */
  lemma UpdateLands(cfg: Config, s: State, f: Name)
    requires Inv(cfg, s) && Steady(s, f) && OwnedBy(s.w, f, OwnedName(f))
    ensures var gs := s.w.servers[OwnedName(f)];
            (exists t :: FUpdateGs(cfg, s, f, t))
            <==> HashOf(gs.annotations) !in {"", ComputeTemplateHash(cfg, Wanted(s, f))} && Accepts(gs, Wanted(s, f))
  {
    hide ComputeTemplateHash, UpdateServer, Redeploy, Accepts;
    var gs := s.w.servers[OwnedName(f)];
    var r := UpdateServer(s.w, OwnedName(f), Redeploy(cfg, f, gs, Wanted(s, f)));
    UpdateAccepted(cfg, s.w, f, Wanted(s, f));
    if r.err == None && HashOf(gs.annotations) !in {"", ComputeTemplateHash(cfg, Wanted(s, f))} {
      assert FUpdateGs(cfg, s, f, State(r.world, Stamped(s, f, 1)));
    }
  }

  /** An undisturbed pass does so exactly then, over a GameServer that has not failed. */
  lemma UpdatesExactly(cfg: Config, w: World, f: Name, fleet: Fleet)
    ensures UpdateGs in SteadyPlan(cfg, w, f, fleet)
            <==> && OwnedBy(w, f, OwnedName(f)) && w.servers[OwnedName(f)].status.phase != Failed
                 && HashOf(w.servers[OwnedName(f)].annotations) !in {"", ComputeTemplateHash(cfg, fleet.template)}
                 && Accepts(w.servers[OwnedName(f)], fleet.template)
  {
    hide ComputeTemplateHash, UpdateServer, DefaultSpec, ValidSpec, Redeploy, ServePlan, Accepts;
    var plan := SteadyPlan(cfg, w, f, fleet);
    if OwnedBy(w, f, OwnedName(f)) {
      UpdateAccepted(cfg, w, f, fleet.template);
      ServeOnly(w, f, w.servers[OwnedName(f)]);
      if plan != [] {
        assert plan[0] in plan;
      }
    } else {
      var r := CreateServer(w, OwnedName(f), BuildServer(cfg, f, fleet.template));
      if r.err == None {
        ServeOnly(w, f, r.world.servers[OwnedName(f)]);
      }
    }
  }

  /** An undisturbed pass over a GameServer that has not failed leaves its spec and its stamp alone exactly when the
      stamp is the template's hash, or when the template that drifted is not one that can be rolled out. */
  lemma QuietWhenStamped(cfg: Config, w: World, f: Name, fleet: Fleet)
    requires OwnedBy(w, f, OwnedName(f)) && w.servers[OwnedName(f)].status.phase != Failed
    ensures var gs := w.servers[OwnedName(f)];
            UpdateGs !in SteadyPlan(cfg, w, f, fleet) && PatchHash !in SteadyPlan(cfg, w, f, fleet)
            <==> || HashOf(gs.annotations) == ComputeTemplateHash(cfg, fleet.template)
                 || (HashOf(gs.annotations) != "" && !Accepts(gs, fleet.template))
  {
    hide ComputeTemplateHash, UpdateServer, Redeploy, ServePlan, Accepts;
    var gs := w.servers[OwnedName(f)];
    var plan := SteadyPlan(cfg, w, f, fleet);
    UpdateAccepted(cfg, w, f, fleet.template);
    ServeOnly(w, f, gs);
    if plan != [] {
      assert plan[0] in plan;
    }
  }

  lemma ServeOnly(w: World, f: Name, gs: GameServer)
    ensures UpdateGs !in ServePlan(w, f, gs) && PatchHash !in ServePlan(w, f, gs)
  {
  }
}

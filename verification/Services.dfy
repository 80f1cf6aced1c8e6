/** Services over whole runs: whose pods they select, for how long, and when two owners clash over one name. */
module Services {
  import opened Types
  import opened Live
  import opened Webhook
  import opened TemplateHash
  import opened Builders
  import opened Store
  import opened Actions
  import opened Invariants
  import opened Preservation
  import opened Evolution

  // ---- who writes a Service ----

  /** The names under which the Services of GameServer `n` are written. */
  predicate ServesAs(n: Name, k: Name) {
    k == n || k == n + "-headless"
  }

  predicate WritesService(a: Action, k: Name) {
    match a
    case FleetCtl(f, act) => act.ServeFleet? && f == k
    case ServerCtl(_, act) => act.Serve? && act.name == k
    case Env(_) => false
  }

  /** Only the two kinds of Service writes change what a Service is; fleet deletion and the garbage collector remove
      it. */
  lemma ServiceNext(cfg: Config, s: State, a: Action, t: State, k: Name)
    requires Step(cfg, s, a, t) && !WritesService(a, k)
    ensures k in t.w.services ==> k in s.w.services && t.w.services[k] == s.w.services[k]
  {
    hide FleetStep, ServerStep, EnvStep;
    match a
    case FleetCtl(f, act) => ServiceByFleet(cfg, s, f, act, t, k);
    case ServerCtl(n, act) => ServiceByServer(cfg, s, n, act, t, k);
    case Env(act) => ServiceByOthers(cfg, s, act, t, k);
  }

  lemma ServiceByFleet(cfg: Config, s: State, f: Name, act: FleetAct, t: State, k: Name)
    requires FleetStep(cfg, s, f, act, t) && !WritesService(FleetCtl(f, act), k)
    ensures k in t.w.services ==> k in s.w.services && t.w.services[k] == s.w.services[k]
  {
    hide ComputeTemplateHash, DefaultSpec, ValidSpec, BuildServer, Redeploy, Steady, SyncEdit, StartEdit,
      CompleteEdit, CreatedEdit, ResetEdit, Without, LastTime, CloseLast, NoneOwned;
  }

  lemma ServiceByServer(cfg: Config, s: State, n: Name, act: ServerAct, t: State, k: Name)
    requires ServerStep(cfg, s, n, act, t) && !WritesService(ServerCtl(n, act), k)
    ensures k in t.w.services ==> k in s.w.services && t.w.services[k] == s.w.services[k]
  {
    hide DefaultSpec, ValidSpec, ProbeEdit, UnregisteredEdit, StatefulSetFor, Without, Builders.SyncSet, Drained;
  }

  lemma ServiceByOthers(cfg: Config, s: State, act: EnvAct, t: State, k: Name)
    requires EnvStep(cfg, s, act, t)
    ensures k in t.w.services ==> k in s.w.services && t.w.services[k] == s.w.services[k]
  {
    hide ComputeTemplateHash, DefaultSpec, ValidSpec, Rehash, Toward, NewFleet;
  }

  /** What a write leaves in the Service. */
  lemma WrittenSelector(cfg: Config, s: State, a: Action, t: State, k: Name)
    requires Step(cfg, s, a, t) && WritesService(a, k)
    ensures k in t.w.services && t.w.servers == s.w.servers
    ensures a.FleetCtl? ==> t.w.services[k].selector == GameServerLabels(OwnedName(k), a.fact.gameType)
    ensures a.ServerCtl? ==> && ServesAs(a.n, k) && a.n in s.l.serverPass
                             && t.w.services[k].selector == GameServerLabels(a.n, s.l.serverPass[a.n].spec.gameType)
  {
    hide GameServerLabels;
  }

  /** Exactly when a write leaves the Service selecting the pods of GameServer `n`: when it is its own controller's,
      of a pass that read the type it has, or that of the fleet one gets by dropping "-gs", for the type it has. Under
      one of its own names the latter cannot be: any other writer of that name takes the Service away from it. */
  lemma WhoServes(cfg: Config, s: State, a: Action, t: State, n: Name, k: Name)
    requires Step(cfg, s, a, t) && WritesService(a, k) && n in t.w.servers
    ensures k in t.w.services
    ensures var gameType := t.w.servers[n].spec.gameType;
            Selects(t.w.services[k].selector, GameServerLabels(n, gameType))
            <==> || (a.ServerCtl? && a.n == n && n in s.l.serverPass && s.l.serverPass[n].spec.gameType == gameType)
                 || (a.FleetCtl? && n == OwnedName(k) && a.fact.gameType == gameType)
    ensures ServesAs(n, k) ==> n != OwnedName(k)
  {
    hide Step, GameServerLabels;
    WrittenSelector(cfg, s, a, t, k);
    var gameType := t.w.servers[n].spec.gameType;
    assert |OwnedName(k)| == |k| + 3;
    if a.FleetCtl? {
      SelectorIsExact(OwnedName(k), a.fact.gameType, n, gameType);
    } else {
      SelectorIsExact(a.n, s.l.serverPass[a.n].spec.gameType, n, gameType);
    }
  }

  /** So a write of the Service named after a fleet leaves it selecting the pods of the fleet's GameServer exactly when
      it is the fleet's own. */
  lemma WhoServesFleet(cfg: Config, s: State, a: Action, t: State, f: Name)
    requires Step(cfg, s, a, t) && WritesService(a, f) && OwnedBy(t.w, f, OwnedName(f))
    ensures f in t.w.services
    ensures Selects(t.w.services[f].selector, GameServerLabels(OwnedName(f), t.w.servers[OwnedName(f)].spec.gameType))
            <==> a.FleetCtl?
  {
    hide Step, GameServerLabels;
    WhoServes(cfg, s, a, t, OwnedName(f), f);
    WrittenSelector(cfg, s, a, t, f);
    if a.FleetCtl? {
      ServesItsOwn(cfg, s, a, t, f);
    } else {
      assert |OwnedName(f)| > |f| >= |a.n|;
    }
  }

  lemma ServesItsOwn(cfg: Config, s: State, a: Action, t: State, f: Name)
    requires Step(cfg, s, a, t) && a.FleetCtl? && WritesService(a, f) && OwnedBy(t.w, f, OwnedName(f))
    ensures a.fact.gameType == t.w.servers[OwnedName(f)].spec.gameType
  {
    hide GameServerLabels;
  }

  // ---- who removes a Service ----

  /** A Service goes exactly when the fleet of its name is finalized, whosever it is, or it is collected. */
  lemma ServiceGoes(cfg: Config, s: State, a: Action, t: State, k: Name)
    requires Step(cfg, s, a, t) && k in s.w.services
    ensures k !in t.w.services <==> a == FleetCtl(k, DropService) || a == Env(CollectService(k))
  {
    hide FleetStep, ServerStep, EnvStep;
    match a
    case FleetCtl(f, act) => DroppedByFleet(cfg, s, f, act, t, k);
    case ServerCtl(n, act) => DroppedByServer(cfg, s, n, act, t);
    case Env(act) => DroppedByOthers(cfg, s, act, t, k);
  }

  lemma DroppedByFleet(cfg: Config, s: State, f: Name, act: FleetAct, t: State, k: Name)
    requires FleetStep(cfg, s, f, act, t) && k in s.w.services
    ensures k !in t.w.services <==> f == k && act.DropService?
  {
    hide ComputeTemplateHash, DefaultSpec, ValidSpec, BuildServer, Redeploy, Steady, SyncEdit, StartEdit,
      CompleteEdit, CreatedEdit, ResetEdit, Without, LastTime, CloseLast, NoneOwned;
  }

  lemma DroppedByServer(cfg: Config, s: State, n: Name, act: ServerAct, t: State)
    requires ServerStep(cfg, s, n, act, t)
    ensures s.w.services.Keys <= t.w.services.Keys
  {
    hide DefaultSpec, ValidSpec, ProbeEdit, UnregisteredEdit, StatefulSetFor, Without, Builders.SyncSet, Drained;
  }

  lemma DroppedByOthers(cfg: Config, s: State, act: EnvAct, t: State, k: Name)
    requires EnvStep(cfg, s, act, t) && k in s.w.services
    ensures k !in t.w.services <==> act == CollectService(k)
  {
    hide ComputeTemplateHash, DefaultSpec, ValidSpec, Rehash, Toward, NewFleet;
  }

  // ---- a GameServer's own Services ----

  /** Somebody else writes the name `k`: a fleet of that name, or another GameServer one of whose names it is. */
  predicate Clash(a: Action, n: Name, k: Name) {
    WritesService(a, k) && !(a.ServerCtl? && a.n == n)
  }

  /** Service `k`, if it is there, selects exactly the pods of the stored GameServer `n`, and the pass in flight over
      `n`, if any, read this GameServer and not an earlier one of its name. */
  ghost predicate ServesOwn(s: State, n: Name, k: Name) {
    && n in s.w.servers
    && (k in s.w.services ==> s.w.services[k].selector == GameServerLabels(n, s.w.servers[n].spec.gameType))
    && (n in s.l.serverPass ==> s.l.serverPass[n].uid == s.w.servers[n].uid)
  }

  lemma OwnMeansExact(s: State, n: Name, k: Name, m: Name, u: string)
    requires ServesOwn(s, n, k) && k in s.w.services
    ensures Selects(s.w.services[k].selector, GameServerLabels(m, u)) <==> m == n && u == s.w.servers[n].spec.gameType
  {
    SelectorIsExact(n, s.w.servers[n].spec.gameType, m, u);
  }

  /** A pass that read the stored GameServer makes its Services its own. */
  lemma ServedOnce(cfg: Config, s: State, k: Name, svc: Service, t: State, n: Name)
    requires Inv(cfg, s) && Step(cfg, s, ServerCtl(n, Serve(k, svc)), t)
    requires n in s.w.servers && s.l.serverPass[n].uid == s.w.servers[n].uid
    ensures k in t.w.services && ServesOwn(t, n, k)
  {
    hide GameServerLabels;
    assert PassOk(s, n);
  }

  lemma ServesNext(cfg: Config, s: State, a: Action, t: State, n: Name, k: Name)
    requires Inv(cfg, s) && Step(cfg, s, a, t) && ServesOwn(s, n, k) && !Clash(a, n, k) && n in t.w.servers
    ensures ServesOwn(t, n, k)
  {
    hide Inv, Step, GameServerLabels;
    StepServerNext(cfg, s, a, t, n);
    StepPassNext(cfg, s, a, t);
    assert (a.ServerCtl? && a.n == n) || SamePass(s.l.serverPass, t.l.serverPass, n);
    if a.ServerCtl? && a.n == n {
      PassReadsStored(cfg, s, n, a.sact, t);
    }
    if WritesService(a, k) {
      WrittenSelector(cfg, s, a, t, k);
      SameTypeRead(cfg, s, n);
    } else {
      ServiceNext(cfg, s, a, t, k);
    }
  }

  lemma PassReadsStored(cfg: Config, s: State, n: Name, act: ServerAct, t: State)
    requires Step(cfg, s, ServerCtl(n, act), t)
    ensures n in t.l.serverPass ==>
              (n in s.l.serverPass && t.l.serverPass[n] == s.l.serverPass[n])
              || (n in s.w.servers && t.l.serverPass[n] == s.w.servers[n] && t.w == s.w)
  {
    hide UpdateServer, UpdateServerStatus, CreateSet, UpdateSet, PutService, ProbeEdit, UnregisteredEdit,
      StatefulSetFor, Without, Builders.SyncSet, Drained;
  }

  lemma SameTypeRead(cfg: Config, s: State, n: Name)
    requires Inv(cfg, s) && n in s.w.servers && n in s.l.serverPass && s.l.serverPass[n].uid == s.w.servers[n].uid
    ensures s.l.serverPass[n].spec.gameType == s.w.servers[n].spec.gameType
  {
    assert PassOk(s, n);
  }

  /** Once a GameServer's own controller has written Service `k`, the Service selects exactly the pods of this
      GameServer for as long as it is stored, over any run in which nobody else writes that name. */
  lemma {:induction false} KeepsServing(cfg: Config, path: seq<State>, acts: seq<Action>, n: Name, k: Name, j: nat)
    requires Runs(cfg, path, acts) && Inv(cfg, path[0]) && j < |path| && ServesOwn(path[0], n, k)
    requires forall i :: 0 <= i <= j ==> n in path[i].w.servers
    requires forall i :: 0 <= i < j ==> !Clash(acts[i], n, k)
    ensures ServesOwn(path[j], n, k) && path[j].w.servers[n].uid == path[0].w.servers[n].uid
    decreases j
  {
    hide Inv, Step, ServesOwn, Clash;
    if j != 0 {
      KeepsServing(cfg, path, acts, n, k, j - 1);
      RunKeeps(cfg, path, acts, j - 1);
      StepServerNext(cfg, path[j - 1], acts[j - 1], path[j], n);
      ServesNext(cfg, path[j - 1], acts[j - 1], path[j], n, k);
    }
  }

  // ---- the fleet's Service ----

  /** The fleet's Service, if it is there, selects exactly the pods of the fleet's GameServer. */
  ghost predicate FleetServed(s: State, f: Name) {
    && OwnedBy(s.w, f, OwnedName(f))
    && (f in s.w.services ==>
          s.w.services[f].selector == GameServerLabels(OwnedName(f), s.w.servers[OwnedName(f)].spec.gameType))
  }

  lemma FleetServedOnce(cfg: Config, s: State, f: Name, svc: Service, gameType: string, t: State)
    requires Step(cfg, s, FleetCtl(f, ServeFleet(svc, gameType)), t) && OwnedBy(s.w, f, OwnedName(f))
    ensures f in t.w.services && FleetServed(t, f)
  {
    hide GameServerLabels;
  }

  lemma FleetServedNext(cfg: Config, s: State, a: Action, t: State, f: Name)
    requires Inv(cfg, s) && Step(cfg, s, a, t) && FleetServed(s, f) && OwnedBy(t.w, f, OwnedName(f))
    requires !(a.ServerCtl? && WritesService(a, f))
    ensures FleetServed(t, f)
  {
    hide Inv, Step, GameServerLabels;
    StepServerNext(cfg, s, a, t, OwnedName(f));
    if WritesService(a, f) {
      FleetServedOnce(cfg, s, f, a.fact.svc, a.fact.gameType, t);
    } else {
      ServiceNext(cfg, s, a, t, f);
    }
  }

  /** Once written, a fleet's Service selects exactly the pods of the fleet's GameServer for as long as that is stored,
      over any run in which no GameServer one of whose names it is writes it. */
  lemma {:induction false} KeepsServingFleet(cfg: Config, path: seq<State>, acts: seq<Action>, f: Name, j: nat)
    requires Runs(cfg, path, acts) && Inv(cfg, path[0]) && j < |path| && FleetServed(path[0], f)
    requires forall i :: 0 <= i <= j ==> OwnedBy(path[i].w, f, OwnedName(f))
    requires forall i :: 0 <= i < j ==> !(acts[i].ServerCtl? && WritesService(acts[i], f))
    ensures FleetServed(path[j], f)
    decreases j
  {
    hide Inv, Step, FleetServed, WritesService;
    if j != 0 {
      KeepsServingFleet(cfg, path, acts, f, j - 1);
      RunKeeps(cfg, path, acts, j - 1);
      FleetServedNext(cfg, path[j - 1], acts[j - 1], path[j], f);
    }
  }

  // ---- names that keep apart ----

  /** No name of a fleet, and no name of a second GameServer, is one under which a GameServer is served. */
  predicate Apart(fleets: set<Name>, servers: set<Name>) {
    forall n :: n in servers ==> n !in fleets && n + "-headless" !in fleets && n + "-headless" !in servers
  }

  lemma HeadlessInjective(m: Name, n: Name)
    ensures m + "-headless" == n + "-headless" ==> m == n
  {
    assert (m + "-headless")[..|m|] == m && (n + "-headless")[..|n|] == n;
  }

  /** That is exactly when no two of them share the name of a Service. */
  lemma ApartExactly(fleets: set<Name>, servers: set<Name>)
    ensures Apart(fleets, servers)
            <==> forall n, k :: n in servers && ServesAs(n, k) ==>
                   k !in fleets && forall m :: m in servers && m != n ==> !ServesAs(m, k)
  {
    if Apart(fleets, servers) {
      forall n, k, m | n in servers && m in servers && m != n && ServesAs(n, k) ensures !ServesAs(m, k) {
        HeadlessInjective(m, n);
      }
    } else {
      var n :| n in servers && (n in fleets || n + "-headless" in fleets || n + "-headless" in servers);
      var h := n + "-headless";
      assert ServesAs(n, n) && ServesAs(n, h) && ServesAs(h, h) && |h| == |n| + 9;
    }
  }

  /** The controllers work on objects of these names only. */
  predicate Among(a: Action, fleets: set<Name>, servers: set<Name>) {
    (a.FleetCtl? ==> a.f in fleets) && (a.ServerCtl? ==> a.n in servers)
  }

  lemma NoClash(cfg: Config, s: State, a: Action, t: State, fleets: set<Name>, servers: set<Name>, n: Name, k: Name)
    requires Step(cfg, s, a, t) && Among(a, fleets, servers) && Apart(fleets, servers)
    requires n in servers
    ensures ServesAs(n, k) ==> !Clash(a, n, k)
    ensures k in fleets ==> !(a.ServerCtl? && WritesService(a, k))
  {
    hide Step, GameServerLabels, Apart;
    ApartExactly(fleets, servers);
    if WritesService(a, k) {
      WrittenSelector(cfg, s, a, t, k);
    }
  }

  /** Among names that keep apart, a GameServer's Services stay its own over every run. */
  lemma KeepsServingApart(cfg: Config, path: seq<State>, acts: seq<Action>, fleets: set<Name>,
                          servers: set<Name>, n: Name, k: Name, j: nat)
    requires Runs(cfg, path, acts) && Inv(cfg, path[0]) && j < |path| && ServesOwn(path[0], n, k)
    requires forall i :: 0 <= i <= j ==> n in path[i].w.servers
    requires Apart(fleets, servers) && forall i :: 0 <= i < |acts| ==> Among(acts[i], fleets, servers)
    requires n in servers && ServesAs(n, k)
    ensures ServesOwn(path[j], n, k) && path[j].w.servers[n].uid == path[0].w.servers[n].uid
  {
    hide Inv, Step, Apart, Among, Clash, ServesOwn;
    forall i | 0 <= i < j ensures !Clash(acts[i], n, k) {
      NoClash(cfg, path[i], acts[i], path[i + 1], fleets, servers, n, k);
    }
    KeepsServing(cfg, path, acts, n, k, j);
  }

  lemma KeepsServingFleetApart(cfg: Config, path: seq<State>, acts: seq<Action>, fleets: set<Name>,
                               servers: set<Name>, f: Name, j: nat)
    requires Runs(cfg, path, acts) && Inv(cfg, path[0]) && j < |path| && FleetServed(path[0], f)
    requires forall i :: 0 <= i <= j ==> OwnedBy(path[i].w, f, OwnedName(f))
    requires Apart(fleets, servers) && forall i :: 0 <= i < |acts| ==> Among(acts[i], fleets, servers)
    requires f in fleets && OwnedName(f) in servers
    ensures FleetServed(path[j], f)
  {
    hide Inv, Step, Apart, Among, FleetServed, WritesService;
    forall i | 0 <= i < j ensures !(acts[i].ServerCtl? && WritesService(acts[i], f)) {
      NoClash(cfg, path[i], acts[i], path[i + 1], fleets, servers, OwnedName(f), f);
    }
    KeepsServingFleet(cfg, path, acts, f, j);
  }
}

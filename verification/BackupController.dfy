/** The GameServerBackup controller: its finalizer protocol call by call, with others acting in between, and the
    status reports of its ordinary passes. */
module BackupController {
  import opened Types
  import opened Live
  import opened Store
  import opened Traces
  import opened Cluster
  import opened Backups
  import opened BackupProtocol

  // ---- the running system ----

  type BackupLog = Trace<BackupState, BackupAction>

  /** The controller's own actions; it works on one backup at a time. */
  function OfBackups(): BackupAction -> bool {
    (a: BackupAction) => a.BackupCtl?
  }

  /** The store of backups and Jobs behind calls that may fail. */
  class BackupCluster {
    var world: BackupWorld
    ghost var settled: map<Name, Settlement>
    ghost var path: seq<BackupState>
    ghost var run: seq<BackupAction>
    ghost var quiet: bool  // for the time being every call gets through and nobody else acts; no controller can set it

    ghost function Here(): BackupState
      reads this`world, this`settled
    {
      BackupState(world, settled)
    }

    ghost function Past(): BackupLog
      reads this`path, this`run
    {
      Trace(path, run)
    }

    ghost predicate Valid()
      reads this`world, this`settled, this`path, this`run
    {
      RunsOf(path, run) && path[0] == BACKUP_START && path[|run|] == Here()
    }

    constructor ()
      ensures Valid() && Here() == BACKUP_START && run == [] && !quiet
    {
      world, settled := BACKUP_START.w, map[];
      path, run, quiet := [BACKUP_START], [], false;
    }

    /** Times change: from now on the system is quiet, or no longer. */
    ghost method Turn(q: bool)
      modifies this`quiet
      ensures quiet == q
    {
      quiet := q;
    }

    /** Others act: any number of their actions. Callers know no more than this contract; the body shows the quiet
        case. */
    method Others()
      requires Valid()
      modifies this`world, this`settled, this`path, this`run
      ensures Valid() && old(run) <= run && old(path) <= path && NoneOf(OfBackups(), run[|old(run)|..])
      ensures quiet ==> run == old(run) && Here() == old(Here())
    {
    }

    method Weather() returns (fault: Fault)
      ensures quiet ==> fault == Delivered
    {
      fault := Delivered;
    }

    method Reach() returns (err: Option<Error>)
      ensures err == None || err == Some(Unavailable)
      ensures quiet ==> err == None
    {
      var fault := Weather();
      err := if fault == Delivered then None else Some(Unavailable);
    }

    /** A write: the store answers with `r`'s verdict; or the call fails, having taken effect (`took`) or not. */
    method Write(r: Answer, ghost b: Name, ghost act: BackupAct) returns (err: Option<Error>, ghost took: bool)
      requires Valid()
      requires if r.err == None then BackupStep(Here(), b, act, BackupState(r.world, settled)) else r.world == world
      modifies this`world, this`path, this`run
      ensures Valid() && Did(OfBackups(), quiet, old(Past()), Past(), if took then [BackupCtl(b, act)] else [])
      ensures if took then r.err == None && world == r.world else world == old(world)
      ensures err == r.err || err == Some(Unavailable)
      ensures err == None ==> took
      ensures quiet ==> err == r.err && (took <==> err == None)
    {
      hide StepOf, BackupStep, Did;
      var fault := Weather();
      took := fault != Dropped && r.err == None;
      if fault != Dropped && r.err == None {
        world := r.world;
        path := path + [Here()];
        run := run + [BackupCtl(b, act)];
        OneMoreAction(old(path), old(run), b, act, Here());
        DidOne(OfBackups(), quiet, old(Past()), Past(), BackupCtl(b, act));
      } else {
        DidNothing(OfBackups(), quiet, Past());
      }
      err := if fault == Delivered then r.err else Some(Unavailable);
    }

    /** Bookkeeping that touches nothing stored. */
    ghost method Note(b: Name, act: BackupAct, settled': map<Name, Settlement>)
      requires Valid() && BackupStep(Here(), b, act, BackupState(world, settled'))
      modifies this`settled, this`path, this`run
      ensures Valid() && settled == settled' && Did(OfBackups(), quiet, old(Past()), Past(), [BackupCtl(b, act)])
    {
      hide StepOf, BackupStep;
      settled := settled';
      path := path + [Here()];
      run := run + [BackupCtl(b, act)];
      OneMoreAction(old(path), old(run), b, act, Here());
      DidOne(OfBackups(), quiet, old(Past()), Past(), BackupCtl(b, act));
    }

    lemma Reachable()
      requires Valid()
      ensures BackupInv(Here())
    {
      hide StepOf;
      BackupRunKeeps(path, run, |run|);
    }
  }

  lemma OneMoreAction(path: seq<BackupState>, run: seq<BackupAction>, b: Name, act: BackupAct, t: BackupState)
    requires RunsOf(path, run) && BackupStep(path[|run|], b, act, t)
    ensures RunsOf(path + [t], run + [BackupCtl(b, act)])
  {
    hide BackupStep;
    var p, r := path + [t], run + [BackupCtl(b, act)];
    forall i | 0 <= i < |r| ensures StepOf(p[i], r[i], p[i + 1]) {
      if i < |run| {
        assert StepOf(path[i], run[i], path[i + 1]);
      }
    }
  }

  // ---- what a pass did ----

  /** From trace `x` to trace `y` the pass did exactly `acts`, in this order, whatever others did in between. */
  ghost predicate BackupDid(b: Name, quiet: bool, x: BackupLog, y: BackupLog, acts: seq<BackupAct>) {
    Did(OfBackups(), quiet, x, y, BackupActs(b, acts))
  }

  lemma BackupThen(b: Name, quiet: bool, x: BackupLog, y: BackupLog, z: BackupLog, a: seq<BackupAct>, d: seq<BackupAct>)
    requires BackupDid(b, quiet, x, y, a) && BackupDid(b, quiet, y, z, d)
    ensures BackupDid(b, quiet, x, z, a + d) && (a == [] ==> a + d == d) && (d == [] ==> a + d == a)
  {
    DidThen(OfBackups(), quiet, x, y, z, BackupActs(b, a), BackupActs(b, d));
    assert BackupActs(b, a + d) == BackupActs(b, a) + BackupActs(b, d);
  }

  lemma BackupExtends(b: Name, quiet: bool, x: BackupLog, y: BackupLog, acts: seq<BackupAct>)
    requires BackupDid(b, quiet, x, y, acts)
    ensures x.path <= y.path && x.run <= y.run
  {
  }

  lemma BackupIdle(b: Name, quiet: bool, x: BackupLog)
    ensures BackupDid(b, quiet, x, x, [])
  {
    DidNothing(OfBackups(), quiet, x);
    assert BackupActs(b, []) == [];
  }

  lemma BackupWrote(b: Name, quiet: bool, x: BackupLog, y: BackupLog, z: BackupLog, act: BackupAct, took: bool)
    requires BackupDid(b, quiet, x, y, [])
    requires Did(OfBackups(), quiet, y, z, if took then [BackupCtl(b, act)] else [])
    ensures BackupDid(b, quiet, x, z, if took then [act] else [])
  {
    assert BackupActs(b, [act]) == [BackupCtl(b, act)] && BackupActs(b, []) == [];
    BackupThen(b, quiet, x, y, z, [], if took then [act] else []);
  }

  // ---- what a pass may rely on ----

  /** `base` is a version of backup `b` as it once was stored: the same version means the same object. */
  ghost predicate Was(s: BackupState, b: Name, base: Backup) {
    && base.version <= s.w.revision
    && (b in s.w.backups ==>
          base.version <= s.w.backups[b].version && (base.version == s.w.backups[b].version ==> base == s.w.backups[b]))
  }

  /** A marked backup that keeps its finalizer stays, and what the pass has settled on stays settled. */
  ghost predicate PassGoesOn(s: BackupState, t: BackupState, b: Name) {
    && s.w.revision <= t.w.revision
    && (b in s.settled <==> b in t.settled) && (b in s.settled ==> s.settled[b] == t.settled[b])
  }

  lemma OthersStep(s: BackupState, a: BackupAction, t: BackupState, b: Name, base: Backup)
    requires BackupInv(s) && StepOf(s, a, t) && !(a.BackupCtl? && a.b == b) && Was(s, b, base)
    ensures PassGoesOn(s, t, b) && Was(t, b, base)
  {
    hide BackupInv, BackupOk, StatusOk, Terminal, Settles, UpdateBackup, UpdateBackupStatus, CreateJob, PutBackup,
      DeleteBackup, Reported;
    StepOfKeeps(s, a, t, b);
  }

  lemma {:induction false} OthersRun(path: seq<BackupState>, acts: seq<BackupAction>, b: Name, base: Backup, i: nat,
                                     j: nat)
    requires RunsOf(path, acts) && BackupInv(path[0]) && i <= j < |path|
    requires forall k :: i <= k < j ==> !(acts[k].BackupCtl? && acts[k].b == b)
    requires Was(path[i], b, base)
    ensures PassGoesOn(path[i], path[j], b) && Was(path[j], b, base)
    decreases j
  {
    hide StepOf, BackupInv, Was;
    if i < j {
      OthersRun(path, acts, b, base, i, j - 1);
      BackupRunKeeps(path, acts, j - 1);
      OthersStep(path[j - 1], acts[j - 1], path[j], b, base);
    }
  }

  lemma StartInOrder()
    ensures BackupInv(BACKUP_START)
  {
  }

  lemma OthersFrom(path: seq<BackupState>, run: seq<BackupAction>, path': seq<BackupState>, run': seq<BackupAction>,
                   b: Name, base: Backup)
    requires RunsOf(path, run) && RunsOf(path', run') && path'[0] == BACKUP_START
    requires path <= path' && run <= run' && NoneOf(OfBackups(), run'[|run|..])
    requires Was(path[|run|], b, base)
    ensures PassGoesOn(path[|run|], path'[|run'|], b) && Was(path'[|run'|], b, base)
  {
    hide StepOf, BackupInv, Was;
    StartInOrder();
    forall k | |run| <= k < |run'| ensures !(run'[k].BackupCtl? && run'[k].b == b) {
      assert run'[k] == run'[|run|..][k - |run|];
    }
    OthersRun(path', run', b, base, |run|, |run'|);
  }

  /** Others act before the pass's next call. */
  method PauseBackup(c: BackupCluster, b: Name, ghost base: Backup)
    requires c.Valid() && Was(c.Here(), b, base)
    modifies c`world, c`settled, c`path, c`run
    ensures c.Valid() && Was(c.Here(), b, base) && PassGoesOn(old(c.Here()), c.Here(), b)
    ensures BackupDid(b, c.quiet, old(c.Past()), c.Past(), [])
    ensures c.quiet ==> c.Here() == old(c.Here())
  {
    hide StepOf, Was, PassGoesOn;
    c.Others();
    OthersFrom(old(c.path), old(c.run), c.path, c.run, b, base);
    OthersDid(OfBackups(), c.quiet, old(c.Past()), c.Past());
    assert BackupActs(b, []) == [];
  }

  // ---- calls ----

  /** What a pass has in memory: a backup as it was stored, with the pass's reports on its status. */
  ghost predicate Copy(memory: Backup, base: Backup, rs: seq<Report>) {
    memory == base.(status := Reported(base.status, base.generation, rs))
  }

  lemma FreshCopy(base: Backup)
    ensures Copy(base, base, [])
  {
  }

  lemma SaveIsAction(s: BackupState, b: Name, base: Backup, memory: Backup, rs: seq<Report>)
    requires BackupInv(s) && Was(s, b, base) && Copy(memory, base, rs)
    ensures var r := UpdateBackupStatus(s.w, b, memory);
            && (if r.err == None then
                  && BackupStep(s, b, SaveReports(rs), s.(w := r.world)) && b in r.world.backups
                  && r.world.backups[b] == memory.(version := s.w.revision + 1)
                  && r.world == s.w.(revision := s.w.revision + 1, backups := r.world.backups)
                else r.world == s.w)
            && (b in s.w.backups && s.w.backups[b] == base ==> r.err == None)
  {
    hide Reported, StatusOk;
    assert BackupOk(s, b);
  }

  /** Status().Update: on the version the reports are about, or not at all. On success the object in memory is the
      stored one. */
  method SaveReportsOf(c: BackupCluster, b: Name, backup: LiveBackup, ghost base: Backup, ghost rs: seq<Report>)
    returns (err: Option<Error>, ghost base': Backup, ghost rs': seq<Report>, ghost acts: seq<BackupAct>)
    requires c.Valid() && Was(c.Here(), b, base) && Copy(backup.o, base, rs)
    modifies c`world, c`settled, c`path, c`run, backup
    ensures c.Valid() && Was(c.Here(), b, base') && Copy(backup.o, base', rs') && PassGoesOn(old(c.Here()), c.Here(), b)
    ensures base' == base.(version := base'.version, status := base'.status) && (err == None ==> rs' == [])
    ensures BackupDid(b, c.quiet, old(c.Past()), c.Past(), acts) && (acts == [] || acts == [SaveReports(rs)])
    ensures err == None ==> acts != []
    ensures c.quiet && old(b in c.world.backups && c.world.backups[b] == base) ==>
              && err == None && b in c.world.backups && c.world.backups[b] == base'
              && c.world == old(c.world).(revision := c.world.revision, backups := c.world.backups)
  {
    hide StepOf, BackupStep, UpdateBackupStatus, Reported, RunsOf, BackupOk, BackupInv, BackupDid, Did;
    PauseBackup(c, b, base);
    c.Reachable();
    ghost var s, y := c.Here(), c.Past();
    SaveIsAction(s, b, base, backup.o, rs);
    ghost var took;
    err, took := c.Write(UpdateBackupStatus(c.world, b, backup.o), b, SaveReports(rs));
    BackupWrote(b, c.quiet, old(c.Past()), y, c.Past(), SaveReports(rs), took);
    acts := if took then [SaveReports(rs)] else [];
    base', rs' := base, rs;
    if err == None {
      backup.o := c.world.backups[b];
      base', rs' := backup.o, [];
      FreshCopy(base');
    }
  }

  datatype Lookup = Found | NoPlatform | NoSecretThere | LookupFailed

  /** The two lookups of resolveStorageConfig. A negative answer is so when it is given. */
  method LookUpStorage(c: BackupCluster, b: Name, spec: BackupSpec, ghost base: Backup) returns (verdict: Lookup)
    requires c.Valid() && Was(c.Here(), b, base)
    modifies c`world, c`settled, c`path, c`run
    ensures c.Valid() && Was(c.Here(), b, base) && PassGoesOn(old(c.Here()), c.Here(), b)
    ensures verdict == NoPlatform || verdict == NoSecretThere ==> !StorageFound(c.world, spec)
    ensures BackupDid(b, c.quiet, old(c.Past()), c.Past(), [])
    ensures c.quiet ==> c.Here() == old(c.Here())
                        && verdict == if !c.world.platform && spec.storage == None then NoPlatform
                                      else if !SecretFound(c.world, spec) then NoSecretThere else Found
  {
    hide StepOf, RunsOf, BackupDid;
    ghost var x := c.Past();
    PauseBackup(c, b, base);
    ghost var y := c.Past();
    var err := c.Reach();
    if err != None {
      return LookupFailed;
    }
    if !c.world.platform && spec.storage == None {
      return NoPlatform;
    }
    if spec.storage.Some? && spec.storage.value.secret.Some? {
      PauseBackup(c, b, base);
      BackupThen(b, c.quiet, x, y, c.Past(), [], []);
      err := c.Reach();
      if err != None {
        return LookupFailed;
      }
      if spec.storage.value.secret.value !in c.world.secrets {
        return NoSecretThere;
      }
    }
    verdict := Found;
  }

  /** One more report on top of those the pass has made. */
  method AddReport(backup: LiveBackup, ghost base: Backup, ghost rs: seq<Report>, ready: bool, reason: string,
                   message: string, now: nat)
    requires Copy(backup.o, base, rs)
    modifies backup
    ensures Copy(backup.o, base, rs + [Report(None, ready, reason, message, now)])
  {
    hide Reported;
    backup.Conclude(ready, reason, message, now);
    ReportedMore(base.status, base.generation, rs, Report(None, ready, reason, message, now));
  }

  /** resolveStorageConfig's own report of a missing Secret; the write's error is ignored. */
  method ReportNoSecret(c: BackupCluster, b: Name, backup: LiveBackup, ghost base: Backup)
    returns (ghost base': Backup, ghost rs': seq<Report>, ghost acts: seq<BackupAct>)
    requires c.Valid() && Was(c.Here(), b, base) && backup.o == base
    modifies c`world, c`settled, c`path, c`run, backup
    ensures c.Valid() && Was(c.Here(), b, base') && Copy(backup.o, base', rs') && PassGoesOn(old(c.Here()), c.Here(), b)
    ensures base' == base.(version := base'.version, status := base'.status)
    ensures BackupDid(b, c.quiet, old(c.Past()), c.Past(), acts)
    ensures acts == [] || acts == [SaveReports([NoSecret(old(c.world.now))])]
    ensures c.quiet && old(b in c.world.backups && c.world.backups[b] == base) ==>
              && rs' == [] && acts != []
              && b in c.world.backups && c.world.backups[b] == base' && c.world.now == old(c.world.now)
  {
    hide Was, RunsOf, PassGoesOn, StepOf, BackupDid, Reported;
    var now := c.world.now;
    FreshCopy(base);
    AddReport(backup, base, [], false, "InvalidCredentials", "Referenced Secret not found", now);
    assert [] + [NoSecret(now)] == [NoSecret(now)];
    var ignored;
    ignored, base', rs', acts := SaveReportsOf(c, b, backup, base, [NoSecret(now)]);
  }

  // ---- finalize ----

  lemma ReleaseIsStep(s: BackupState, b: Name, base: Backup, memory: Backup)
    requires Was(s, b, base) && base.deleting && b in s.settled && s.settled[b].spec == base.spec
    requires memory == base.(status := memory.status, finalizers := Without(base.finalizers, BACKUP_FINALIZER))
    ensures var r := UpdateBackup(s.w, b, memory);
            && (if r.err == None then BackupStep(s, b, LetBackupGo, s.(w := r.world)) else r.world == s.w)
            && (b in s.w.backups && s.w.backups[b] == base ==> r.err == None)
  {
  }

  /** removeFinalizer: off the very version the pass decided on, or not at all. */
  method RemoveFrom(c: BackupCluster, b: Name, backup: LiveBackup, ghost base: Backup, ghost rs: seq<Report>)
    returns (result: Result, ghost acts: seq<BackupAct>)
    requires c.Valid() && Was(c.Here(), b, base) && Copy(backup.o, base, rs) && base.deleting
    requires b in c.settled && c.settled[b].spec == base.spec
    modifies c`world, c`settled, c`path, c`run, backup
    ensures c.Valid()
    ensures BackupDid(b, c.quiet, old(c.Past()), c.Past(), acts) && (acts == [] || acts == [LetBackupGo])
    ensures result == Return ==> acts == ReleasePlan(base)
    ensures c.quiet && old(b in c.world.backups && c.world.backups[b] == base) ==> result == Return
  {
    hide StepOf, BackupStep, UpdateBackup, RunsOf, Reported, Was, BackupDid, Did;
    BackupIdle(b, c.quiet, c.Past());
    if BACKUP_FINALIZER !in backup.o.finalizers {
      return Return, [];
    }
    var rest := Strip(backup.o.finalizers, BACKUP_FINALIZER);
    backup.o := backup.o.(finalizers := rest);
    PauseBackup(c, b, base);
    ghost var y := c.Past();
    ReleaseIsStep(c.Here(), b, base, backup.o);
    var err;
    ghost var took;
    err, took := c.Write(UpdateBackup(c.world, b, backup.o), b, LetBackupGo);
    BackupWrote(b, c.quiet, old(c.Past()), y, c.Past(), LetBackupGo, took);
    acts := if took then [LetBackupGo] else [];
    if err != None {
      return OnError(err.value), acts;
    }
    result := Return;
  }

  /** The pass notes why it lets the backup go. */
  ghost method SettleOn(c: BackupCluster, b: Name, base: Backup, cause: Cause)
    requires c.Valid() && Was(c.Here(), b, base) && Settles(c.world, b, base.spec, cause)
    modifies c`settled, c`path, c`run
    ensures c.Valid() && Was(c.Here(), b, base) && b in c.settled && c.settled[b].spec == base.spec
    ensures BackupDid(b, c.quiet, old(c.Past()), c.Past(), [Settle(base.spec, cause)])
  {
    hide StepOf, RunsOf, Settles;
    c.Note(b, Settle(base.spec, cause), c.settled[b := Settlement(base.spec, cause)]);
    assert BackupActs(b, [Settle(base.spec, cause)]) == [BackupCtl(b, Settle(base.spec, cause))];
  }

  /** What a finalizing pass does: create the Job, or settle on a cause, report if there is something to report, and
      only then let go. */
  ghost predicate StopActs(acts: seq<BackupAct>, spec: BackupSpec) {
    && |acts| <= 3
    && (acts != [] ==> if acts[0].MakeJob? then |acts| == 1 else acts[0].Settle? && acts[0].spec == spec)
    && (|acts| == 2 ==> acts[1].SaveReports? || acts[1] == LetBackupGo)
    && (|acts| == 3 ==> acts[1].SaveReports? && acts[2] == LetBackupGo)
  }

  /** A cause on the spot: settle and release. */
  method LetGoFor(c: BackupCluster, b: Name, backup: LiveBackup, ghost base: Backup, ghost cause: Cause)
    returns (result: Result, ghost acts: seq<BackupAct>)
    requires c.Valid() && Was(c.Here(), b, base) && backup.o == base && base.deleting
    requires Settles(c.world, b, base.spec, cause)
    modifies c`world, c`settled, c`path, c`run, backup
    ensures c.Valid()
    ensures BackupDid(b, c.quiet, old(c.Past()), c.Past(), acts) && StopActs(acts, base.spec)
    ensures |acts| <= 2 && acts != [] && acts[0] == Settle(base.spec, cause)
    ensures result == Return ==> acts == [Settle(base.spec, cause)] + ReleasePlan(base)
    ensures c.quiet && old(b in c.world.backups && c.world.backups[b] == base) ==> result == Return
  {
    hide Was, Settles, RunsOf, BackupDid;
    ghost var x := c.Past();
    SettleOn(c, b, base, cause);
    FreshCopy(base);
    ghost var y, more := c.Past(), [];
    result, more := RemoveFrom(c, b, backup, base, []);
    BackupThen(b, c.quiet, x, y, c.Past(), [Settle(base.spec, cause)], more);
    acts := [Settle(base.spec, cause)] + more;
  }

  /** The referenced Secret is missing: reported first, the write's error ignored, then let go. */
  method LetGoWithoutSecret(c: BackupCluster, b: Name, backup: LiveBackup, ghost base: Backup)
    returns (result: Result, ghost acts: seq<BackupAct>)
    requires c.Valid() && Was(c.Here(), b, base) && backup.o == base && base.deleting
             && !StorageFound(c.world, base.spec)
    modifies c`world, c`settled, c`path, c`run, backup
    ensures result == Return && BACKUP_FINALIZER in base.finalizers ==> LetBackupGo in acts
    ensures c.Valid()
    ensures BackupDid(b, c.quiet, old(c.Past()), c.Past(), acts) && StopActs(acts, base.spec)
    ensures acts != [] && acts[0] == Settle(base.spec, NoStorage)
    ensures c.quiet && old(b in c.world.backups && c.world.backups[b] == base) ==>
              && result == Return
              && acts == [Settle(base.spec, NoStorage), SaveReports([NoSecret(old(c.world.now))])] + ReleasePlan(base)
  {
    hide Was, RunsOf, BackupDid, StorageFound;
    ghost var x := c.Past();
    SettleOn(c, b, base, NoStorage);
    ghost var y := c.Past();
    ghost var base', rs', said, more;
    base', rs', said := ReportNoSecret(c, b, backup, base);
    ghost var z := c.Past();
    BackupThen(b, c.quiet, x, y, z, [Settle(base.spec, NoStorage)], said);
    result, more := RemoveFrom(c, b, backup, base', rs');
    BackupThen(b, c.quiet, x, z, c.Past(), [Settle(base.spec, NoStorage)] + said, more);
    acts := [Settle(base.spec, NoStorage)] + said + more;
  }

  /** The loop over the Job's conditions. */
  method HasEnded(job: Job) returns (ended: bool)
    ensures ended <==> Terminal(job)
  {
    for i := 0 to |job.conditions|
      invariant forall j :: 0 <= j < i ==> !IsTerminal(job.conditions[j])
    {
      var c := job.conditions[i];
      if c.kind == "Complete" && c.status == True {
        assert IsTerminal(c);
        return true;
      }
      if c.kind == "Failed" && c.status == True {
        assert IsTerminal(c);
        return true;
      }
    }
    ended := false;
  }

  lemma MakeIsStep(s: BackupState, b: Name, pvc: Name)
    ensures var r := CreateJob(s.w, JobName(b), LastJob(b, pvc));
            && (if r.err == None then BackupStep(s, b, MakeJob(pvc), s.(w := r.world)) else r.world == s.w)
            && (JobName(b) !in s.w.jobs ==> r.err == None)
  {
  }

  /** The last Job: create it, or let go once it has ended, or come back. */
  method AwaitJob(c: BackupCluster, b: Name, backup: LiveBackup, subject: Name, ghost base: Backup)
    returns (result: Result, ghost acts: seq<BackupAct>)
    requires c.Valid() && Was(c.Here(), b, base) && backup.o == base && base.deleting
    modifies c`world, c`settled, c`path, c`run, backup
    ensures result == Return && BACKUP_FINALIZER in base.finalizers ==> LetBackupGo in acts
    ensures c.Valid()
    ensures BackupDid(b, c.quiet, old(c.Past()), c.Past(), acts) && StopActs(acts, base.spec)
    ensures acts != [] ==> acts[0] == MakeJob(VolumeOf(subject)) || acts[0] == Settle(base.spec, JobEnded)
    ensures c.quiet && old(b in c.world.backups && c.world.backups[b] == base) ==>
              && acts == (if JobName(b) !in old(c.world.jobs) then [MakeJob(VolumeOf(subject))]
                          else if JobDone(old(c.world), b) then [Settle(base.spec, JobEnded)] + ReleasePlan(base)
                          else [])
              && result == if JobDone(old(c.world), b) then Return else After(5)
  {
    hide Was, RunsOf, Terminal, PassGoesOn, StepOf, BackupStep, CreateJob, BackupDid, Did;
    ghost var x := c.Past();
    PauseBackup(c, b, base);
    ghost var y := c.Past();
    var err := c.Reach();
    if err != None {
      return Fail(err.value), [];
    }
    if JobName(b) !in c.world.jobs {
      PauseBackup(c, b, base);
      BackupThen(b, c.quiet, x, y, c.Past(), [], []);
      ghost var z, act := c.Past(), MakeJob(VolumeOf(subject));
      MakeIsStep(c.Here(), b, VolumeOf(subject));
      ghost var took;
      err, took := c.Write(CreateJob(c.world, JobName(b), LastJob(b, VolumeOf(subject))), b, act);
      BackupWrote(b, c.quiet, x, z, c.Past(), act, took);
      acts := if took then [act] else [];
      return if err == None then After(5) else Fail(err.value), acts;
    }
    var ended := HasEnded(c.world.jobs[JobName(b)]);
    if ended {
      result, acts := LetGoFor(c, b, backup, base, JobEnded);
      BackupThen(b, c.quiet, x, y, c.Past(), [], acts);
      return;
    }
    return After(5), [];
  }

  /** finalize. A backup is let go only after the pass has settled on a cause; a failed storage lookup is one. */
  method Finalize(c: BackupCluster, b: Name, backup: LiveBackup, ghost base: Backup)
    returns (result: Result, ghost acts: seq<BackupAct>)
    requires c.Valid() && Was(c.Here(), b, base) && backup.o == base && base.deleting
    modifies c`world, c`settled, c`path, c`run, backup
    ensures result == Return && BACKUP_FINALIZER in base.finalizers ==> LetBackupGo in acts
    ensures c.Valid()
    ensures BackupDid(b, c.quiet, old(c.Past()), c.Past(), acts) && StopActs(acts, base.spec)
    ensures !Wanted(base.spec) ==> acts != [] && acts[0] == Settle(base.spec, OptedOut)
    ensures c.quiet && old(b in c.world.backups && c.world.backups[b] == base) ==>
              acts == StopPlan(old(c.world), b, base) && result == StopResult(old(c.world), b, base)
  {
    hide Was, RunsOf, Terminal, PassGoesOn, StepOf, SecretFound, JobDone, BackupDid, StopActs;
    ghost var x := c.Past();
    BackupIdle(b, c.quiet, x);
    NothingYet(base.spec);
    var backupOnDelete := true;
    if backup.o.spec.backupOnDelete != None {
      backupOnDelete := backup.o.spec.backupOnDelete.value;
    }
    if !backupOnDelete {
      result, acts := LetGoFor(c, b, backup, base, OptedOut);
      return;
    }
    var subject := backup.o.spec.target;
    if backup.o.spec.targetKind == FLEET_KIND {
      PauseBackup(c, b, base);
      ghost var y := c.Past();
      var err := c.Reach();
      if err != None {
        return Fail(err.value), [];
      }
      if backup.o.spec.target !in c.world.fleets {
        result, acts := LetGoFor(c, b, backup, base, TargetGone);
        BackupThen(b, c.quiet, x, y, c.Past(), [], acts);
        return;
      }
      if c.world.fleets[backup.o.spec.target] != "" {
        subject := c.world.fleets[backup.o.spec.target];
      }
    }
    ghost var y := c.Past();
    result, acts := FinalizeFound(c, b, backup, subject, base);
    BackupThen(b, c.quiet, x, y, c.Past(), [], acts);
  }

  lemma NothingYet(spec: BackupSpec)
    ensures StopActs([], spec)
  {
  }

  /** The second half of finalize, once it is clear whose volume to save. */
  method FinalizeFound(c: BackupCluster, b: Name, backup: LiveBackup, subject: Name, ghost base: Backup)
    returns (result: Result, ghost acts: seq<BackupAct>)
    requires c.Valid() && Was(c.Here(), b, base) && backup.o == base && base.deleting
    modifies c`world, c`settled, c`path, c`run, backup
    ensures result == Return && BACKUP_FINALIZER in base.finalizers ==> LetBackupGo in acts
    ensures c.Valid()
    ensures BackupDid(b, c.quiet, old(c.Past()), c.Past(), acts) && StopActs(acts, base.spec)
    ensures c.quiet && old(b in c.world.backups && c.world.backups[b] == base) ==>
              var w := old(c.world);
              && acts == (if !w.platform && base.spec.storage == None then
                            [Settle(base.spec, NoStorage)] + ReleasePlan(base)
                          else if !SecretFound(w, base.spec) then
                            [Settle(base.spec, NoStorage), SaveReports([NoSecret(w.now)])] + ReleasePlan(base)
                          else if JobName(b) !in w.jobs then [MakeJob(VolumeOf(subject))]
                          else if JobDone(w, b) then [Settle(base.spec, JobEnded)] + ReleasePlan(base)
                          else [])
              && result == if StorageFound(w, base.spec) && !JobDone(w, b) then After(5) else Return
  {
    hide Was, RunsOf, Terminal, PassGoesOn, StepOf, SecretFound, JobDone, BackupDid, StopActs;
    ghost var x := c.Past();
    var verdict := LookUpStorage(c, b, backup.o.spec, base);
    ghost var y := c.Past();
    if verdict == NoSecretThere {
      result, acts := LetGoWithoutSecret(c, b, backup, base);
    } else if verdict == NoPlatform || verdict == LookupFailed {
      result, acts := LetGoFor(c, b, backup, base, if verdict == NoPlatform then NoStorage else NoAnswer);
    } else {
      result, acts := AwaitJob(c, b, backup, subject, base);
    }
    BackupThen(b, c.quiet, x, y, c.Past(), [], acts);
  }

  // ---- the ordinary pass ----

  lemma AddIsStep(s: BackupState, b: Name, base: Backup)
    requires Was(s, b, base) && !base.deleting && BACKUP_FINALIZER !in base.finalizers
    ensures var r := UpdateBackup(s.w, b, base.(finalizers := base.finalizers + [BACKUP_FINALIZER]));
            && (if r.err == None then BackupStep(s, b, AddBackupFinalizer, s.(w := r.world)) else r.world == s.w)
            && (b in s.w.backups && s.w.backups[b] == base ==> r.err == None)
  {
  }

  /** The Jobs that carry the backup's labels, in some order; nothing if the List call fails. */
  method ListJobs(c: BackupCluster, b: Name, ghost base: Backup) returns (listed: Option<seq<Job>>)
    requires c.Valid() && Was(c.Here(), b, base)
    modifies c`world, c`settled, c`path, c`run
    ensures c.Valid() && Was(c.Here(), b, base)
    ensures BackupDid(b, c.quiet, old(c.Past()), c.Past(), [])
    ensures c.quiet ==> c.Here() == old(c.Here()) && listed.Some?
    ensures listed.Some? ==> JobsAre(listed.value, c.world, b)
  {
    hide Was, RunsOf, PassGoesOn, StepOf, BackupDid, JobsAre;
    PauseBackup(c, b, base);
    var err := c.Reach();
    if err != None {
      return None;
    }
    var jobs := JobsOf(c.world, b);
    listed := Some(jobs);
  }

  /** The stored Jobs with the labels of backup `b`. */
  ghost predicate JobsAre(jobs: seq<Job>, w: BackupWorld, b: Name) {
    forall job :: job in jobs <==> job in w.jobs.Values && job.backup == b
  }

  method JobsOf(w: BackupWorld, b: Name) returns (jobs: seq<Job>)
    ensures JobsAre(jobs, w, b)
  {
    jobs := [];
    var names := w.jobs.Keys;
    while names != {}
      invariant names <= w.jobs.Keys
      invariant forall job :: job in jobs <==>
                  exists name :: name in w.jobs && name !in names && w.jobs[name] == job && job.backup == b
      decreases names
    {
      var name :| name in names;
      names := names - {name};
      if w.jobs[name].backup == b {
        jobs := jobs + [w.jobs[name]];
      }
    }
  }

  function StorageMissing(message: string, now: nat): Report {
    Report(None, false, "StorageConfigMissing", message, now)
  }

  function Scheduled(ended: Option<Ended>, now: nat): Report {
    Report(ended, true, "CronJobCreated", "CronJob created", now)
  }

  /** The end of an ordinary pass: how the last Job ended, Ready, the generation, in one report. `ended` and `listed`
      are what the Jobs told. */
  method ReportJobs(c: BackupCluster, b: Name, backup: LiveBackup, ghost base: Backup)
    returns (result: Result, ghost listed: Option<seq<Job>>, ghost ended: Option<Ended>, ghost acts: seq<BackupAct>)
    requires c.Valid() && Was(c.Here(), b, base) && backup.o == base
    modifies c`world, c`settled, c`path, c`run, backup
    ensures result != Return
    ensures c.Valid()
    ensures if listed == None then ended == None else OutcomeOf(listed.value, ended)
    ensures BackupDid(b, c.quiet, old(c.Past()), c.Past(), acts) && |acts| <= 1
    ensures |acts| == 1 ==> exists now :: acts == [SaveReports([Scheduled(ended, now)])]
    ensures result == After(30) ==> |acts| == 1
    ensures c.quiet && old(b in c.world.backups && c.world.backups[b] == base) ==>
              && listed.Some? && JobsAre(listed.value, old(c.world), b)
              && acts == [SaveReports([Scheduled(ended, old(c.world.now))])] && result == After(30)
  {
    hide Was, RunsOf, PassGoesOn, StepOf, OutcomeOf, BackupDid, JobsAre;
    ghost var x := c.Past();
    var jobs := ListJobs(c, b, base);
    ghost var y := c.Past();
    var now := c.world.now;
    listed := jobs;
    ghost var latest, at;
    ended, latest, at := backup.ReadJobs(jobs, now);
    backup.Conclude(true, "CronJobCreated", "CronJob created", now);
    ReportedMore(base.status, base.generation, [], Scheduled(ended, now));
    assert [] + [Scheduled(ended, now)] == [Scheduled(ended, now)];
    var err;
    ghost var base', rs';
    err, base', rs', acts := SaveReportsOf(c, b, backup, base, [Scheduled(ended, now)]);
    BackupThen(b, c.quiet, x, y, c.Past(), [], acts);
    result := if err == None then After(30) else OnError(err.value);
  }

  /** What an undisturbed ordinary pass writes, with `ended` the outcome its Jobs tell of. */
  function OrdinaryPlan(w: BackupWorld, x: Backup, ended: Option<Ended>): seq<BackupAct> {
    if BACKUP_FINALIZER !in x.finalizers then [AddBackupFinalizer]
    else if !w.platform && x.spec.storage == None then [SaveReports([StorageMissing(NOT_FOUND, w.now)])]
    else if !SecretFound(w, x.spec) then
      [SaveReports([NoSecret(w.now)]), SaveReports([StorageMissing(NOT_FOUND, w.now)])]
    else [SaveReports([Scheduled(ended, w.now)])]
  }

  /** The same in the reports' own words: first the finalizer; then storage, and the Secret it names; and only then is
      the backup ready. A missing Secret is reported before the missing storage. */
  lemma OrdinaryExactly(w: BackupWorld, x: Backup, ended: Option<Ended>)
    ensures var plan := OrdinaryPlan(w, x, ended);
            var missing := SaveReports([Report(None, false, "StorageConfigMissing", "Storage config not found",
                                               w.now)]);
            var created := SaveReports([Report(ended, true, "CronJobCreated", "CronJob created", w.now)]);
            if "games.gobehost.com/backup-finalizer" !in x.finalizers then plan == [AddBackupFinalizer]
            else match x.spec.storage
                 case None =>
                   plan == if w.platform then [created] else [missing]
                 case Some(storage) =>
                   plan == if storage.secret.Some? && storage.secret.value !in w.secrets then
                             [SaveReports([Report(None, false, "InvalidCredentials", "Referenced Secret not found",
                                                  w.now)]),
                              missing]
                           else [created]
  {
  }

  /** The pass's report that there is no storage to use; the write's error is ignored. */
  method ReportStorage(c: BackupCluster, b: Name, backup: LiveBackup, message: string, ghost base: Backup,
                       ghost rs: seq<Report>)
    returns (ghost acts: seq<BackupAct>)
    requires c.Valid() && Was(c.Here(), b, base) && Copy(backup.o, base, rs)
    modifies c`world, c`settled, c`path, c`run, backup
    ensures c.Valid()
    ensures BackupDid(b, c.quiet, old(c.Past()), c.Past(), acts)
    ensures acts == [] || acts == [SaveReports(rs + [StorageMissing(message, old(c.world.now))])]
    ensures c.quiet && old(b in c.world.backups && c.world.backups[b] == base) ==> acts != []
  {
    hide Was, RunsOf, PassGoesOn, StepOf, BackupDid, Copy;
    var now := c.world.now;
    AddReport(backup, base, rs, false, "StorageConfigMissing", message, now);
    var ignored;
    ghost var base', rs';
    ignored, base', rs', acts := SaveReportsOf(c, b, backup, base, rs + [StorageMissing(message, now)]);
  }

  const NOT_FOUND := "Storage config not found"

  /** No storage. */
  method ReportNoStorage(c: BackupCluster, b: Name, backup: LiveBackup, verdict: Lookup, ghost base: Backup)
    returns (result: Result, ghost acts: seq<BackupAct>)
    requires c.Valid() && Was(c.Here(), b, base) && backup.o == base && verdict != Found
    modifies c`world, c`settled, c`path, c`run, backup
    ensures result != Return
    ensures c.Valid()
    ensures BackupDid(b, c.quiet, old(c.Past()), c.Past(), acts)
    ensures |acts| <= 2 && forall i :: 0 <= i < |acts| ==> acts[i].SaveReports?
    ensures verdict == LookupFailed && acts != [] ==>
              acts == [SaveReports([Report(None, false, "StorageConfigMissing", "Storage config is missing or invalid",
                                           old(c.world.now))])]
    ensures c.quiet && verdict != LookupFailed && old(b in c.world.backups && c.world.backups[b] == base) ==>
              && result == After(30)
              && acts == (if verdict == NoSecretThere then [SaveReports([NoSecret(old(c.world.now))])] else [])
                         + [SaveReports([StorageMissing(NOT_FOUND, old(c.world.now))])]
  {
    hide Was, RunsOf, PassGoesOn, StepOf, BackupDid, Copy;
    ghost var x := c.Past();
    FreshCopy(base);
    if verdict == LookupFailed {
      ghost var said := StorageMissing("Storage config is missing or invalid", c.world.now);
      acts := ReportStorage(c, b, backup, "Storage config is missing or invalid", base, []);
      assert [] + [said] == [said];
      return Fail(Unavailable), acts;
    }
    ghost var base', rs', first, more := base, [], [], [];
    BackupIdle(b, c.quiet, x);
    if verdict == NoSecretThere {
      base', rs', first := ReportNoSecret(c, b, backup, base);
    }
    ghost var y, said := c.Past(), StorageMissing(NOT_FOUND, c.world.now);
    more := ReportStorage(c, b, backup, NOT_FOUND, base', rs');
    assert [] + [said] == [said];
    BackupThen(b, c.quiet, x, y, c.Past(), first, more);
    return After(30), first + more;
  }

  /** The pass over a backup that is not marked. */
  method Ordinary(c: BackupCluster, b: Name, backup: LiveBackup, ghost base: Backup)
    returns (result: Result, ghost listed: Option<seq<Job>>, ghost ended: Option<Ended>, ghost acts: seq<BackupAct>)
    requires c.Valid() && Was(c.Here(), b, base) && backup.o == base && !base.deleting
    modifies c`world, c`settled, c`path, c`run, backup
    ensures result != Return
    ensures c.Valid()
    ensures if listed == None then ended == None else OutcomeOf(listed.value, ended)
    ensures BackupDid(b, c.quiet, old(c.Past()), c.Past(), acts) && OrdinaryActs(acts)
    ensures c.quiet && old(b in c.world.backups && c.world.backups[b] == base) ==>
              && (listed.Some? ==> JobsAre(listed.value, old(c.world), b))
              && (listed.Some? <==> Reads(old(c.world), base))
              && acts == OrdinaryPlan(old(c.world), base, ended)
              && result == if BACKUP_FINALIZER in base.finalizers then After(30) else Requeue
  {
    hide Was, RunsOf, PassGoesOn, StepOf, BackupStep, UpdateBackup, OutcomeOf, SecretFound, BackupDid, Did, JobsAre;
    listed, ended := None, None;
    ghost var x := c.Past();
    if BACKUP_FINALIZER !in backup.o.finalizers {
      PauseBackup(c, b, base);
      ghost var y := c.Past();
      AddIsStep(c.Here(), b, base);
      var err;
      ghost var took;
      err, took := c.Write(UpdateBackup(c.world, b,
                                        backup.o.(finalizers := backup.o.finalizers + [BACKUP_FINALIZER])), b,
                           AddBackupFinalizer);
      BackupWrote(b, c.quiet, x, y, c.Past(), AddBackupFinalizer, took);
      acts := if took then [AddBackupFinalizer] else [];
      return if err == None then Requeue else OnError(err.value), None, None, acts;
    }
    var verdict := LookUpStorage(c, b, backup.o.spec, base);
    ghost var y := c.Past();
    if verdict != Found {
      result, acts := ReportNoStorage(c, b, backup, verdict, base);
      BackupThen(b, c.quiet, x, y, c.Past(), [], acts);
      return;
    }
    result, listed, ended, acts := ReportJobs(c, b, backup, base);
    BackupThen(b, c.quiet, x, y, c.Past(), [], acts);
  }

  /** An ordinary pass puts the finalizer on, or reports, at most twice. */
  ghost predicate OrdinaryActs(acts: seq<BackupAct>) {
    acts == [AddBackupFinalizer] || (|acts| <= 2 && forall i :: 0 <= i < |acts| ==> acts[i].SaveReports?)
  }

  /** The pass gets as far as the Jobs. */
  predicate Reads(w: BackupWorld, x: Backup) {
    BACKUP_FINALIZER in x.finalizers && (w.platform || x.spec.storage.Some?) && SecretFound(w, x.spec)
  }

  /** The store was `w` at some time since state `from`. */
  ghost predicate SawBackups(path: seq<BackupState>, from: nat, w: BackupWorld) {
    exists m :: from <= m < |path| && path[m].w == w
  }

  lemma SawThen(path: seq<BackupState>, run: seq<BackupAction>, longer: seq<BackupState>)
    requires RunsOf(path, run) && path <= longer
    ensures SawBackups(longer, |path| - 1, path[|run|].w)
  {
    hide StepOf;
    assert longer[|run|].w == path[|run|].w;
  }

  /** The actions of a whole pass that met the store `met` when it read the backup: a finalizing pass over that backup's
      spec if it was marked, an ordinary one otherwise. Nothing if the read failed, or the backup was not there. */
  ghost predicate BackupPassOf(b: Name, met: Option<BackupWorld>, acts: seq<BackupAct>) {
    if met == None || b !in met.value.backups then acts == []
    else
      var read := met.value.backups[b];
      && acts != [] && acts[0] == Read
      && if read.deleting then StopActs(acts[1..], read.spec) else OrdinaryActs(acts[1..])
  }

  /** Reconcile: one pass over backup `b`. Whatever others do and whatever calls fail, nothing recorded is lost, and
      what the backup controller does meanwhile is this pass's actions, in order, every one allowed by the state it
      meets. In quiet times, over a marked backup, it is exactly what StopPlan says; over any other what OrdinaryPlan
      says, with the outcome the listed Jobs tell of. */
  method Reconcile(c: BackupCluster, b: Name)
    returns (result: Result, ghost met: Option<BackupWorld>, ghost listed: Option<seq<Job>>, ghost ended: Option<Ended>,
             ghost acts: seq<BackupAct>)
    requires c.Valid()
    modifies c`world, c`settled, c`path, c`run
    ensures result == Return ==>
              && met.Some?
              && (b !in met.value.backups || LetBackupGo in acts
                  || BACKUP_FINALIZER !in met.value.backups[b].finalizers)
    ensures c.Valid()
    ensures if listed == None then ended == None else OutcomeOf(listed.value, ended)
    ensures BackupDid(b, c.quiet, old(c.Past()), c.Past(), acts)
    ensures BackupPassOf(b, met, acts)
    ensures met.Some? ==> SawBackups(c.path, |old(c.path)| - 1, met.value)
    ensures c.quiet && old(b !in c.world.backups) ==> result == Return && acts == []
    ensures c.quiet && old(b in c.world.backups) ==>
              var x := old(c.world.backups[b]);
              && acts == [Read] + (if x.deleting then StopPlan(old(c.world), b, x)
                                   else OrdinaryPlan(old(c.world), x, ended))
              && (!x.deleting ==> (listed.Some? ==> JobsAre(listed.value, old(c.world), b))
                                  && (listed.Some? <==> Reads(old(c.world), x)))
              && result == if x.deleting then StopResult(old(c.world), b, x)
                           else if BACKUP_FINALIZER in x.finalizers then After(30) else Requeue
  {
    hide RunsOf, PassGoesOn, StepOf, OutcomeOf, StopPlan, StopResult, OrdinaryPlan, BackupDid, StopActs, OrdinaryActs,
      JobsAre, Reads, SawBackups;
    met, listed, ended := None, None, None;
    ghost var x := c.Past();
    BackupIdle(b, c.quiet, x);
    var err := c.Reach();
    if err != None {
      return Fail(err.value), None, None, None, [];
    }
    met := Some(c.world);
    if b !in c.world.backups {
      SawThen(c.path, c.run, c.path);
      return Return, met, None, None, [];
    }
    var backup := new LiveBackup(c.world.backups[b]);
    ghost var base := backup.o;
    c.Reachable();
    StoredWas(c.Here(), b);
    c.Note(b, Read, c.settled - {b});
    ghost var y := c.Past();
    ReadDid(b, c.quiet, x, y);
    ghost var rest;
    if backup.o.deleting {
      result, rest := Finalize(c, b, backup, base);
    } else {
      result, listed, ended, rest := Ordinary(c, b, backup, base);
    }
    BackupThen(b, c.quiet, x, y, c.Past(), [Read], rest);
    acts := [Read] + rest;
    assert acts[1..] == rest;
    BackupExtends(b, c.quiet, x, c.Past(), acts);
    SawThen(x.path, x.run, c.path);
  }

  lemma ReadDid(b: Name, quiet: bool, x: BackupLog, y: BackupLog)
    requires Did(OfBackups(), quiet, x, y, [BackupCtl(b, Read)])
    ensures BackupDid(b, quiet, x, y, [Read])
  {
    assert BackupActs(b, [Read]) == [BackupCtl(b, Read)];
  }

  lemma StoredWas(s: BackupState, b: Name)
    requires BackupInv(s) && b in s.w.backups
    ensures Was(s, b, s.w.backups[b])
  {
    hide StatusOk;
    assert BackupOk(s, b);
  }
}

/** Backup deletion as a protocol: one last Job, a wait for its end, the release of the finalizer. */
module BackupProtocol {
  import opened Types
  import opened Live
  import opened Store
  import opened Backups

  // ---- the store ----

  /** `fleets` gives each fleet's current GameServer, `platform` whether the operator's storage ConfigMap exists. */
  datatype BackupWorld = BackupWorld(now: nat, revision: nat, backups: map<Name, Backup>, fleets: map<Name, Name>,
                                     platform: bool, secrets: set<Name>, jobs: map<Name, Job>)

  datatype Answer = Answer(world: BackupWorld, err: Option<Error>)

  function PutBackup(w: BackupWorld, b: Name, x: Backup): BackupWorld {
    w.(revision := w.revision + 1,
       backups := if x.deleting && x.finalizers == [] then w.backups - {b} else w.backups[b := x])
  }

  function UpdateBackup(w: BackupWorld, b: Name, x: Backup): Answer {
    if b !in w.backups then Answer(w, Some(NotFound))
    else if x.version != w.backups[b].version then Answer(w, Some(Conflict))
    else
      var before := w.backups[b];
      Answer(PutBackup(w, b, before.(version := w.revision + 1, finalizers := x.finalizers, spec := x.spec,
                                     generation := if x.spec == before.spec then before.generation
                                                   else before.generation + 1)), None)
  }

  function UpdateBackupStatus(w: BackupWorld, b: Name, x: Backup): Answer {
    if b !in w.backups then Answer(w, Some(NotFound))
    else if x.version != w.backups[b].version then Answer(w, Some(Conflict))
    else Answer(PutBackup(w, b, w.backups[b].(version := w.revision + 1, status := x.status)), None)
  }

  function DeleteBackup(w: BackupWorld, b: Name): Answer {
    if b !in w.backups then Answer(w, Some(NotFound))
    else if w.backups[b].deleting then Answer(w, None)
    else Answer(PutBackup(w, b, w.backups[b].(version := w.revision + 1, deleting := true,
                                                          generation := w.backups[b].generation + 1)), None)
  }

  function CreateJob(w: BackupWorld, name: Name, job: Job): Answer {
    if name in w.jobs then Answer(w, Some(AlreadyExists))
    else Answer(w.(revision := w.revision + 1, jobs := w.jobs[name := job.(created := w.now)]), None)
  }

  // ---- what finalization looks at ----

  function JobName(b: Name): Name {
    b + "-backup-on-delete"
  }

  function VolumeOf(gs: Name): Name {
    "data-" + gs + "-0"
  }

  const FLEET_KIND := "GameServerFleet"

  predicate Wanted(spec: BackupSpec) {
    spec.backupOnDelete != Some(false)
  }

  /** Only a fleet is looked up; a GameServer target is taken by its name. */
  predicate TargetFound(w: BackupWorld, spec: BackupSpec) {
    spec.targetKind == FLEET_KIND ==> spec.target in w.fleets
  }

  predicate SecretFound(w: BackupWorld, spec: BackupSpec) {
    spec.storage.Some? && spec.storage.value.secret.Some? ==> spec.storage.value.secret.value in w.secrets
  }

  predicate StorageFound(w: BackupWorld, spec: BackupSpec) {
    (w.platform || spec.storage.Some?) && SecretFound(w, spec)
  }

  predicate JobDone(w: BackupWorld, b: Name) {
    JobName(b) in w.jobs && Terminal(w.jobs[JobName(b)])
  }

  /** The GameServer whose volume is saved: a fleet's current one, or else whatever the target is called. */
  function Subject(w: BackupWorld, spec: BackupSpec): Name {
    if spec.targetKind == FLEET_KIND && spec.target in w.fleets && w.fleets[spec.target] != "" then
      w.fleets[spec.target]
    else spec.target
  }

  function LastJob(b: Name, pvc: Name): Job {
    Job(b, pvc, 0, None, [])
  }

  // ---- actions ----

  /** Why a pass lets a backup go. `NoAnswer` is a storage lookup that failed. */
  datatype Cause = OptedOut | TargetGone | NoStorage | NoAnswer | JobEnded

  datatype Settlement = Settlement(spec: BackupSpec, cause: Cause)

  /** `settled` is what the pass in flight over a backup has found out, if it is going to let it go. */
  datatype BackupState = BackupState(w: BackupWorld, settled: map<Name, Settlement>)

  const BACKUP_START := BackupState(BackupWorld(0, 0, map[], map[], false, {}, map[]), map[])

  predicate Settles(w: BackupWorld, b: Name, spec: BackupSpec, cause: Cause) {
    match cause
    case OptedOut => !Wanted(spec)
    case TargetGone => !TargetFound(w, spec)
    case NoStorage => !StorageFound(w, spec)
    case NoAnswer => true
    case JobEnded => JobDone(w, b)
  }

  predicate Answered(r: Answer, t: BackupState) {
    r == Answer(t.w, None)
  }

  datatype BackupAct =
    | Read
    | Settle(spec: BackupSpec, cause: Cause)
    | AddBackupFinalizer
    | SaveReports(rs: seq<Report>)
    | MakeJob(pvc: Name)
    | LetBackupGo

  predicate BRead(s: BackupState, b: Name, t: BackupState) {
    t == s.(settled := s.settled - {b})
  }

  predicate BSettle(s: BackupState, b: Name, spec: BackupSpec, cause: Cause, t: BackupState) {
    Settles(s.w, b, spec, cause) && t == s.(settled := s.settled[b := Settlement(spec, cause)])
  }

  predicate BAddFinalizer(s: BackupState, b: Name, t: BackupState) {
    && b in s.w.backups && !s.w.backups[b].deleting && BACKUP_FINALIZER !in s.w.backups[b].finalizers
    && Answered(UpdateBackup(s.w, b, s.w.backups[b].(finalizers := s.w.backups[b].finalizers + [BACKUP_FINALIZER])), t)
    && t.settled == s.settled
  }

  predicate BSaveReports(s: BackupState, b: Name, rs: seq<Report>, t: BackupState) {
    && b in s.w.backups && t.settled == s.settled
    && (var x := s.w.backups[b];
        Answered(UpdateBackupStatus(s.w, b, x.(status := Reported(x.status, x.generation, rs))), t))
  }

  predicate BMakeJob(s: BackupState, b: Name, pvc: Name, t: BackupState) {
    Answered(CreateJob(s.w, JobName(b), LastJob(b, pvc)), t) && t.settled == s.settled
  }

  /** The finalizer goes from the very version of the backup whose spec the pass decided on. */
  predicate BLetGo(s: BackupState, b: Name, t: BackupState) {
    && b in s.settled && b in s.w.backups && s.w.backups[b].deleting && s.w.backups[b].spec == s.settled[b].spec
    && Answered(UpdateBackup(s.w, b,
                             s.w.backups[b].(finalizers := Without(s.w.backups[b].finalizers, BACKUP_FINALIZER))), t)
    && t.settled == s.settled
  }

  /** Users, other controllers, the Job controller. A Job that has ended stays ended. */
  datatype OtherAct =
    | Wait(d: nat)
    | CreateBackup(b: Name, spec: BackupSpec, finalizers: seq<string>)
    | EditBackup(b: Name, spec: BackupSpec, finalizers: seq<string>)
    | MarkBackup(b: Name)
    | FleetIs(f: Name, current: Name) | FleetIsGone(f: Name)
    | PlatformIs(there: bool) | SecretIs(name: Name, there: bool)
    | JobAppears(name: Name, job: Job)
    | JobMoves(name: Name, completed: Option<nat>, conditions: seq<JobCondition>)
    | JobVanishes(name: Name)

  predicate OtherStep(s: BackupState, act: OtherAct, t: BackupState) {
    && t.settled == s.settled
    && match act
       case Wait(d) => t.w == s.w.(now := s.w.now + d)
       case CreateBackup(b, spec, finalizers) =>
         && b !in s.w.backups
         && t.w == PutBackup(s.w, b,
                             Backup(s.w.revision + 1, 1, finalizers, false, spec, BackupStatus([], 0, "", None)))
       case EditBackup(b, spec, finalizers) =>
         && b in s.w.backups && (BACKUP_FINALIZER in finalizers <==> BACKUP_FINALIZER in s.w.backups[b].finalizers)
         && Answered(UpdateBackup(s.w, b, s.w.backups[b].(spec := spec, finalizers := finalizers)), t)
       case MarkBackup(b) => Answered(DeleteBackup(s.w, b), t)
       case FleetIs(f, current) => t.w == s.w.(revision := s.w.revision + 1, fleets := s.w.fleets[f := current])
       case FleetIsGone(f) => t.w == s.w.(revision := s.w.revision + 1, fleets := s.w.fleets - {f})
       case PlatformIs(there) => t.w == s.w.(revision := s.w.revision + 1, platform := there)
       case SecretIs(name, there) =>
         t.w == s.w.(revision := s.w.revision + 1,
                     secrets := if there then s.w.secrets + {name} else s.w.secrets - {name})
       case JobAppears(name, job) => Answered(CreateJob(s.w, name, job), t)
       case JobMoves(name, completed, conditions) =>
         && name in s.w.jobs
         && (var moved := s.w.jobs[name].(completed := completed, conditions := conditions);
             (Terminal(s.w.jobs[name]) ==> Terminal(moved))
             && t.w == s.w.(revision := s.w.revision + 1, jobs := s.w.jobs[name := moved]))
       case JobVanishes(name) => t.w == s.w.(revision := s.w.revision + 1, jobs := s.w.jobs - {name})
  }

  datatype BackupAction = BackupCtl(b: Name, act: BackupAct) | Other(oact: OtherAct)

  predicate BackupStep(s: BackupState, b: Name, act: BackupAct, t: BackupState) {
    match act
    case Read => BRead(s, b, t)
    case Settle(spec, cause) => BSettle(s, b, spec, cause, t)
    case AddBackupFinalizer => BAddFinalizer(s, b, t)
    case SaveReports(rs) => BSaveReports(s, b, rs, t)
    case MakeJob(pvc) => BMakeJob(s, b, pvc, t)
    case LetBackupGo => BLetGo(s, b, t)
  }

  predicate StepOf(s: BackupState, a: BackupAction, t: BackupState) {
    match a
    case BackupCtl(b, act) => BackupStep(s, b, act, t)
    case Other(act) => OtherStep(s, act, t)
  }

  ghost predicate RunsOf(path: seq<BackupState>, acts: seq<BackupAction>) {
    && |path| == |acts| + 1
    && forall i :: 0 <= i < |acts| ==> StepOf(path[i], acts[i], path[i + 1])
  }

  // ---- invariants ----

  ghost predicate BackupOk(s: BackupState, b: Name) {
    b in s.w.backups ==>
      var x := s.w.backups[b];
      && x.version <= s.w.revision && (x.deleting ==> x.finalizers != []) && StatusOk(x.status, x.generation)
  }

  ghost predicate BackupInv(s: BackupState) {
    forall b :: BackupOk(s, b)
  }

  /** A backup's successor in the store. */
  ghost predicate Succeeds(x: Backup, y: Backup) {
    && x.version <= y.version && (x.version == y.version ==> x == y) && (x.deleting ==> y.deleting)
    && x.generation <= y.generation && x.status.observedGeneration <= y.status.observedGeneration
    && (BACKUP_FINALIZER !in x.finalizers && x.deleting ==> BACKUP_FINALIZER !in y.finalizers)
  }

  ghost predicate BackupNext(s: BackupState, t: BackupState, b: Name) {
    && (b in s.w.backups && b in t.w.backups ==> Succeeds(s.w.backups[b], t.w.backups[b]))
    && (b !in s.w.backups && b in t.w.backups ==> t.w.backups[b].version > s.w.revision)
    && s.w.revision <= t.w.revision
  }

  /** A write of backup `c`: the new object is a successor of the stored one, or a new one, and in order. */
  lemma BackupWrite(s: BackupState, t: BackupState, c: Name, y: Backup, b: Name)
    requires BackupInv(s) && t.w == PutBackup(s.w, c, y) && y.version == s.w.revision + 1
    requires c in s.w.backups ==> Succeeds(s.w.backups[c], y)
    requires StatusOk(y.status, y.generation)
    ensures BackupOk(t, b) && BackupNext(s, t, b)
  {
    hide StatusOk;
    assert BackupOk(s, b);
    if b in s.w.backups {
      SucceedsSelf(s.w.backups[b]);
    }
  }

  lemma SucceedsSelf(x: Backup)
    ensures Succeeds(x, x)
  {
  }

  /** A step that leaves the backups alone. */
  lemma BackupsKept(s: BackupState, t: BackupState, b: Name)
    requires BackupInv(s) && t.w.backups == s.w.backups && s.w.revision <= t.w.revision
    ensures BackupOk(t, b) && BackupNext(s, t, b)
  {
    hide StatusOk;
    assert BackupOk(s, b);
  }

  lemma OwnStepKeeps(s: BackupState, c: Name, act: BackupAct, t: BackupState, b: Name)
    requires BackupInv(s) && BackupStep(s, c, act, t)
    ensures BackupOk(t, b) && BackupNext(s, t, b)
  {
    hide StatusOk, Reported, Settles, BackupInv, BackupNext, PutBackup;
    if act.Read? || act.Settle? || act.MakeJob? {
      BackupsKept(s, t, b);
    } else {
      StoredOk(s, c);
      var x := s.w.backups[c];
      if act.SaveReports? {
        ReportedKeepsOk(x.status, x.generation, act.rs);
        BackupWrite(s, t, c, x.(version := s.w.revision + 1, status := Reported(x.status, x.generation, act.rs)), b);
      } else {
        var finalizers := if act.LetBackupGo? then Without(x.finalizers, BACKUP_FINALIZER)
          else x.finalizers + [BACKUP_FINALIZER];
        BackupWrite(s, t, c, x.(version := s.w.revision + 1, finalizers := finalizers), b);
      }
    }
  }

  lemma StoredOk(s: BackupState, b: Name)
    requires BackupInv(s) && b in s.w.backups
    ensures BackupOk(s, b)
    ensures s.w.backups[b].version <= s.w.revision && StatusOk(s.w.backups[b].status, s.w.backups[b].generation)
  {
  }

  lemma OtherStepKeeps(s: BackupState, act: OtherAct, t: BackupState, b: Name)
    requires BackupInv(s) && OtherStep(s, act, t)
    ensures BackupOk(t, b) && BackupNext(s, t, b)
  {
    hide StatusOk, Terminal, BackupInv, BackupNext, PutBackup;
    if act.CreateBackup? {
      FreshStatus();
      BackupWrite(s, t, act.b,
                  Backup(s.w.revision + 1, 1, act.finalizers, false, act.spec, BackupStatus([], 0, "", None)), b);
    } else if act.EditBackup? {
      var x := s.w.backups[act.b];
      var generation := if act.spec == x.spec then x.generation else x.generation + 1;
      StoredOk(s, act.b);
      OlderStatus(x.status, x.generation, generation);
      BackupWrite(s, t, act.b, x.(version := s.w.revision + 1, spec := act.spec, finalizers := act.finalizers,
                                  generation := generation), b);
    } else if act.MarkBackup? && !s.w.backups[act.b].deleting {
      var x := s.w.backups[act.b];
      StoredOk(s, act.b);
      OlderStatus(x.status, x.generation, x.generation + 1);
      BackupWrite(s, t, act.b, x.(version := s.w.revision + 1, deleting := true, generation := x.generation + 1), b);
    } else {
      BackupsKept(s, t, b);
    }
  }

  /** Every step keeps every backup's status in order, and moves a backup only forward. */
  lemma StepOfKeeps(s: BackupState, a: BackupAction, t: BackupState, b: Name)
    requires BackupInv(s) && StepOf(s, a, t)
    ensures BackupOk(t, b) && BackupNext(s, t, b)
  {
    hide BackupStep, OtherStep, BackupInv, BackupOk, BackupNext;
    match a
    case BackupCtl(c, act) => OwnStepKeeps(s, c, act, t, b);
    case Other(act) => OtherStepKeeps(s, act, t, b);
  }

  lemma FreshStatus()
    ensures StatusOk(BackupStatus([], 0, "", None), 1)
  {
  }

  lemma OlderStatus(st: BackupStatus, g: int, h: int)
    requires StatusOk(st, g) && g <= h
    ensures StatusOk(st, h)
  {
  }

  /** Over every run: a backup's conditions are a map, its last outcome is what the condition about it says, and
      condition, status and object generations are in order. */
  lemma {:induction false} BackupRunKeeps(path: seq<BackupState>, acts: seq<BackupAction>, j: nat)
    requires RunsOf(path, acts) && BackupInv(path[0]) && j < |path|
    ensures BackupInv(path[j])
    decreases j
  {
    hide StepOf, BackupOk;
    if j != 0 {
      BackupRunKeeps(path, acts, j - 1);
      forall b ensures BackupOk(path[j], b) {
        StepOfKeeps(path[j - 1], acts[j - 1], path[j], b);
      }
    }
  }

  // ---- release ----

  /** Nobody deletes the last Job of backup `b` from state `i` to state `k`. */
  ghost predicate JobKept(acts: seq<BackupAction>, b: Name, i: nat, k: nat) {
    forall j :: i <= j < k && j < |acts| ==> acts[j] != Other(JobVanishes(JobName(b)))
  }

  /** What a pass has found out was so when it looked, and it looked during this very pass. */
  lemma {:induction false} Settled(path: seq<BackupState>, acts: seq<BackupAction>, b: Name, h: nat, k: nat)
    returns (i: nat)
    requires RunsOf(path, acts) && h <= k < |path| && b !in path[h].settled && b in path[k].settled
    ensures h <= i < k && acts[i] == BackupCtl(b, Settle(path[k].settled[b].spec, path[k].settled[b].cause))
    ensures Settles(path[i].w, b, path[k].settled[b].spec, path[k].settled[b].cause)
    ensures forall j :: i < j < k ==> acts[j] != BackupCtl(b, Read)
    decreases k
  {
    hide Settles, UpdateBackup, UpdateBackupStatus, CreateJob, PutBackup, DeleteBackup, Reported, Terminal;
    assert StepOf(path[k - 1], acts[k - 1], path[k]);
    if acts[k - 1].BackupCtl? && acts[k - 1].b == b && acts[k - 1].act.Settle? {
      i := k - 1;
    } else {
      i := Settled(path, acts, b, h, k - 1);
    }
  }

  lemma JobNext(s: BackupState, a: BackupAction, t: BackupState, b: Name)
    requires StepOf(s, a, t) && a != Other(JobVanishes(JobName(b)))
    ensures JobName(b) in s.w.jobs ==> JobName(b) in t.w.jobs
    ensures JobDone(s.w, b) ==> JobDone(t.w, b)
  {
    hide Settles, Reported, Terminal;
  }

  /** A Job that has ended stays there, ended, unless somebody deletes it. */
  lemma {:induction false} EndedStays(path: seq<BackupState>, acts: seq<BackupAction>, b: Name, i: nat, k: nat)
    requires RunsOf(path, acts) && i <= k < |path| && JobKept(acts, b, i, k) && JobDone(path[i].w, b)
    ensures JobDone(path[k].w, b)
    decreases k
  {
    hide StepOf, JobDone;
    if i < k {
      EndedStays(path, acts, b, i, k - 1);
      JobNext(path[k - 1], acts[k - 1], path[k], b);
    }
  }

  /** If every pass that settled on a cause did so on answered lookups, for a spec whose flag is not false, with its
      fleet, its storage and its Secret there, then the finalizer is released only once the last Job is Complete or
      Failed. */
  lemma ReleasedAfterJob(path: seq<BackupState>, acts: seq<BackupAction>, b: Name, k: nat)
    requires RunsOf(path, acts) && path[0] == BACKUP_START && k < |acts| && acts[k] == BackupCtl(b, LetBackupGo)
    requires JobKept(acts, b, 0, k)
    requires forall i, spec, cause :: 0 <= i < k && acts[i] == BackupCtl(b, Settle(spec, cause)) ==>
               && cause != NoAnswer && spec.backupOnDelete != Some(false)
               && (spec.targetKind == "GameServerFleet" ==> spec.target in path[i].w.fleets)
               && (path[i].w.platform || spec.storage.Some?)
               && (spec.storage.Some? && spec.storage.value.secret.Some? ==>
                     spec.storage.value.secret.value in path[i].w.secrets)
    ensures var job := b + "-backup-on-delete";
            && job in path[k].w.jobs
            && (exists c :: c in path[k].w.jobs[job].conditions && c.status == True && c.kind in {"Complete", "Failed"})
  {
    hide Settles, Terminal, UpdateBackup, JobDone;
    assert StepOf(path[k], acts[k], path[k + 1]);
    var i := Settled(path, acts, b, 0, k);
    var spec, cause := path[k].settled[b].spec, path[k].settled[b].cause;
    SettledMeans(path[i].w, b, spec, cause);
    EndedStays(path, acts, b, i, k);
    JobEndedMeans(path[k].w, b);
  }

  lemma SettledMeans(w: BackupWorld, b: Name, spec: BackupSpec, cause: Cause)
    requires Settles(w, b, spec, cause) && Wanted(spec) && TargetFound(w, spec) && StorageFound(w, spec)
             && cause != NoAnswer
    ensures JobDone(w, b)
  {
    hide Terminal;
  }

  /** Every release has its cause in the pass that makes it, and the cause was so at some state of that pass. */
  lemma ReleasedForCause(path: seq<BackupState>, acts: seq<BackupAction>, b: Name, k: nat)
    returns (i: nat, cause: Cause)
    requires RunsOf(path, acts) && path[0] == BACKUP_START && k < |acts| && acts[k] == BackupCtl(b, LetBackupGo)
    ensures b in path[k].w.backups && path[k].w.backups[b].deleting
    ensures i < k && acts[i] == BackupCtl(b, Settle(path[k].w.backups[b].spec, cause))
    ensures Settles(path[i].w, b, path[k].w.backups[b].spec, cause)
    ensures forall j :: i < j < k ==> acts[j] != BackupCtl(b, Read)
  {
    hide Settles, Terminal, UpdateBackup;
    assert StepOf(path[k], acts[k], path[k + 1]);
    i := Settled(path, acts, b, 0, k);
    cause := path[k].settled[b].cause;
  }

  lemma {:induction false} JobStays(path: seq<BackupState>, acts: seq<BackupAction>, b: Name, i: nat, k: nat)
    requires RunsOf(path, acts) && i <= k < |path| && JobKept(acts, b, i, k) && JobName(b) in path[i].w.jobs
    ensures JobName(b) in path[k].w.jobs
    decreases k
  {
    hide StepOf, JobDone;
    if i < k {
      JobStays(path, acts, b, i, k - 1);
      JobNext(path[k - 1], acts[k - 1], path[k], b);
    }
  }

  /** However often passes are repeated, calls fail and answers get lost, at most one last Job is created for a
      backup as long as nobody deletes it. */
  lemma AtMostOneJob(path: seq<BackupState>, acts: seq<BackupAction>, b: Name, i: nat, j: nat, p: Name, q: Name)
    requires RunsOf(path, acts) && i < j < |acts| && JobKept(acts, b, i, j)
    requires acts[i] == BackupCtl(b, MakeJob(p))
    ensures acts[j] != BackupCtl(b, MakeJob(q))
  {
    hide Settles, UpdateBackup, UpdateBackupStatus, PutBackup, DeleteBackup, Reported, Terminal;
    assert StepOf(path[i], acts[i], path[i + 1]);
    JobStays(path, acts, b, i + 1, j);
    assert StepOf(path[j], acts[j], path[j + 1]);
  }

  /** The condition on answered lookups is needed: one failed storage lookup, and a backup that was wanted, with
      its target named directly and the storage there all along, is let go without a Job. */
  lemma LookupFailureSkipsBackup() returns (path: seq<BackupState>, acts: seq<BackupAction>, k: nat)
    ensures RunsOf(path, acts) && path[0] == BACKUP_START && k < |acts| && acts[k] == BackupCtl("world", LetBackupGo)
    ensures var w := path[k].w;
            && "world" in w.backups && Wanted(w.backups["world"].spec)
            && TargetFound(w, w.backups["world"].spec) && StorageFound(w, w.backups["world"].spec)
            && w.jobs == map[] && "world" !in path[k + 1].w.backups
  {
    hide Terminal;
    var b, spec := "world", BackupSpec("GameServer", "survival", None, None);
    var s0 := BACKUP_START;
    var s1 := s0.(w := s0.w.(revision := 1, platform := true));
    var s2 := s1.(w := PutBackup(s1.w, b,
                                 Backup(2, 1, [BACKUP_FINALIZER], false, spec, BackupStatus([], 0, "", None))));
    var s3 := s2.(w := DeleteBackup(s2.w, b).world);
    var s4 := s3.(settled := s3.settled - {b});
    var s5 := s4.(settled := s4.settled[b := Settlement(spec, NoAnswer)]);
    var s6 := s5.(w := UpdateBackup(s5.w, b, s5.w.backups[b].(finalizers := [])).world);
    assert Without([BACKUP_FINALIZER], BACKUP_FINALIZER) == [];
    path := [s0, s1, s2, s3, s4, s5, s6];
    acts := [Other(PlatformIs(true)), Other(CreateBackup(b, spec, [BACKUP_FINALIZER])), Other(MarkBackup(b)),
             BackupCtl(b, Read), BackupCtl(b, Settle(spec, NoAnswer)), BackupCtl(b, LetBackupGo)];
    k := 5;
    assert StepOf(s0, acts[0], s1) && StepOf(s1, acts[1], s2) && StepOf(s2, acts[2], s3);
    assert StepOf(s3, acts[3], s4) && StepOf(s4, acts[4], s5) && StepOf(s5, acts[5], s6);
  }

  // ---- whose Job it is ----

  lemma JobNameInjective(b: Name, c: Name)
    requires JobName(b) == JobName(c)
    ensures b == c
  {
    assert b == JobName(b)[..|JobName(b)| - |"-backup-on-delete"|];
    assert c == JobName(c)[..|JobName(c)| - |"-backup-on-delete"|];
  }

  /** The last Job of backup `b` appears by its controller's hand, or somebody else makes one of that name. */
  lemma JobMade(s: BackupState, a: BackupAction, t: BackupState, b: Name)
    requires StepOf(s, a, t) && JobName(b) !in s.w.jobs && JobName(b) in t.w.jobs
    ensures (a.BackupCtl? && a.b == b && a.act.MakeJob?)
            || (a.Other? && a.oact.JobAppears? && a.oact.name == JobName(b))
  {
    hide Settles, Reported, Terminal, JobName;
    if a.BackupCtl? && a.act.MakeJob? {
      JobNameInjective(b, a.b);
    }
  }

  predicate MakesJob(a: BackupAction, b: Name) {
    a.BackupCtl? && a.b == b && a.act.MakeJob?
  }

  /** From state `i` to state `k` nobody but the controller makes, and nobody deletes, a Job of the name of `b`'s. */
  ghost predicate LeftAlone(acts: seq<BackupAction>, b: Name, i: nat, k: nat) {
    && JobKept(acts, b, i, k)
    && forall j :: i <= j < k && j < |acts| && acts[j].Other? && acts[j].oact.JobAppears? ==>
       acts[j].oact.name != JobName(b)
  }

  lemma {:induction false} OwnJob(path: seq<BackupState>, acts: seq<BackupAction>, b: Name, i: nat, k: nat)
    returns (j: nat)
    requires RunsOf(path, acts) && i <= k < |path| && LeftAlone(acts, b, i, k)
    requires JobName(b) !in path[i].w.jobs && JobName(b) in path[k].w.jobs
    ensures i <= j < k && MakesJob(acts[j], b)
    decreases k
  {
    hide StepOf, JobName;
    if JobName(b) in path[k - 1].w.jobs {
      j := OwnJob(path, acts, b, i, k - 1);
    } else {
      j := k - 1;
      JobMade(path[k - 1], acts[k - 1], path[k], b);
    }
  }

  /** The Job is looked up by name alone. A backup let go because its Job has ended had a Job of its own, made since
      state `i`, exactly if no Job of that name was there at `i`. With `i` the state the backup was created in: exactly
      if none was left over from an earlier backup of its name. */
  lemma ReleasedByOwnJob(path: seq<BackupState>, acts: seq<BackupAction>, b: Name, i: nat, k: nat)
    requires RunsOf(path, acts) && i <= k < |acts| && acts[k] == BackupCtl(b, LetBackupGo)
    requires b !in path[i].settled && LeftAlone(acts, b, i, k)
    requires b in path[k].settled ==> path[k].settled[b].cause == JobEnded
    ensures (exists j :: i <= j < k && MakesJob(acts[j], b)) <==> JobName(b) !in path[i].w.jobs
  {
    hide Settles, Terminal, UpdateBackup, JobName, MakesJob;
    assert StepOf(path[k], acts[k], path[k + 1]);
    var m := Settled(path, acts, b, i, k);
    EndedMeans(path[m].w, b, path[k].settled[b].spec);
    if JobName(b) !in path[i].w.jobs {
      var j := OwnJob(path, acts, b, i, m);
    } else {
      forall j | i <= j < k ensures !MakesJob(acts[j], b) {
        JobStays(path, acts, b, i, j);
        NotTwice(path[j], acts[j], path[j + 1], b);
      }
    }
  }

  lemma EndedMeans(w: BackupWorld, b: Name, spec: BackupSpec)
    requires Settles(w, b, spec, JobEnded)
    ensures JobName(b) in w.jobs
  {
    hide Terminal;
  }

  lemma NotTwice(s: BackupState, a: BackupAction, t: BackupState, b: Name)
    requires StepOf(s, a, t) && JobName(b) in s.w.jobs
    ensures !MakesJob(a, b)
  {
    hide Terminal, Reported, Settles;
  }

  // ---- what an undisturbed pass does ----

  function BackupActs(b: Name, acts: seq<BackupAct>): (r: seq<BackupAction>)
    ensures |r| == |acts|
  {
    seq(|acts|, i requires 0 <= i < |acts| => BackupCtl(b, acts[i]))
  }

  function ReleasePlan(x: Backup): seq<BackupAct> {
    if BACKUP_FINALIZER in x.finalizers then [LetBackupGo] else []
  }

  function NoSecret(now: nat): Report {
    Report(None, false, "InvalidCredentials", "Referenced Secret not found", now)
  }

  /** finalize. A missing secret is reported in the status before the backup is let go. */
  function StopPlan(w: BackupWorld, b: Name, x: Backup): seq<BackupAct> {
    if !Wanted(x.spec) then [Settle(x.spec, OptedOut)] + ReleasePlan(x)
    else if !TargetFound(w, x.spec) then [Settle(x.spec, TargetGone)] + ReleasePlan(x)
    else if !w.platform && x.spec.storage == None then [Settle(x.spec, NoStorage)] + ReleasePlan(x)
    else if !SecretFound(w, x.spec) then [Settle(x.spec, NoStorage), SaveReports([NoSecret(w.now)])] + ReleasePlan(x)
    else if JobName(b) !in w.jobs then [MakeJob(VolumeOf(Subject(w, x.spec)))]
    else if JobDone(w, b) then [Settle(x.spec, JobEnded)] + ReleasePlan(x)
    else []
  }

  /** When such a pass wants to be called again: as long as there is a Job to wait for. */
  function StopResult(w: BackupWorld, b: Name, x: Backup): Result {
    if Wanted(x.spec) && TargetFound(w, x.spec) && StorageFound(w, x.spec) && !JobDone(w, b) then After(5) else Return
  }

  /** An undisturbed finalizing pass lets go exactly when the backup is unwanted, its target or storage is missing or
      its last Job has ended; it creates the Job exactly when all is there but the Job; else it waits. */
  lemma StopOutcome(w: BackupWorld, b: Name, x: Backup)
    requires BACKUP_FINALIZER in x.finalizers
    ensures var ready := Wanted(x.spec) && TargetFound(w, x.spec) && StorageFound(w, x.spec);
            && (LetBackupGo in StopPlan(w, b, x) <==> !ready || JobDone(w, b))
            && ((exists pvc :: MakeJob(pvc) in StopPlan(w, b, x)) <==> ready && JobName(b) !in w.jobs)
            && (StopPlan(w, b, x) == [] <==> ready && JobName(b) in w.jobs && !JobDone(w, b))
  {
    hide Terminal, TargetFound, SecretFound, Subject;
    var plan := StopPlan(w, b, x);
    if plan != [] {
      assert plan[|plan| - 1] in plan;
    }
  }

  lemma JobEndedMeans(w: BackupWorld, b: Name)
    ensures var job := b + "-backup-on-delete";
            JobDone(w, b) <==>
              && job in w.jobs
              && (exists c :: c in w.jobs[job].conditions && c.status == True && c.kind in {"Complete", "Failed"})
  {
    var job := b + "-backup-on-delete";
    if job in w.jobs {
      if c :| c in w.jobs[job].conditions && c.status == True && c.kind in {"Complete", "Failed"} {
        assert IsTerminal(c);
      }
    }
  }

  /** What an undisturbed finalizing pass does, in the fields' own words. A backup opts out exactly by the flag false;
      only a fleet is looked up; without storage, or without the Secret it names, the backup is let go. */
  lemma StopsAtOnce(w: BackupWorld, b: Name, x: Backup)
    ensures Settle(x.spec, OptedOut) in StopPlan(w, b, x) <==> x.spec.backupOnDelete == Some(false)
    ensures Settle(x.spec, TargetGone) in StopPlan(w, b, x) <==>
              && x.spec.backupOnDelete != Some(false)
              && x.spec.targetKind == "GameServerFleet" && x.spec.target !in w.fleets
    ensures Settle(x.spec, NoStorage) in StopPlan(w, b, x) <==>
              && x.spec.backupOnDelete != Some(false)
              && (x.spec.targetKind == "GameServerFleet" ==> x.spec.target in w.fleets)
              && match x.spec.storage
                 case None => !w.platform
                 case Some(storage) => storage.secret.Some? && storage.secret.value !in w.secrets
    ensures (exists rs :: SaveReports(rs) in StopPlan(w, b, x)) <==>
              && x.spec.backupOnDelete != Some(false)
              && (x.spec.targetKind == "GameServerFleet" ==> x.spec.target in w.fleets)
              && x.spec.storage.Some? && x.spec.storage.value.secret.Some?
              && x.spec.storage.value.secret.value !in w.secrets
    ensures forall rs :: SaveReports(rs) in StopPlan(w, b, x) ==>
              rs == [Report(None, false, "InvalidCredentials", "Referenced Secret not found", w.now)]
    ensures LetBackupGo in StopPlan(w, b, x) ==> BACKUP_FINALIZER in x.finalizers
  {
    hide JobDone, VolumeOf, Subject;
    var plan := StopPlan(w, b, x);
    PlanEntries(plan);
  }

  lemma PlanEntries(plan: seq<BackupAct>)
    ensures |plan| > 0 ==> plan[0] in plan
    ensures |plan| > 1 ==> plan[1] in plan
  {
  }

  /** With the flag not false, and target, storage and Secret there: the one act is to make the Job, if there is none,
      of the volume of the fleet's current GameServer, or of the target if that is no fleet or names none; once the
      Job has a condition Complete or Failed that is True the backup is let go; until then the pass waits. */
  lemma StopsWithJob(w: BackupWorld, b: Name, x: Backup)
    requires x.spec.backupOnDelete != Some(false)
    requires x.spec.targetKind == "GameServerFleet" ==> x.spec.target in w.fleets
    requires match x.spec.storage
             case None => w.platform
             case Some(storage) => storage.secret.Some? ==> storage.secret.value in w.secrets
    ensures b + "-backup-on-delete" !in w.jobs ==>
              && StopResult(w, b, x) == After(5)
              && StopPlan(w, b, x)
                 == [MakeJob(if x.spec.targetKind == "GameServerFleet" && w.fleets[x.spec.target] != ""
                             then "data-" + w.fleets[x.spec.target] + "-0" else "data-" + x.spec.target + "-0")]
    ensures b + "-backup-on-delete" in w.jobs ==>
              if exists c :: c in w.jobs[b + "-backup-on-delete"].conditions
                             && c.status == True && c.kind in {"Complete", "Failed"} then
                && StopPlan(w, b, x)
                   == [Settle(x.spec, JobEnded)] + (if BACKUP_FINALIZER in x.finalizers then [LetBackupGo] else [])
                && StopResult(w, b, x) == Return
              else StopPlan(w, b, x) == [] && StopResult(w, b, x) == After(5)
  {
    hide JobDone;
    JobEndedMeans(w, b);
  }

  /** The Job that is made: of that name and volume, labelled with its backup, and not ended. */
  lemma MakesLastJob(s: BackupState, b: Name, pvc: Name, t: BackupState)
    requires BackupStep(s, b, MakeJob(pvc), t)
    ensures b + "-backup-on-delete" !in s.w.jobs
    ensures t.w == s.w.(revision := t.w.revision,
                        jobs := s.w.jobs[b + "-backup-on-delete" := Job(b, pvc, s.w.now, None, [])])
  {
  }

  // ---- deletion comes to an end ----

  /** What is left to happen before backup `b` is let go. */
  function Left(w: BackupWorld, b: Name): nat {
    if b !in w.backups || BACKUP_FINALIZER !in w.backups[b].finalizers then 0
    else if JobDone(w, b) then 1
    else if JobName(b) in w.jobs then 2
    else 3
  }

  /** Nothing anybody does to a marked backup undoes progress, short of deleting its last Job. */
  lemma LeftNeverRises(s: BackupState, a: BackupAction, t: BackupState, b: Name)
    requires BackupInv(s) && StepOf(s, a, t) && b in s.w.backups && s.w.backups[b].deleting
    requires a != Other(JobVanishes(JobName(b)))
    ensures Left(t.w, b) <= Left(s.w, b)
    ensures b in t.w.backups ==> t.w.backups[b].deleting
  {
    hide StepOf, BackupInv, BackupOk, JobDone;
    StepOfKeeps(s, a, t, b);
    JobNext(s, a, t, b);
    if b in t.w.backups && BACKUP_FINALIZER !in s.w.backups[b].finalizers {
      assert Succeeds(s.w.backups[b], t.w.backups[b]);
    }
  }

  lemma OneMore(path: seq<BackupState>, acts: seq<BackupAct>, b: Name, act: BackupAct, t: BackupState)
    requires RunsOf(path, BackupActs(b, acts)) && BackupStep(path[|acts|], b, act, t)
    ensures RunsOf(path + [t], BackupActs(b, acts + [act]))
  {
    hide BackupStep;
    var p, r := path + [t], BackupActs(b, acts + [act]);
    forall i | 0 <= i < |r| ensures StepOf(p[i], r[i], p[i + 1]) {
      if i < |acts| {
        assert r[i] == BackupActs(b, acts)[i] && StepOf(path[i], BackupActs(b, acts)[i], path[i + 1]);
      }
    }
  }

  /** The release, once the pass has settled on it. */
  lemma ReleaseTurn(path: seq<BackupState>, acts: seq<BackupAct>, b: Name, x: Backup) returns (more: seq<BackupState>)
    requires RunsOf(path, BackupActs(b, acts))
    requires var s := path[|acts|];
             && b in s.w.backups && s.w.backups[b].deleting && BACKUP_FINALIZER in s.w.backups[b].finalizers
             && x.finalizers == s.w.backups[b].finalizers
             && b in s.settled && s.settled[b].spec == s.w.backups[b].spec
    ensures RunsOf(more, BackupActs(b, acts + ReleasePlan(x))) && more[0] == path[0]
    ensures Left(more[|more| - 1].w, b) == 0
  {
    hide RunsOf;
    LengthOf(path, acts, b);
    var s := path[|acts|];
    var released := UpdateBackup(s.w, b, s.w.backups[b].(finalizers := Without(x.finalizers, BACKUP_FINALIZER)));
    var t := s.(w := released.world);
    OneMore(path, acts, b, LetBackupGo, t);
    more := path + [t];
    LengthOf(more, acts + ReleasePlan(x), b);
  }

  lemma LengthOf(path: seq<BackupState>, acts: seq<BackupAct>, b: Name)
    requires RunsOf(path, BackupActs(b, acts))
    ensures |path| == |acts| + 1
  {
    hide StepOf;
  }

  lemma NoActsYet(s: BackupState, b: Name)
    ensures RunsOf([s], BackupActs(b, []))
  {
  }

  /** The shape of a plan that is not empty: it creates the missing Job, or settles on a cause that holds. */
  lemma StopCauses(w: BackupWorld, b: Name, x: Backup)
    requires StopPlan(w, b, x) != []
    ensures var plan := StopPlan(w, b, x);
            || (plan[0].MakeJob? && |plan| == 1 && JobName(b) !in w.jobs)
            || (plan[0].Settle? && plan[0].spec == x.spec && Settles(w, b, x.spec, plan[0].cause)
                && (plan == [plan[0]] + ReleasePlan(x)
                    || (|plan| > 1 && plan[1].SaveReports? && plan == [plan[0], plan[1]] + ReleasePlan(x))))
  {
    hide Terminal, Subject, TargetFound, SecretFound;
  }

  /** An undisturbed finalizing pass makes progress, unless all there is to do is to wait for the Job. */
  lemma StopTurn(s: BackupState, b: Name) returns (path: seq<BackupState>)
    requires b in s.w.backups && s.w.backups[b].deleting && BACKUP_FINALIZER in s.w.backups[b].finalizers
    requires StopPlan(s.w, b, s.w.backups[b]) != []
    ensures RunsOf(path, BackupActs(b, [Read] + StopPlan(s.w, b, s.w.backups[b]))) && path[0] == s
    ensures Left(path[|path| - 1].w, b) < Left(s.w, b)
    ensures Left(path[|path| - 1].w, b) != 0 ==> path[|path| - 1].w.backups == s.w.backups
  {
    hide Terminal, Reported, TargetFound, SecretFound, RunsOf, Subject, Wanted;
    var x := s.w.backups[b];
    StopCauses(s.w, b, x);
    var t := s.(settled := s.settled - {b});
    NoActsYet(s, b);
    OneMore([s], [], b, Read, t);
    assert [s] + [t] == [s, t] && [] + [Read] == [Read];
    var plan := StopPlan(s.w, b, x);
    if plan[0].MakeJob? {
      var u := t.(w := CreateJob(t.w, JobName(b), LastJob(b, plan[0].pvc)).world);
      OneMore([s, t], [Read], b, plan[0], u);
      path := [s, t] + [u];
    } else {
      var u := t.(settled := t.settled[b := Settlement(x.spec, plan[0].cause)]);
      OneMore([s, t], [Read], b, plan[0], u);
      if |plan| > 1 && plan[1].SaveReports? {
        var v := u.(w := UpdateBackupStatus(u.w, b, x.(status := Reported(x.status, x.generation, plan[1].rs))).world);
        OneMore([s, t] + [u], [Read] + [plan[0]], b, plan[1], v);
        path := ReleaseTurn([s, t] + [u] + [v], [Read] + [plan[0]] + [plan[1]], b, x);
        assert [Read] + [plan[0]] + [plan[1]] + ReleasePlan(x) == [Read] + plan;
      } else {
        path := ReleaseTurn([s, t] + [u], [Read] + [plan[0]], b, x);
        assert [Read] + [plan[0]] + ReleasePlan(x) == [Read] + plan;
      }
    }
  }

  lemma JoinRuns(p: seq<BackupState>, a: seq<BackupAction>, q: seq<BackupState>, c: seq<BackupAction>)
    requires RunsOf(p, a) && RunsOf(q, c) && p[|a|] == q[0]
    ensures RunsOf(p + q[1..], a + c)
  {
    hide StepOf;
    var r, e := p + q[1..], a + c;
    forall i | 0 <= i < |e| ensures StepOf(r[i], e[i], r[i + 1]) {
      if i < |a| {
        assert StepOf(p[i], a[i], p[i + 1]);
      } else {
        assert StepOf(q[i - |a|], c[i - |a|], q[i - |a| + 1]);
      }
    }
  }

  lemma Finished(job: Job)
    requires job.conditions == [JobCondition("Complete", True, "")]
    ensures Terminal(job)
  {
    assert IsTerminal(job.conditions[0]);
  }

  /** The Job controller's turn: the Job ends. */
  lemma JobTurn(s: BackupState, b: Name) returns (path: seq<BackupState>, acts: seq<BackupAction>)
    requires Left(s.w, b) == 2
    ensures RunsOf(path, acts) && path[0] == s && path[|acts|].w.backups == s.w.backups && Left(path[|acts|].w, b) == 1
  {
    var done := [JobCondition("Complete", True, "")];
    var name := JobName(b);
    var moved := s.w.jobs[name].(completed := Some(s.w.now), conditions := done);
    var t := s.(w := s.w.(revision := s.w.revision + 1, jobs := s.w.jobs[name := moved]));
    Finished(moved);
    path, acts := [s, t], [Other(JobMoves(name, Some(s.w.now), done))];
  }

  /** From every state a marked backup can be let go, by undisturbed passes and the Job controller's own turn. */
  lemma BackupDeletionCompletes(s: BackupState, b: Name) returns (path: seq<BackupState>, acts: seq<BackupAction>)
    requires b in s.w.backups && s.w.backups[b].deleting && BACKUP_FINALIZER in s.w.backups[b].finalizers
    ensures RunsOf(path, acts) && path[0] == s && Left(path[|acts|].w, b) == 0
    decreases Left(s.w, b)
  {
    hide Terminal, StepOf, TargetFound, StorageFound, Subject, RunsOf;
    var x := s.w.backups[b];
    if StopPlan(s.w, b, x) == [] {
      StopOutcome(s.w, b, x);
      path, acts := JobTurn(s, b);
      RunLengthOf(path, acts);
    } else {
      path := StopTurn(s, b);
      acts := BackupActs(b, [Read] + StopPlan(s.w, b, x));
      RunLengthOf(path, acts);
    }
    if Left(path[|acts|].w, b) != 0 {
      var p, a := BackupDeletionCompletes(path[|acts|], b);
      RunLengthOf(p, a);
      JoinRuns(path, acts, p, a);
      path, acts := path + p[1..], acts + a;
    }
  }

  lemma RunLengthOf(path: seq<BackupState>, acts: seq<BackupAction>)
    requires RunsOf(path, acts)
    ensures |path| == |acts| + 1
  {
    hide StepOf;
  }

  // ---- a Job left over ----

  /** A state in which nothing stands in the way of a last Job for `spec`. */
  predicate AllThere(s: BackupState, spec: BackupSpec) {
    Wanted(spec) && TargetFound(s.w, spec) && StorageFound(s.w, spec)
  }

  /** The empty store, then a platform, a fleet and a Secret, whatever `spec` may ask for. */
  lemma SetUp(b: Name, spec: BackupSpec) returns (path: seq<BackupState>, acts: seq<BackupAction>)
    requires Wanted(spec)
    ensures RunsOf(path, acts) && path[0] == BACKUP_START && |acts| == 3 && forall i :: 0 <= i < 3 ==> acts[i].Other?
    ensures AllThere(path[3], spec) && b !in path[3].w.backups && path[3].w.jobs == map[]
  {
    var secret := if spec.storage.Some? && spec.storage.value.secret.Some? then spec.storage.value.secret.value else "";
    var s := BACKUP_START;
    var t := s.(w := s.w.(revision := 1, platform := true));
    var u := t.(w := t.w.(revision := 2, fleets := t.w.fleets[spec.target := ""]));
    var v := u.(w := u.w.(revision := 3, secrets := u.w.secrets + {secret}));
    path := [s, t, u, v];
    acts := [Other(PlatformIs(true)), Other(FleetIs(spec.target, "")), Other(SecretIs(secret, true))];
  }

  /** A backup of that spec with the finalizer that has been marked. */
  predicate Stopping(s: BackupState, b: Name, spec: BackupSpec) {
    && AllThere(s, spec)
    && b in s.w.backups && s.w.backups[b].deleting && s.w.backups[b].finalizers == [BACKUP_FINALIZER]
    && s.w.backups[b].spec == spec
  }

  lemma CreateAndMark(s: BackupState, b: Name, spec: BackupSpec)
    returns (path: seq<BackupState>, acts: seq<BackupAction>)
    requires AllThere(s, spec) && b !in s.w.backups
    ensures RunsOf(path, acts) && path[0] == s
    ensures acts == [Other(CreateBackup(b, spec, [BACKUP_FINALIZER])), Other(MarkBackup(b))]
    ensures Stopping(path[2], b, spec) && path[2].w.jobs == s.w.jobs
  {
    hide Terminal;
    var made := Backup(s.w.revision + 1, 1, [BACKUP_FINALIZER], false, spec, BackupStatus([], 0, "", None));
    var t := s.(w := PutBackup(s.w, b, made));
    path := [s, t, t.(w := DeleteBackup(t.w, b).world)];
    acts := [Other(CreateBackup(b, spec, [BACKUP_FINALIZER])), Other(MarkBackup(b))];
  }

  /** An undisturbed pass over backup `b` begins in state `i` of the run. */
  predicate Passes(path: seq<BackupState>, acts: seq<BackupAction>, b: Name, i: nat) {
    && i < |path| && b in path[i].w.backups
    && (var pass := BackupActs(b, [Read] + StopPlan(path[i].w, b, path[i].w.backups[b]));
        i + |pass| <= |acts| && acts[i..i + |pass|] == pass)
  }

  /** The pass that makes the Job; then the Job ends. */
  lemma MakeAndEnd(s: BackupState, b: Name, spec: BackupSpec) returns (path: seq<BackupState>, acts: seq<BackupAction>)
    requires Stopping(s, b, spec) && JobName(b) !in s.w.jobs
    ensures RunsOf(path, acts) && path[0] == s && |acts| == 3
    ensures acts[0] == BackupCtl(b, Read) && MakesJob(acts[1], b) && acts[2].Other?
    ensures Passes(path, acts, b, 0) && Stopping(path[3], b, spec) && JobDone(path[3].w, b)
  {
    hide Terminal, JobName;
    var r, pvc := s.(settled := s.settled - {b}), VolumeOf(Subject(s.w, spec));
    var t := r.(w := CreateJob(r.w, JobName(b), LastJob(b, pvc)).world);
    var done := [JobCondition("Complete", True, "")];
    var moved := t.w.jobs[JobName(b)].(completed := Some(0), conditions := done);
    NotEnded(t.w.jobs[JobName(b)]);
    Finished(moved);
    var u := t.(w := t.w.(revision := t.w.revision + 1, jobs := t.w.jobs[JobName(b) := moved]));
    path := [s, r, t, u];
    acts := [BackupCtl(b, Read), BackupCtl(b, MakeJob(pvc)), Other(JobMoves(JobName(b), Some(0), done))];
    assert [Read] + StopPlan(s.w, b, s.w.backups[b]) == [Read, MakeJob(pvc)];
    assert acts[0..2] == BackupActs(b, [Read, MakeJob(pvc)]);
  }

  lemma NotEnded(job: Job)
    requires job.conditions == []
    ensures !Terminal(job)
  {
  }

  /** The pass that finds the Job ended and lets the backup go. */
  lemma SettleAndGo(s: BackupState, b: Name, spec: BackupSpec) returns (path: seq<BackupState>, acts: seq<BackupAction>)
    requires Stopping(s, b, spec) && JobDone(s.w, b)
    ensures RunsOf(path, acts) && path[0] == s && Passes(path, acts, b, 0)
    ensures acts == [BackupCtl(b, Read), BackupCtl(b, Settle(spec, JobEnded)), BackupCtl(b, LetBackupGo)]
    ensures b !in path[3].w.backups && path[3].w.jobs == s.w.jobs && AllThere(path[3], spec)
  {
    hide Terminal, JobName;
    var t := s.(settled := s.settled - {b});
    var u := t.(settled := t.settled[b := Settlement(spec, JobEnded)]);
    var v := u.(w := UpdateBackup(u.w, b, u.w.backups[b].(finalizers := [])).world);
    assert Without([BACKUP_FINALIZER], BACKUP_FINALIZER) == [];
    path := [s, t, u, v];
    acts := [BackupCtl(b, Read), BackupCtl(b, Settle(spec, JobEnded)), BackupCtl(b, LetBackupGo)];
    assert [Read] + StopPlan(s.w, b, s.w.backups[b]) == [Read, Settle(spec, JobEnded), LetBackupGo];
    assert acts[0..3] == BackupActs(b, [Read, Settle(spec, JobEnded), LetBackupGo]);
  }

  /** One run after another. A pass in either is a pass in both together. */
  lemma Joined(p: seq<BackupState>, a: seq<BackupAction>, q: seq<BackupState>, c: seq<BackupAction>, b: Name)
    returns (path: seq<BackupState>, acts: seq<BackupAction>)
    requires RunsOf(p, a) && RunsOf(q, c) && p[|a|] == q[0]
    ensures RunsOf(path, acts) && path == p + q[1..] && acts == a + c && |path| == |acts| + 1
    ensures |p| == |a| + 1 && |q| == |c| + 1 && path[|acts|] == q[|c|]
    ensures forall k :: Passes(p, a, b, k) ==> Passes(path, acts, b, k)
    ensures Passes(q, c, b, 0) ==> Passes(path, acts, b, |a|)
  {
    hide StepOf, StopPlan;
    path, acts := p + q[1..], a + c;
    JoinRuns(p, a, q, c);
    forall k: nat | Passes(p, a, b, k) ensures Passes(path, acts, b, k) {
      var pass := BackupActs(b, [Read] + StopPlan(p[k].w, b, p[k].w.backups[b]));
      assert path[k] == p[k] && acts[k..k + |pass|] == a[k..k + |pass|];
    }
    if Passes(q, c, b, 0) {
      var pass := BackupActs(b, [Read] + StopPlan(q[0].w, b, q[0].w.backups[b]));
      assert path[|a|] == q[0] && acts[|a|..|a| + |pass|] == c[0..|pass|];
    }
  }

  /** It does happen, in quiet times and with all that a last Job needs: a backup makes its Job and is let go; a second
      backup of its name, created by action `i`, is let go by that same Job, without one of its own. Every action of
      the controller is part of one of the three undisturbed passes. */
  lemma LeftoverJobCounts(b: Name, spec: BackupSpec) returns (path: seq<BackupState>, acts: seq<BackupAction>, i: nat)
    requires Wanted(spec)
    ensures RunsOf(path, acts) && path[0] == BACKUP_START && |acts| == 16 && |path| == 17 && i == 11
    ensures forall j :: j in {5, 8, 13} ==> Passes(path, acts, b, j) && Stopping(path[j], b, spec)
    ensures forall j :: 0 <= j < 16 ==> (acts[j].BackupCtl? <==> 5 <= j <= 6 || 8 <= j <= 10 || 13 <= j)
    ensures acts[i] == Other(CreateBackup(b, spec, [BACKUP_FINALIZER])) && acts[15] == BackupCtl(b, LetBackupGo)
    ensures MakesJob(acts[6], b) && forall j :: i <= j < 16 ==> !MakesJob(acts[j], b)
  {
    hide StepOf, RunsOf, Terminal, JobName, Stopping, Passes, AllThere;
    path, acts := SetUp(b, spec);
    RunLengthOf(path, acts);
    var p, a := CreateAndMark(path[3], b, spec);
    path, acts := Joined(path, acts, p, a, b);
    p, a := MakeAndEnd(path[5], b, spec);
    path, acts := Joined(path, acts, p, a, b);
    p, a := SettleAndGo(path[8], b, spec);
    path, acts := Joined(path, acts, p, a, b);
    p, a := CreateAndMark(path[11], b, spec);
    path, acts := Joined(path, acts, p, a, b);
    p, a := SettleAndGo(path[13], b, spec);
    path, acts := Joined(path, acts, p, a, b);
    i := 11;
  }
}

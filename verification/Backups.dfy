/** GameServerBackups, their Jobs, and the edits the backup controller makes to a backup's status. */
module Backups {
  import opened Types
  import opened Conditions
  import opened Live
  import Invariants

  const BACKUP_FINALIZER := "games.gobehost.com/backup-finalizer"

  datatype StorageSpec = StorageSpec(secret: Option<Name>)

  datatype BackupSpec = BackupSpec(targetKind: string, target: Name, backupOnDelete: Option<bool>,
                                   storage: Option<StorageSpec>)

  datatype BackupStatus = BackupStatus(conditions: seq<Condition>, observedGeneration: int, lastStatus: string,
                                       lastTime: Option<nat>)

  datatype Backup = Backup(version: nat, generation: int, finalizers: seq<string>, deleting: bool, spec: BackupSpec,
                           status: BackupStatus)

  datatype JobCondition = JobCondition(kind: string, status: Truth, message: string)

  /** A Job carries the labels of the backup it belongs to. */
  datatype Job = Job(backup: Name, pvc: Name, created: nat, completed: Option<nat>, conditions: seq<JobCondition>)

  // ---- Jobs ----

  predicate IsTerminal(c: JobCondition) {
    (c.kind == "Complete" || c.kind == "Failed") && c.status == True
  }

  predicate Terminal(job: Job) {
    exists i :: 0 <= i < |job.conditions| && IsTerminal(job.conditions[i])
  }

  predicate FirstTerminal(cs: seq<JobCondition>, i: nat) {
    i < |cs| && IsTerminal(cs[i]) && forall j :: 0 <= j < i ==> !IsTerminal(cs[j])
  }

  predicate IsLatest(jobs: seq<Job>, k: nat) {
    && k < |jobs|
    && (forall j :: 0 <= j < |jobs| ==> jobs[j].created <= jobs[k].created)
    && (forall j :: 0 <= j < k ==> jobs[j].created < jobs[k].created)
  }

  /** The Job created last; of several created at the same time, the one listed first. */
  method LatestJob(jobs: seq<Job>) returns (k: nat)
    requires jobs != []
    ensures IsLatest(jobs, k)
    ensures k < |jobs| && forall j :: 0 <= j < |jobs| ==> jobs[j].created <= jobs[k].created
    ensures forall j :: 0 <= j < k ==> jobs[j].created < jobs[k].created
  {
    k := 0;
    for i := 0 to |jobs|
      invariant k < |jobs|
      invariant forall j :: 0 <= j < i ==> jobs[j].created <= jobs[k].created
      invariant forall j :: 0 <= j < k ==> jobs[j].created < jobs[k].created
    {
      if jobs[i].created > jobs[k].created {
        k := i;
      }
    }
  }

  // ---- status edits ----

  /** How a Job ended. */
  datatype Ended = Ended(success: bool, message: string, completed: Option<nat>)

  function EndedBy(job: Job, c: JobCondition): Ended {
    Ended(c.kind == "Complete", c.message, job.completed)
  }

  /** The outcome the Jobs tell of: the first true terminal condition of the latest one, if it has any. */
  ghost predicate OutcomeOf(jobs: seq<Job>, ended: Option<Ended>) {
    && (jobs == [] ==> ended == None)
    && (forall k: nat, i: nat :: IsLatest(jobs, k) && FirstTerminal(jobs[k].conditions, i) ==>
          ended == Some(EndedBy(jobs[k], jobs[k].conditions[i])))
    && (forall k: nat :: IsLatest(jobs, k) && !Terminal(jobs[k]) ==> ended == None)
  }

  lemma OutcomeAt(jobs: seq<Job>, k: nat, i: nat)
    requires IsLatest(jobs, k) && FirstTerminal(jobs[k].conditions, i)
    ensures OutcomeOf(jobs, Some(EndedBy(jobs[k], jobs[k].conditions[i])))
  {
    assert forall m: nat :: IsLatest(jobs, m) ==> m == k;
    assert forall j: nat :: FirstTerminal(jobs[k].conditions, j) ==> j == i;
    assert Terminal(jobs[k]);
  }

  lemma NoJobs()
    ensures OutcomeOf([], None)
  {
  }

  lemma NoOutcome(jobs: seq<Job>, k: nat)
    requires IsLatest(jobs, k) && !Terminal(jobs[k])
    ensures OutcomeOf(jobs, None)
  {
    assert forall m: nat :: IsLatest(jobs, m) ==> m == k;
  }

  function BackupPut(st: BackupStatus, kind: string, t: Truth, reason: string, message: string,
                     now: nat): BackupStatus {
    st.(conditions := Put(st.conditions, Condition(kind, t, reason, message, st.observedGeneration, now)))
  }

  const SUCCEEDED := "LastBackupSucceeded"

  function EndedEdit(st: BackupStatus, ended: Option<Ended>, now: nat): BackupStatus {
    if ended == None then st
    else if ended.value.success then
      BackupPut(st, SUCCEEDED, True, "Succeeded", "Last backup job succeeded", now)
      .(lastStatus := "Success",
        lastTime := if ended.value.completed == None then st.lastTime else ended.value.completed)
    else
      BackupPut(st, SUCCEEDED, False, "CronJobFailed", ended.value.message, now).(lastStatus := "Failed")
  }

  /** What the edit leaves: the outcome as text, the condition about it, and the time of a success that has one. */
  lemma EndedTells(st: BackupStatus, ended: Ended, now: nat)
    ensures var a := EndedEdit(st, Some(ended), now);
            && a.lastStatus == (if ended.success then "Success" else "Failed")
            && Find(a.conditions, "LastBackupSucceeded")
               == Some(Condition("LastBackupSucceeded", if ended.success then True else False,
                                 if ended.success then "Succeeded" else "CronJobFailed",
                                 if ended.success then "Last backup job succeeded" else ended.message,
                                 st.observedGeneration, now))
            && a.lastTime == (if ended.success && ended.completed.Some? then ended.completed else st.lastTime)
            && a.observedGeneration == st.observedGeneration
    ensures forall kind :: kind != "LastBackupSucceeded" ==>
              Find(EndedEdit(st, Some(ended), now).conditions, kind) == Find(st.conditions, kind)
  {
    var t := if ended.success then True else False;
    var c := Condition(SUCCEEDED, t, if ended.success then "Succeeded" else "CronJobFailed",
                       if ended.success then "Last backup job succeeded" else ended.message,
                       st.observedGeneration, now);
    PutIsMapUpdate(st.conditions, c, SUCCEEDED);
    forall kind | kind != SUCCEEDED
      ensures Find(EndedEdit(st, Some(ended), now).conditions, kind) == Find(st.conditions, kind) {
      PutIsMapUpdate(st.conditions, c, kind);
    }
  }

  /** One report: how the last Job ended if that was looked up, the Ready condition, the generation. */
  datatype Report = Report(ended: Option<Ended>, ready: bool, reason: string, message: string, now: nat)

  function ReportEdit(st: BackupStatus, generation: int, r: Report): BackupStatus {
    BackupPut(EndedEdit(st, r.ended, r.now), "Ready", TruthOf(r.ready), r.reason, r.message, r.now)
    .(observedGeneration := generation)
  }

  /** The reports a pass has made on the status it read. */
  function Reported(st: BackupStatus, generation: int, rs: seq<Report>): BackupStatus {
    if rs == [] then st else ReportEdit(Reported(st, generation, rs[..|rs| - 1]), generation, rs[|rs| - 1])
  }

  lemma ReportedMore(st: BackupStatus, generation: int, rs: seq<Report>, r: Report)
    ensures Reported(st, generation, rs + [r]) == ReportEdit(Reported(st, generation, rs), generation, r)
  {
    assert (rs + [r])[..|rs|] == rs;
  }

  /** A report ends with the Ready condition and the generation. */
  lemma ReportTells(st: BackupStatus, generation: int, r: Report)
    ensures var a := ReportEdit(st, generation, r);
            && a.observedGeneration == generation
            && Find(a.conditions, "Ready")
               == Some(Condition("Ready", if r.ready then True else False, r.reason, r.message,
                                 st.observedGeneration, r.now))
            && (r.ended == None ==> a.lastStatus == st.lastStatus && a.lastTime == st.lastTime)
            && (r.ended.Some? ==> a.lastStatus == if r.ended.value.success then "Success" else "Failed")
    ensures forall kind :: kind != "Ready" ==> Find(ReportEdit(st, generation, r).conditions, kind)
                                               == Find(EndedEdit(st, r.ended, r.now).conditions, kind)
  {
    var b := EndedEdit(st, r.ended, r.now);
    var c := Condition("Ready", TruthOf(r.ready), r.reason, r.message, b.observedGeneration, r.now);
    PutIsMapUpdate(b.conditions, c, "Ready");
    forall kind | kind != "Ready"
      ensures Find(ReportEdit(st, generation, r).conditions, kind) == Find(b.conditions, kind) {
      PutIsMapUpdate(b.conditions, c, kind);
    }
  }

  class LiveBackup {
    var o: Backup

    constructor (backup: Backup)
      ensures o == backup
    {
      o := backup;
    }

    /** setBackupCondition. */
    method SetCondition(kind: string, t: Truth, reason: string, message: string, now: nat)
      modifies this
      ensures o == old(o).(status := BackupPut(old(o).status, kind, t, reason, message, now))
    {
      var cs := SetIn(o.status.conditions, Condition(kind, t, reason, message, o.status.observedGeneration, now));
      o := o.(status := o.status.(conditions := cs));
    }

    /** updateBackupJobStatus, given what the List call returned, if anything. The status follows the first true
        terminal condition of the Job created last, at `at` in `latest`: a Complete one is a success, a Failed one is
        not. It stays as it was when that Job has none. */
    method ReadJobs(listed: Option<seq<Job>>, now: nat)
      returns (ghost ended: Option<Ended>, ghost latest: nat, ghost at: Option<nat>)
      modifies this
      ensures o == old(o).(status := EndedEdit(old(o).status, ended, now))
      ensures if listed == None then ended == None else OutcomeOf(listed.value, ended)
      ensures listed == None || listed.value == [] ==> at == None
      ensures listed.Some? && listed.value != [] ==>
                && latest < |listed.value|
                && (forall j :: 0 <= j < |listed.value| ==> listed.value[j].created <= listed.value[latest].created)
                && (forall j :: 0 <= j < latest ==> listed.value[j].created < listed.value[latest].created)
                && var cs := listed.value[latest].conditions;
                   if at == None then
                     forall j :: 0 <= j < |cs| ==> !(cs[j].kind in {"Complete", "Failed"} && cs[j].status == True)
                   else
                     && at.value < |cs| && cs[at.value].kind in {"Complete", "Failed"} && cs[at.value].status == True
                     && forall j :: 0 <= j < at.value ==>
                        !(cs[j].kind in {"Complete", "Failed"} && cs[j].status == True)
      ensures at == None ==> o == old(o)
      ensures listed.Some? && listed.value != [] && at.Some? ==>
                var job, before, after := listed.value[latest], old(o).status, o.status;
                if job.conditions[at.value].kind == "Complete" then
                  && after.lastStatus == "Success"
                  && after.lastTime == (if job.completed.Some? then job.completed else before.lastTime)
                  && Find(after.conditions, "LastBackupSucceeded")
                     == Some(Condition("LastBackupSucceeded", True, "Succeeded", "Last backup job succeeded",
                                       before.observedGeneration, now))
                else
                  && after.lastStatus == "Failed" && after.lastTime == before.lastTime
                  && Find(after.conditions, "LastBackupSucceeded")
                     == Some(Condition("LastBackupSucceeded", False, "CronJobFailed", job.conditions[at.value].message,
                                       before.observedGeneration, now))
      ensures forall kind :: kind != "LastBackupSucceeded" ==>
                Find(o.status.conditions, kind) == Find(old(o).status.conditions, kind)
    {
      hide Put, Find, OutcomeOf;
      ended, latest, at := None, 0, None;
      if listed == None || |listed.value| == 0 {
        NoJobs();
        return;
      }
      var newest := LatestJob(listed.value);
      latest := newest;
      var job := listed.value[newest];
      for i := 0 to |job.conditions|
        invariant o == old(o) && ended == None && at == None
        invariant forall j :: 0 <= j < i ==> !IsTerminal(job.conditions[j])
      {
        var c := job.conditions[i];
        if c.kind == "Complete" && c.status == True {
          ended, at := Some(EndedBy(job, c)), Some(i);
          SetCondition(SUCCEEDED, True, "Succeeded", "Last backup job succeeded", now);
          o := o.(status := o.status.(lastStatus := "Success"));
          if job.completed != None {
            o := o.(status := o.status.(lastTime := job.completed));
          }
          OutcomeAt(listed.value, newest, i);
          EndedTells(old(o).status, ended.value, now);
          return;
        }
        if c.kind == "Failed" && c.status == True {
          ended, at := Some(EndedBy(job, c)), Some(i);
          SetCondition(SUCCEEDED, False, "CronJobFailed", c.message, now);
          o := o.(status := o.status.(lastStatus := "Failed"));
          OutcomeAt(listed.value, newest, i);
          EndedTells(old(o).status, ended.value, now);
          return;
        }
      }
      NoOutcome(listed.value, newest);
    }

    /** The Ready condition, and the generation the report is about. */
    method Conclude(ready: bool, reason: string, message: string, now: nat)
      modifies this
      ensures o == old(o).(status := BackupPut(old(o).status, "Ready", TruthOf(ready), reason, message, now)
                                     .(observedGeneration := old(o).generation))
    {
      SetCondition("Ready", if ready then True else False, reason, message, now);
      o := o.(status := o.status.(observedGeneration := o.generation));
    }
  }

  // ---- what every status satisfies ----

  /** The last outcome and the condition about it say the same; conditions are a map; generations are in order. */
  ghost predicate StatusOk(st: BackupStatus, generation: int) {
    && Unique(st.conditions)
    && Invariants.Observed(st.conditions, st.observedGeneration, generation)
    && (st.lastStatus == "" || st.lastStatus == "Success" || st.lastStatus == "Failed")
    && (match Find(st.conditions, SUCCEEDED)
        case None => st.lastStatus == ""
        case Some(c) =>
          || (c.status == True && st.lastStatus == "Success")
          || (c.status == False && st.lastStatus == "Failed"))
  }

  /** Reports keep a status in order, and the observed generation never falls. */
  lemma ReportKeepsOk(st: BackupStatus, generation: int, r: Report)
    requires StatusOk(st, generation)
    ensures StatusOk(ReportEdit(st, generation, r), generation)
    ensures st.observedGeneration <= ReportEdit(st, generation, r).observedGeneration == generation
  {
    var a := EndedEdit(st, r.ended, r.now);
    if r.ended.Some? {
      var put :=
        if r.ended.value.success then
          Condition(SUCCEEDED, True, "Succeeded", "Last backup job succeeded", st.observedGeneration, r.now)
        else
          Condition(SUCCEEDED, False, "CronJobFailed", r.ended.value.message, st.observedGeneration, r.now);
      assert a.conditions == Put(st.conditions, put);
      Invariants.PutObserved(st.conditions, put, st.observedGeneration, generation);
      PutIsMapUpdate(st.conditions, put, SUCCEEDED);
    }
    var ready := Condition("Ready", TruthOf(r.ready), r.reason, r.message, a.observedGeneration, r.now);
    Invariants.PutObserved(a.conditions, ready, a.observedGeneration, generation);
    assert "Ready"[0] != SUCCEEDED[0];
    PutIsMapUpdate(a.conditions, ready, SUCCEEDED);
  }

  lemma {:induction false} ReportedKeepsOk(st: BackupStatus, generation: int, rs: seq<Report>)
    requires StatusOk(st, generation)
    ensures StatusOk(Reported(st, generation, rs), generation)
    ensures st.observedGeneration <= Reported(st, generation, rs).observedGeneration
  {
    hide StatusOk, ReportEdit;
    if rs != [] {
      ReportedKeepsOk(st, generation, rs[..|rs| - 1]);
      ReportKeepsOk(Reported(st, generation, rs[..|rs| - 1]), generation, rs[|rs| - 1]);
    }
  }
}

/** Rollout history over whole runs. */
module Rollouts {
  import opened Types
  import opened Conditions
  import opened Live
  import opened Store
  import opened TemplateHash
  import opened Actions
  import opened Invariants
  import opened Preservation
  import opened Evolution

  /** What is stored is the end of everything ever recorded, in time order: an open record has no result,
      a completed one succeeded no earlier than it started and no later than the next one started. */
  lemma StoredIsSuffix(cfg: Config, s: State, f: Name)
    requires Inv(cfg, s) && f in s.w.fleets
    ensures f in s.l.logs && Suffix(s.w.fleets[f].status.history, s.l.logs[f].rollouts)
    ensures Timeline(s.w.fleets[f].status.history, s.w.now)
    ensures cfg.capHistory ==> |s.w.fleets[f].status.history| <= 10
  {
    hide ComputeTemplateHash;
    assert FleetOk(cfg, s, f);
    var h, all := s.w.fleets[f].status.history, s.l.logs[f].rollouts;
    SuffixTimeline(h, all, s.w.now);
  }

  lemma SuffixTimeline(h: seq<Rollout>, all: seq<Rollout>, now: nat)
    requires Suffix(h, all) && Timeline(all, now)
    ensures Timeline(h, now)
  {
    var k := |all| - |h|;
    forall i | 0 < i < |h| ensures LastTime(h[..i]) <= h[i].startedAt {
      assert h[..i][i - 1] == all[..k + i][k + i - 1];
    }
  }

  /** Consecutive records do not overlap. */
  lemma RecordsDoNotOverlap(cfg: Config, s: State, f: Name, i: nat)
    requires Inv(cfg, s) && f in s.w.fleets && 0 < i < |s.w.fleets[f].status.history|
    ensures var h := s.w.fleets[f].status.history;
            && h[i - 1].startedAt <= h[i].startedAt
            && (h[i - 1].completedAt.Some? ==> h[i - 1].startedAt <= h[i - 1].completedAt.value <= h[i].startedAt)
  {
    StoredIsSuffix(cfg, s, f);
    var h := s.w.fleets[f].status.history;
    assert LastTime(h[..i]) <= h[i].startedAt && h[..i][i - 1] == h[i - 1];
    assert RecordOk(h[i - 1], s.w.now);
  }

  lemma EditHistories(st: FleetStatus, generation: int, gs: ServerStatus, n: Name, from: string, to: string, now: nat)
    ensures SyncEdit(st, generation, Some(gs), now).history == st.history
    ensures CompleteEdit(st, generation, n, to, now).history == LastTen(CloseLast(st.history, to, now))
    ensures |StartEdit(st, from, to, now).history| == |st.history| + 1
    ensures CreatedEdit(st, n, now).history == st.history && ResetEdit(st).history == st.history
  {
  }

  /** Closing the last record if it is open and keeping the last ten. */
  lemma CompletionShape(h: seq<Rollout>, version: string, now: nat)
    ensures var k := LastTen(CloseLast(h, version, now));
            && |k| == (if |h| < 10 then |h| else 10)
            && (h != [] ==> k[|k| - 1].completedAt.Some? && k[|k| - 1].startedAt == h[|h| - 1].startedAt)
            && (h != [] && h[|h| - 1].completedAt.Some? ==> k[|k| - 1] == h[|h| - 1])
            && (h != [] && h[|h| - 1].completedAt == None ==>
                  k[|k| - 1] == h[|h| - 1].(completedAt := Some(now), result := "Success",
                                            message := "Update to version " + version + " completed"))
            && forall i :: 0 <= i < |k| - 1 ==> k[i] == h[|h| - |k| + i]
  {
  }

  /** Every completion leaves the last ten records, the last one closed: whatever the pass had synced before. */
  lemma CompletionTrims(cfg: Config, s: State, f: Name, gs: ServerStatus, unsynced: Option<nat>, version: string,
                        now: nat, t: State)
    requires FCompleteStatus(cfg, s, f, gs, unsynced, version, now, t)
    ensures f in s.w.fleets
    ensures f in t.w.fleets ==>
              t.w.fleets[f].status.history == LastTen(CloseLast(s.w.fleets[f].status.history, version, now))
  {
    hide ComputeTemplateHash, SyncEdit, CompleteEdit, LastTime, CloseLast, LastTen, Steady;
    var fleet := s.w.fleets[f];
    var synced := if unsynced == None then fleet.status
                  else SyncEdit(fleet.status, fleet.generation, Some(gs), unsynced.value);
    if unsynced != None {
      EditHistories(fleet.status, fleet.generation, gs, OwnedName(f), "", version, unsynced.value);
    }
    EditHistories(synced, fleet.generation, gs, OwnedName(f), "", version, now);
  }

  // ---- the CRD's limit ----

  /** Two histories with the same records, up to the last one having been closed meanwhile. */
  ghost predicate SameRecords(h: seq<Rollout>, k: seq<Rollout>) {
    && |h| == |k|
    && (forall i :: 0 <= i < |h| - 1 ==> k[i] == h[i])
    && (h != [] ==> k[|k| - 1].startedAt == h[|h| - 1].startedAt && k[|k| - 1].toVersion == h[|h| - 1].toVersion)
  }

  lemma CompletionOfTen(h: seq<Rollout>, version: string, now: nat)
    requires |h| == 10
    ensures SameRecords(h, LastTen(CloseLast(h, version, now)))
  {
  }

  /** A status write over a full history under the limit adds nothing. */
  lemma FullHistoryStep(cfg: Config, s: State, f: Name, act: FleetAct, t: State)
    requires cfg.capHistory && FleetStep(cfg, s, f, act, t)
    requires f in s.w.fleets && |s.w.fleets[f].status.history| == 10 && f in t.w.fleets
    requires FleetTarget(FleetCtl(f, act)) == Some(f)
    ensures SameRecords(s.w.fleets[f].status.history, t.w.fleets[f].status.history) && !act.StartStatus?
  {
    hide ComputeTemplateHash, SyncEdit, CompleteEdit, StartEdit, CreatedEdit, ResetEdit, LastTime, CloseLast, LastTen,
      NoneOwned;
    var fleet := s.w.fleets[f];
    match act
    case SyncStatus(gs, now) => EditHistories(fleet.status, fleet.generation, gs, OwnedName(f), "", "", now);
    case StartStatus(from, now) =>
      EditHistories(fleet.status, fleet.generation, NEW_STATUS, OwnedName(f), from, fleet.template.spec.version, now);
    case CompleteStatus(gs, unsynced, version, now) =>
      CompletionOfTen(fleet.status.history, version, now);
      var synced := if unsynced == None then fleet.status
                    else SyncEdit(fleet.status, fleet.generation, Some(gs), unsynced.value);
      if unsynced != None {
        EditHistories(fleet.status, fleet.generation, gs, OwnedName(f), "", version, unsynced.value);
      }
      EditHistories(synced, fleet.generation, gs, OwnedName(f), "", version, now);
    case CreatedStatus(now) => EditHistories(fleet.status, fleet.generation, NEW_STATUS, OwnedName(f), "", "", now);
    case ResetStatus => EditHistories(fleet.status, fleet.generation, NEW_STATUS, OwnedName(f), "", "", 0);
    case _ =>
  }

  lemma FullHistoryNext(cfg: Config, s: State, a: Action, t: State, f: Name)
    requires Inv(cfg, s) && cfg.capHistory && Step(cfg, s, a, t)
    requires f in s.w.fleets && |s.w.fleets[f].status.history| == 10 && f in t.w.fleets
    ensures SameRecords(s.w.fleets[f].status.history, t.w.fleets[f].status.history)
    ensures a.FleetCtl? && a.f == f ==> !a.fact.StartStatus?
  {
    hide Inv, FleetStep, ServerStep, ComputeTemplateHash;
    if FleetTarget(a) == Some(f) {
      if a.FleetCtl? {
        FullHistoryStep(cfg, s, f, a.fact, t);
      }
    } else {
      FleetsUntouched(cfg, s, a, t);
    }
  }

  /** With the CRD's limit enforced, a history that has reached ten records is frozen: over any run on the
      same fleet no rollout start is ever stored again and the records stay the same ones. */
  lemma {:induction false} HistoryFreezes(cfg: Config, path: seq<State>, acts: seq<Action>, f: Name, j: nat)
    requires Runs(cfg, path, acts) && Inv(cfg, path[0]) && cfg.capHistory && j < |path|
    requires forall i :: 0 <= i < |path| ==> f in path[i].w.fleets
    requires |path[0].w.fleets[f].status.history| == 10
    ensures SameRecords(path[0].w.fleets[f].status.history, path[j].w.fleets[f].status.history)
    ensures forall i :: 0 <= i < j ==> !(acts[i].FleetCtl? && acts[i].f == f && acts[i].fact.StartStatus?)
    decreases j
  {
    hide Inv, Step;
    if j != 0 {
      HistoryFreezes(cfg, path, acts, f, j - 1);
      RunKeeps(cfg, path, acts, j - 1);
      FullHistoryNext(cfg, path[j - 1], acts[j - 1], path[j], f);
    }
  }

  /** A rollout start is stored exactly when the history has room, for a write on the current version. */
  lemma StartNeedsRoom(cfg: Config, s: State, f: Name, from: string, now: nat)
    requires f in s.w.fleets
    ensures var fleet := s.w.fleets[f];
            UpdateFleetStatus(cfg, s.w, f,
                              fleet.(status := StartEdit(fleet.status, from, fleet.template.spec.version, now))).err
              == if cfg.capHistory && |fleet.status.history| >= 10 then Some(Invalid) else None
  {
  }
}

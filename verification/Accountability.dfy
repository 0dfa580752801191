/**
 * What the audit trail accounts for, under any interleaving of workers and API requests with stale reads:
 * every batch status is justified, every altered prediction was open to relabelling and its change recorded,
 * and role changes and their audit rows agree in number.
 */
module Accountability {
  import opened Prelude
  import opened Keys
  import opened World
  import opened System
  import Q = Requests
  import B = Births

  /** A status other than pending is the work of a worker that made a prediction, or is on record. */
  predicate Justified(w: World, b: Uuid, status: BatchStatus) {
    || status == Pending
    || (status == Done && PredictionsOf(w.predictions, b) != {})
    || Audited(w, StatusChange(status), BatchTarget(b))
  }

  predicate StatusesJustified(w: World) {
    forall b | b in w.batches :: Justified(w, b, w.batches[b].status)
  }

  /** The old status a request remembers was justified when it was read. */
  predicate SeenJustified(w: World, r: Q.Request) {
    r.kind.PatchBatch? && (r.pc.Writing? || r.pc.Auditing? || r.pc.Committing?) ==>
      r.pc.seen.StatusRead? && Justified(w, r.kind.batch, r.pc.seen.status)
  }

  /** The row is as inserted, or it was below the limit and a relabel is on record. */
  predicate Accounted(w: World, birth: Birth, p: nat)
    requires p < |w.predictions|
  {
    w.predictions[p] == birth.row ||
    (w.predictions[p].confidence < Q.CONFIDENCE_LIMIT && Audited(w, Relabel, PredictionTarget(p)))
  }

  predicate RelabelsAccounted(w: World, born: seq<Birth>) {
    |born| == |w.predictions| && forall p | 0 <= p < |w.predictions| :: Accounted(w, born[p], p)
  }

  /** Past its guard, a relabel request is about a prediction below the limit. */
  predicate RelabelGuarded(w: World, r: Q.Request) {
    r.kind.RelabelPrediction? && (r.pc.Writing? || r.pc.Auditing? || r.pc.Committing?) ==>
      r.kind.pid < |w.predictions| && w.predictions[r.kind.pid].confidence < Q.CONFIDENCE_LIMIT
  }

  predicate RequestsSound(w: World, requests: seq<Q.Request>) {
    forall q | 0 <= q < |requests| :: SeenJustified(w, requests[q]) && RelabelGuarded(w, requests[q])
  }

  function RoleToggles(audit: seq<AuditEntry>): nat {
    if audit == [] then 0
    else RoleToggles(audit[..|audit| - 1]) + (if audit[|audit| - 1].action == RoleToggle then 1 else 0)
  }

  predicate Inv(s: State) {
    && StatusesJustified(s.w)
    && RelabelsAccounted(s.w, s.h.born)
    && RequestsSound(s.w, s.requests)
    && RoleToggles(s.w.audit) == s.h.roleCommits
  }

  // ---------------------------------------------------------------- justification is never lost

  lemma AuditedStays(w: World, w': World, action: AuditAction, target: AuditTarget)
    requires Audited(w, action, target) && w.audit <= w'.audit
    ensures Audited(w', action, target)
  {
  }

  lemma JustifiedStays(w: World, w': World, b: Uuid, status: BatchStatus)
    requires Justified(w, b, status) && Grows(w, w')
    ensures Justified(w', b, status)
  {
  }

  lemma StatusesStay(w: World, w': World)
    requires StatusesJustified(w) && Grows(w, w')
    requires forall b | b in w'.batches ::
      (b in w.batches && w'.batches[b].status == w.batches[b].status) || Justified(w', b, w'.batches[b].status)
    ensures StatusesJustified(w')
  {
  }

  lemma RequestsStaySound(w: World, w': World, requests: seq<Q.Request>)
    requires RequestsSound(w, requests) && Grows(w, w')
    ensures RequestsSound(w', requests)
  {
  }

  lemma AccountsStay(w: World, w': World, born: seq<Birth>)
    requires RelabelsAccounted(w, born) && w.audit <= w'.audit && w'.predictions == w.predictions
    ensures RelabelsAccounted(w', born)
  {
  }

  // ---------------------------------------------------------------- the steps that matter

  /** The worker's two commits: a new prediction is accounted for, and done is only set when one exists. */
  lemma RunKeeps(c: Classifier, s: State, r: nat, o: Outcome, s': State)
    requires Inv(s) && B.Inv(c, s) && Enabled(s, RunCall(r, o)) && RunSummary(c, s, r, o, s')
    ensures Inv(s')
  {
    RunKeepsStatuses(c, s, r, o, s');
    RequestsStaySound(s.w, s'.w, s.requests);
    if s'.w.predictions == s.w.predictions {
      AccountsStay(s.w, s'.w, s.h.born);
    } else {
      RunAccountsForRow(c, s, r, o, s');
    }
  }

  lemma RunAccountsForRow(c: Classifier, s: State, r: nat, o: Outcome, s': State)
    requires RelabelsAccounted(s.w, s.h.born) && Enabled(s, RunCall(r, o)) && RunSummary(c, s, r, o, s')
    requires s'.w.predictions != s.w.predictions
    ensures RelabelsAccounted(s'.w, s'.h.born)
  {
  }

  lemma RunKeepsStatuses(c: Classifier, s: State, r: nat, o: Outcome, s': State)
    requires StatusesJustified(s.w) && B.Inv(c, s) && Enabled(s, RunCall(r, o)) && RunSummary(c, s, r, o, s')
    ensures StatusesJustified(s'.w)
  {
    var run := s.runs[r];
    var b := s.w.jobs[run.job].batch;
    if run.pc.Completing? {
      var p := run.pc.pid;
      assert B.RunConsistent(run, s.h.born, r);
      assert B.BornOf(c, s.w.jobs, s.runs, s.h.born[p], s.w.predictions[p], p);
      assert p in PredictionsOf(s'.w.predictions, b);
    }
    StatusesStay(s.w, s'.w);
  }

  /** A status change is on record, or repeats a status that was justified when it was read. */
  lemma PatchJustified(w: World, r: Q.Request)
    requires SessionShape(r) && r.pc.Committing? && SeenJustified(w, r) && r.kind.PatchBatch? && r.kind.status.Set?
    ensures Justified(Commit(w, r.pc.writes), r.kind.batch, r.kind.status.value)
  {
    var w' := Commit(w, r.pc.writes);
    var b, status := r.kind.batch, r.kind.status.value;
    CommitAppendsAudit(w, r.kind, r.actor, r.pc.seen);
    if r.pc.seen == Q.StatusRead(status) {
      CommitEffect(w, r.kind, r.actor, r.pc.seen);
      JustifiedStays(w, w', b, status);
    } else {
      assert w'.audit[|w.audit|] == AuditEntry(r.actor, StatusChange(status), BatchTarget(b));
    }
  }

  /** Only the patched batch gets a new status. */
  lemma PatchFrame(w: World, r: Q.Request, b: Uuid)
    requires SessionShape(r) && r.pc.Committing? && b in w.batches
    ensures var w' := Commit(w, r.pc.writes);
      && b in w'.batches
      && (w'.batches[b].status == w.batches[b].status
          || (r.kind.PatchBatch? && r.kind.status.Set? && r.kind.batch == b
              && w'.batches[b].status == r.kind.status.value))
  {
    CommitAppendsAudit(w, r.kind, r.actor, r.pc.seen);
    assert Commit(w, r.pc.writes).batches == Changed(w, r.kind, r.pc.seen).batches;
    if !r.kind.PatchBatch? {
      ChangeFrame(w, r.kind, r.pc.seen);
    }
  }

  lemma RequestCommitKeepsStatuses(w: World, r: Q.Request)
    requires StatusesJustified(w) && SessionShape(r) && r.pc.Committing? && SeenJustified(w, r)
    ensures StatusesJustified(Commit(w, r.pc.writes))
  {
    var w' := Commit(w, r.pc.writes);
    CommitEffect(w, r.kind, r.actor, r.pc.seen);
    forall b | b in w'.batches
      ensures (b in w.batches && w'.batches[b].status == w.batches[b].status) || Justified(w', b, w'.batches[b].status)
    {
      PatchFrame(w, r, b);
      if w'.batches[b].status != w.batches[b].status {
        PatchJustified(w, r);
      }
    }
    StatusesStay(w, w');
  }

  lemma RequestCommitKeepsAccounts(w: World, r: Q.Request, born: seq<Birth>)
    requires RelabelsAccounted(w, born) && SessionShape(r) && r.pc.Committing? && RelabelGuarded(w, r)
    ensures RelabelsAccounted(Commit(w, r.pc.writes), born)
  {
    var w' := Commit(w, r.pc.writes);
    CommitAppendsAudit(w, r.kind, r.actor, r.pc.seen);
    CommitEffect(w, r.kind, r.actor, r.pc.seen);
    if r.kind.RelabelPrediction? {
      var pid := r.kind.pid;
      assert w'.audit[|w.audit|] == AuditEntry(r.actor, Relabel, PredictionTarget(pid));
      assert Audited(w', Relabel, PredictionTarget(pid));
      forall p | 0 <= p < |w'.predictions| ensures Accounted(w', born[p], p) {
        assert Accounted(w, born[p], p);
        if p != pid && w.predictions[p] != born[p].row {
          AuditedStays(w, w', Relabel, PredictionTarget(p));
        }
      }
    } else {
      AccountsStay(w, w', born);
    }
  }

  lemma RequestCommitCountsToggles(w: World, r: Q.Request)
    requires SessionShape(r) && r.pc.Committing?
    ensures RoleToggles(Commit(w, r.pc.writes).audit) == RoleToggles(w.audit) + (if r.kind.SetUserRole? then 1 else 0)
  {
    CommitAppendsAudit(w, r.kind, r.actor, r.pc.seen);
    ChangeFrame(w, r.kind, r.pc.seen);
    var rows := Q.AuditRows(r.kind, r.actor, r.pc.seen);
    if rows != [] {
      TogglesAppended(w.audit, rows[0].entry);
    }
  }

  lemma TogglesAppended(audit: seq<AuditEntry>, entry: AuditEntry)
    ensures RoleToggles(audit + [entry]) == RoleToggles(audit) + (if entry.action == RoleToggle then 1 else 0)
  {
  }

  lemma RequestKeeps(s: State, q: nat, o: Outcome, s': State)
    requires Inv(s) && SessionsShaped(s) && q < |s.requests| && RequestSummary(s, q, o, s')
    ensures Inv(s')
  {
    var r := s.requests[q];
    assert SessionShape(r) && SeenJustified(s.w, r) && RelabelGuarded(s.w, r);
    if r.pc.Committing? && o.Landed() {
      RequestCommitKeepsStatuses(s.w, r);
      RequestCommitKeepsAccounts(s.w, r, s.h.born);
      RequestCommitCountsToggles(s.w, r);
    }
    RequestsStaySound(s.w, s'.w, s.requests);
    RequestAdvances(s, q, o, s');
  }

  lemma RequestAdvances(s: State, q: nat, o: Outcome, s': State)
    requires StatusesJustified(s.w) && RequestsSound(s'.w, s.requests) && q < |s.requests|
    requires RequestSummary(s, q, o, s')
    ensures RequestsSound(s'.w, s'.requests)
  {
  }

  lemma OthersKeep(s: State, s': State)
    requires Inv(s) && Grows(s.w, s'.w) && s'.w.predictions == s.w.predictions && s'.w.audit == s.w.audit
    requires s'.h.born == s.h.born && s'.h.roleCommits == s.h.roleCommits && s'.requests == s.requests
    requires forall b | b in s'.w.batches ::
      (b in s.w.batches && s'.w.batches[b] == s.w.batches[b]) || s'.w.batches[b].status == Pending
    ensures Inv(s')
  {
  }

  lemma StepKeeps(c: Classifier, s: State, a: Action, s': State)
    requires Inv(s) && B.Inv(c, s) && SessionsShaped(s) && Enabled(s, a) && Summary(c, s, a, s')
    ensures Inv(s')
  {
    match a
    case RunCall(r, o) => RunKeeps(c, s, r, o, s');
    case RequestCall(q, o) => RequestKeeps(s, q, o, s');
    case Submit(kind, actor) =>
    case IngestCall(o, newId) => OthersKeep(s, s');
    case DemoCall(i, o, newId) => OthersKeep(s, s');
    case _ => OthersKeep(s, s');
  }
}

/**
 * What the check of the old batch status misses. The service records a status change when the new status differs from
 * the one it read; between that read and the commit a worker may have completed the batch.
 */
module StaleReads {
  import opened Prelude
  import opened Keys
  import opened World
  import opened System
  import opened Refinement
  import opened Safety
  import opened Requests
  import opened Handling
  import I = Ingest
  import N = Inference
  import R = NameReuse
  import A = Accountability

  /** The commit of a status request writes the status it was asked for, and a row for it unless it read that status. */
  lemma StatusCommit(w: World, batch: Uuid, status: BatchStatus, actor: Uuid, seen: BatchStatus)
    requires batch in w.batches
    ensures var kind := PatchBatch(batch, Set(status));
      var w' := Commit(w, Change(kind, StatusRead(seen)) + AuditRows(kind, actor, StatusRead(seen)));
      && w'.batches == w.batches[batch := w.batches[batch].(status := status)] && w'.predictions == w.predictions
      && w'.audit ==
           w.audit + (if status == seen then [] else [AuditEntry(actor, StatusChange(status), BatchTarget(batch))])
  {
    CommitAppendsAudit(w, PatchBatch(batch, Set(status)), actor, StatusRead(seen));
  }

  /** A committed status change goes unrecorded if and only if the status asked for was read, and is no longer there. */
  lemma UnrecordedExactly(w: World, batch: Uuid, status: BatchStatus, actor: Uuid, seen: BatchStatus)
    requires batch in w.batches
    ensures var kind := PatchBatch(batch, Set(status));
      var w' := Commit(w, Change(kind, StatusRead(seen)) + AuditRows(kind, actor, StatusRead(seen)));
      && batch in w'.batches
      && ((w'.batches[batch].status != w.batches[batch].status && w'.audit == w.audit) <==>
            (status == seen && seen != w.batches[batch].status))
  {
    StatusCommit(w, batch, status, actor, seen);
  }

  // ---------------------------------------------------------------- in any run

  /** After `k` actions of the run the batch had this status. */
  predicate HadStatus(c: Classifier, users: map<Uuid, Role>, acts: seq<Action>, k: nat, batch: Uuid,
                      status: BatchStatus)
    requires k <= |acts|
  {
    && Legal(c, Init(users), acts[..k])
    && var t := Exec(c, Init(users), acts[..k]); batch in t.w.batches && t.w.batches[batch].status == status
  }

  predicate Remembers(r: Request, batch: Uuid, status: BatchStatus) {
    && r.kind.PatchBatch? && r.kind.batch == batch
    && (r.pc.Writing? || r.pc.Auditing? || r.pc.Committing?) && r.pc.seen == StatusRead(status)
  }

  lemma StepKeepsBatches(c: Classifier, s: State, a: Action, s': State)
    requires SessionsShaped(s) && Enabled(s, a) && s' == Apply(c, s, a)
    ensures s.w.batches.Keys <= s'.w.batches.Keys
  {
    Summarised(c, s, a, s');
  }

  /** What a request remembers after a step it read in this step or remembered before. */
  lemma StepRemembers(c: Classifier, s: State, a: Action, s': State, q: nat, batch: Uuid, status: BatchStatus)
    requires SessionsShaped(s) && Enabled(s, a) && s' == Apply(c, s, a)
    requires q < |s'.requests| && Remembers(s'.requests[q], batch, status)
    ensures q < |s.requests|
    ensures Remembers(s.requests[q], batch, status)
      || (batch in s.w.batches && s.w.batches[batch].status == status)
  {
    Summarised(c, s, a, s');
    if a.RequestCall? && a.q == q {
      RequestMoved(s.w, s.requests[q], a.o);
    }
  }

  /** The status a request remembers was the batch's status at some point of the run, and the row is still there. */
  lemma {:induction false} RememberedWasRead(c: Classifier, users: map<Uuid, Role>, acts: seq<Action>, s: State, q: nat,
                                             batch: Uuid, status: BatchStatus)
    requires Legal(c, Init(users), acts) && s == Exec(c, Init(users), acts)
    requires q < |s.requests| && Remembers(s.requests[q], batch, status)
    ensures batch in s.w.batches
    ensures exists k :: 0 <= k <= |acts| && HadStatus(c, users, acts, k, batch, status)
    decreases |acts|
  {
    assert acts != [];
    var n := |acts| - 1;
    LastAction(c, Init(users), acts);
    var before := Exec(c, Init(users), acts[..n]);
    RunShaped(c, users, acts[..n], before);
    StepKeepsBatches(c, before, acts[n], s);
    StepRemembers(c, before, acts[n], s, q, batch, status);
    if Remembers(before.requests[q], batch, status) {
      RememberedWasRead(c, users, acts[..n], before, q, batch, status);
      var k :| 0 <= k <= n && HadStatus(c, users, acts[..n], k, batch, status);
      assert acts[..n][..k] == acts[..k];
      assert HadStatus(c, users, acts, k, batch, status);
    } else {
      assert HadStatus(c, users, acts, n, batch, status);
    }
  }

  lemma RunShaped(c: Classifier, users: map<Uuid, Role>, acts: seq<Action>, s: State)
    requires Legal(c, Init(users), acts) && s == Exec(c, Init(users), acts)
    ensures SessionsShaped(s)
  {
    assert Reachable(c, s);
    ReachableInv(c, s);
  }

  /** The commit of a status request, as a step of the system. */
  predicate CommitsStatus(s: State, a: Action, batch: Uuid, status: BatchStatus)
    requires Enabled(s, a)
  {
    && a.RequestCall? && a.o.Landed() && s.requests[a.q].kind == PatchBatch(batch, Set(status))
    && s.requests[a.q].pc.Committing?
  }

  /**
   * In any run, the commit of a status request changes the batch without an audit row if and only if the batch had the
   * status asked for when the request read it, and has another one now. It did have what the request remembers, at some
   * point of the run.
   */
  lemma UnrecordedStep(c: Classifier, users: map<Uuid, Role>, acts: seq<Action>, s: State, a: Action, s': State,
                       batch: Uuid, status: BatchStatus) returns (seen: BatchStatus)
    requires Legal(c, Init(users), acts) && s == Exec(c, Init(users), acts) && Enabled(s, a) && s' == Apply(c, s, a)
    requires CommitsStatus(s, a, batch, status)
    ensures s.requests[a.q].pc.seen == StatusRead(seen) && batch in s.w.batches && batch in s'.w.batches
    ensures exists k :: 0 <= k <= |acts| && HadStatus(c, users, acts, k, batch, seen)
    ensures (s'.w.batches[batch].status != s.w.batches[batch].status && s'.w.audit == s.w.audit) <==>
      (status == seen && seen != s.w.batches[batch].status)
  {
    var r := s.requests[a.q];
    seen := RememberedStatus(c, users, acts, s, a.q);
    RememberedWasRead(c, users, acts, s, a.q, batch, seen);
    RunShaped(c, users, acts, s);
    assert SessionShape(r);
    UnrecordedExactly(s.w, batch, status, r.actor, seen);
  }

  lemma RememberedStatus(c: Classifier, users: map<Uuid, Role>, acts: seq<Action>, s: State, q: nat)
    returns (seen: BatchStatus)
    requires Legal(c, Init(users), acts) && s == Exec(c, Init(users), acts) && q < |s.requests|
    requires s.requests[q].kind.PatchBatch? && s.requests[q].pc.Committing?
    ensures s.requests[q].pc.seen == StatusRead(seen)
  {
    assert Reachable(c, s);
    ReachableInv(c, s);
    assert A.SeenJustified(s.w, s.requests[q]);
    seen := s.requests[q].pc.seen.status;
  }

  // ---------------------------------------------------------------- a run in which it happens

  /** A request to set the batch pending has been checked and has read that it is. */
  lemma PendingRead(c: Classifier, s: State, admin: Uuid, batch: Uuid) returns (s': State)
    requires admin in s.w.users && s.w.users[admin] == Admin && s.requests == []
    requires batch in s.w.batches && s.w.batches[batch].status == Pending
    ensures Leads(c, s, s') && s'.w == s.w
    ensures s'.requests == [Request(PatchBatch(batch, Set(Pending)), admin, Writing(StatusRead(Pending)))]
  {
    var kind := PatchBatch(batch, Set(Pending));
    var s1 := Apply(c, s, Submit(kind, admin));
    var s2 := Apply(c, s1, RequestCall(0, Ok));
    GuardMeaning(s.w, kind, admin);
    s' := Apply(c, s2, RequestCall(0, Ok));
    Stay(c, s');
    Step(c, s2, RequestCall(0, Ok), s', s');
    Step(c, s1, RequestCall(0, Ok), s2, s');
    Step(c, s, Submit(kind, admin), s1, s');
  }

  /**
   * So it does happen: a batch with its prediction, completed by the worker, is pending again, and the audit trail is
   * empty.
   */
  lemma DoneUndoneSilently(c: Classifier, admin: Uuid, name: string, data: Bytes, batch: Uuid) returns (s: State)
    requires name != "" && SlashFree(name) && I.Acceptable(name, data) && WellFormed(c(data))
    ensures Reachable(c, s) && s.w.audit == []
    ensures s.w.predictions == [PredictionOf(I.JobFor(batch, name), c(data))]
    ensures batch in s.w.batches && s.w.batches[batch].status == Pending
  {
    var start := Init(map[admin := Admin]);
    assert Legal(c, start, []) && start == Exec(c, start, []);
    var queued := R.Ingested(c, start, name, data, batch);
    assert queued.w.jobs[0] == I.JobFor(batch, name);
    var read := PendingRead(c, queued, admin, batch);
    var done := TakenJobLeads(c, read, N.NO_RUN_FAULTS);
    N.RunOutcome(c, read.w.(head := 1), read.w.jobs[0], N.NO_RUN_FAULTS);
    RunSparesAudit(c, read.w.(head := 1), read.w.jobs[0], N.Downloading, N.NO_RUN_FAULTS);
    s := HandleLeads(c, done, 0, ALL_WELL);
    HandleFromWriting(done.w, PatchBatch(batch, Set(Pending)), admin, StatusRead(Pending), ALL_WELL);
    StatusCommit(done.w, batch, Pending, admin, Pending);
    Compose(c, read, done, s);
    Compose(c, queued, read, s);
    Compose(c, start, queued, s);
    ReachOn(c, start, s);
  }

  lemma {:induction false} RunSparesAudit(c: Classifier, w: World, job: Job, pc: N.RunPc, f: N.RunFaults)
    ensures N.Run(c, w, job, pc, f).0.audit == w.audit
    decreases N.RunRank(pc)
  {
    if N.RunRank(pc) > 0 {
      var (w', pc') := N.RunStep(c, w, job, pc, N.RunFaultAt(f, pc));
      RunCallEffect(c, w, job, pc, N.RunFaultAt(f, pc));
      RunSparesAudit(c, w', job, pc', f);
    }
  }
}

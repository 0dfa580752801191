/**
 * The whole pipeline as interleaved processes over the shared stores: one scanner, one ingest worker,
 * any number of demo calls, inference runs and API requests. Every action is one external call.
 */
module System {
  import opened Prelude
  import opened Keys
  import opened World
  import I = Ingest
  import D = Demo
  import N = Inference
  import Q = Requests

  /** A file the scanner delivered. */
  datatype Drop = Drop(name: string, data: Bytes)

  /** One execution of a job; `made` is the prediction it committed, if it got that far. */
  datatype RunRecord = RunRecord(job: nat, pc: N.RunPc, made: Option<nat>)

  /** A prediction as it was inserted: by which run and from which bytes. */
  datatype Birth = Birth(row: Prediction, run: nat, data: Bytes)

  /** The last overlay uploaded for a batch: by which run and from which bytes. */
  datatype Drawing = Drawing(run: nat, data: Bytes)

  /** What happened so far; no step of the pipeline reads it. */
  datatype History = History(
    drops: seq<Drop>,
    current: map<string, nat>,       // name -> its latest drop
    stored: map<string, nat>,        // name -> the drop whose bytes the ingest worker uploaded last
    origin: map<Uuid, nat>,          // batch -> the drop the ingest worker recorded it for
    orphans: set<Uuid>,              // batches whose producer failed before their job was queued
    born: seq<Birth>,                // per prediction
    drawn: map<Uuid, Drawing>,       // per batch
    roleCommits: nat)

  datatype State = State(
    w: World,
    ingest: I.IngestPc,
    demos: seq<D.DemoPc>,
    runs: seq<RunRecord>,
    requests: seq<Q.Request>,
    h: History)

  datatype Action =
    | Arrive(name: string, data: Bytes)
    | Begin(raw: string)
    | IngestCall(o: Outcome, newId: Uuid)
    | StartDemo(tag: string, data: Bytes, user: Uuid)
    | DemoCall(i: nat, o: Outcome, newId: Uuid)
    | Dequeue
    | Rerun(job: nat)                // a job that was taken before is put back by hand
    | RunCall(r: nat, o: Outcome)
    | Submit(kind: Q.Kind, actor: Uuid)
    | RequestCall(q: nat, o: Outcome)

  function Init(users: map<Uuid, Role>): State {
    State(World(map[], map[], map[], [], [], users, [], 0), I.Idle, [], [], [],
          History([], map[], map[], map[], {}, [], map[], 0))
  }

  /**
   * The scanner writes a file in one step and not over one that is still there; ids given by the
   * database are new. Everything else may happen at any time.
   */
  predicate Enabled(s: State, a: Action) {
    match a
    case Arrive(name, data) => name != "" && SlashFree(name) && UploadPath(name) !in s.w.files
    case Begin(raw) => s.ingest.Idle?
    case IngestCall(o, newId) => !s.ingest.Idle? && (s.ingest.Saving? ==> newId !in s.w.batches)
    case StartDemo(tag, data, user) => IsDemoTag(tag)
    case DemoCall(i, o, newId) => i < |s.demos| && (s.demos[i].Saving? ==> newId !in s.w.batches)
    case Dequeue => s.w.head < |s.w.jobs|
    case Rerun(job) => job < s.w.head && job < |s.w.jobs|
    case RunCall(r, o) => r < |s.runs| && s.runs[r].job < |s.w.jobs|
    case Submit(kind, actor) => true
    case RequestCall(q, o) => q < |s.requests|
  }

  function ArriveHistory(h: History, name: string, data: Bytes): History {
    h.(drops := h.drops + [Drop(name, data)], current := h.current[name := |h.drops|])
  }

  function IngestHistory(h: History, pc: I.IngestPc, o: Outcome, newId: Uuid): History {
    match pc
    case Uploading(name, _) =>
      if o.Landed() && name in h.current then h.(stored := h.stored[name := h.current[name]]) else h
    case Saving(name) =>
      var h1 := if o.Landed() && name in h.current then h.(origin := h.origin[newId := h.current[name]]) else h;
      if o == Late then h1.(orphans := h1.orphans + {newId}) else h1
    case Enqueuing(_, batch) => if o == Lost then h.(orphans := h.orphans + {batch}) else h
    case _ => h
  }

  function DemoHistory(h: History, pc: D.DemoPc, o: Outcome, newId: Uuid): History {
    match pc
    case Saving(_, _) => if o == Late then h.(orphans := h.orphans + {newId}) else h
    case Enqueuing(_, batch) => if o == Lost then h.(orphans := h.orphans + {batch}) else h
    case _ => h
  }

  function RunHistory(c: Classifier, s: State, r: nat, w': World, o: Outcome): History
    requires Enabled(s, RunCall(r, o))
  {
    var run := s.runs[r];
    match run.pc
    case Drawing(data) =>
      if o.Landed() then s.h.(drawn := s.h.drawn[s.w.jobs[run.job].batch := Drawing(r, data)]) else s.h
    case Creating(data) =>
      if |w'.predictions| > |s.w.predictions|
      then s.h.(born := s.h.born + [Birth(w'.predictions[|w'.predictions| - 1], r, data)])
      else s.h
    case _ => s.h
  }

  function RunAfter(s: State, r: nat, w': World, pc': N.RunPc): RunRecord
    requires r < |s.runs|
  {
    var run := s.runs[r].(pc := pc');
    if |w'.predictions| > |s.w.predictions| then run.(made := Some(|s.w.predictions|)) else run
  }

  function RequestHistory(s: State, q: nat, o: Outcome): History
    requires q < |s.requests|
  {
    var r := s.requests[q];
    if r.pc.Committing? && r.kind.SetUserRole? && o.Landed() then s.h.(roleCommits := s.h.roleCommits + 1) else s.h
  }

  function Apply(c: Classifier, s: State, a: Action): State
    requires Enabled(s, a)
  {
    match a
    case Arrive(name, data) =>
      s.(w := s.w.(files := s.w.files[UploadPath(name) := data]), h := ArriveHistory(s.h, name, data))
    case Begin(raw) => s.(ingest := I.Start(raw))
    case IngestCall(o, newId) =>
      var (w', pc') := I.IngestStep(s.w, s.ingest, o, newId);
      s.(w := w', ingest := pc', h := IngestHistory(s.h, s.ingest, o, newId))
    case StartDemo(tag, data, user) => s.(demos := s.demos + [D.Uploading(DemoName(tag), data, user)])
    case DemoCall(i, o, newId) =>
      var (w', pc') := D.DemoStep(s.w, s.demos[i], o, newId);
      s.(w := w', demos := s.demos[i := pc'], h := DemoHistory(s.h, s.demos[i], o, newId))
    case Dequeue =>
      s.(w := s.w.(head := s.w.head + 1), runs := s.runs + [RunRecord(s.w.head, N.Downloading, None)])
    case Rerun(job) => s.(runs := s.runs + [RunRecord(job, N.Downloading, None)])
    case RunCall(r, o) =>
      var (w', pc') := N.RunStep(c, s.w, s.w.jobs[s.runs[r].job], s.runs[r].pc, o);
      s.(w := w', runs := s.runs[r := RunAfter(s, r, w', pc')], h := RunHistory(c, s, r, w', o))
    case Submit(kind, actor) => s.(requests := s.requests + [Q.Request(kind, actor, Q.Guarding)])
    case RequestCall(q, o) =>
      var (w', r') := Q.RequestStep(s.w, s.requests[q], o);
      s.(w := w', requests := s.requests[q := r'], h := RequestHistory(s, q, o))
  }

  /** A run: actions that are each enabled when their turn comes. */
  predicate Legal(c: Classifier, s: State, acts: seq<Action>)
    decreases |acts|
  {
    acts == [] || (Enabled(s, acts[0]) && Legal(c, Apply(c, s, acts[0]), acts[1..]))
  }

  function Exec(c: Classifier, s: State, acts: seq<Action>): State
    requires Legal(c, s, acts)
    decreases |acts|
  {
    if acts == [] then s else Exec(c, Apply(c, s, acts[0]), acts[1..])
  }

  /** The last action of a run, taken apart from those before it. */
  lemma {:induction false} LastAction(c: Classifier, s: State, acts: seq<Action>)
    requires Legal(c, s, acts) && acts != []
    ensures var n := |acts| - 1;
      && Legal(c, s, acts[..n]) && Enabled(Exec(c, s, acts[..n]), acts[n])
      && Exec(c, s, acts) == Apply(c, Exec(c, s, acts[..n]), acts[n])
    decreases |acts|
  {
    var n := |acts| - 1;
    if n == 0 {
      assert acts[1..] == [] && acts[..0] == [];
    } else {
      var s' := Apply(c, s, acts[0]);
      LastAction(c, s', acts[1..]);
      assert acts[1..][..n - 1] == acts[..n][1..] && acts[..n][0] == acts[0];
    }
  }

  // ---------------------------------------------------------------- what each kind of call can change

  /** Ids, paths and owners of batches and the worker's part of predictions are never rewritten; rows are only added. */
  predicate Grows(w: World, w': World) {
    && (forall b | b in w.batches :: b in w'.batches && w'.batches[b].path == w.batches[b].path)
    && |w.predictions| <= |w'.predictions|
    && (forall p | 0 <= p < |w.predictions| ::
          && w'.predictions[p].batch == w.predictions[p].batch
          && w'.predictions[p].confidence == w.predictions[p].confidence
          && w'.predictions[p].filename == w.predictions[p].filename)
    && w.audit <= w'.audit
    && w.jobs <= w'.jobs
    && w.bucket.Keys <= w'.bucket.Keys
    && w.head <= w'.head
  }

  predicate SameObject(w: World, w': World, key: string) {
    (key in w.bucket <==> key in w'.bucket) && (key in w.bucket ==> w'.bucket[key] == w.bucket[key])
  }

  lemma IngestCallEffect(w: World, pc: I.IngestPc, o: Outcome, newId: Uuid)
    requires pc.Saving? ==> newId !in w.batches
    ensures var w' := I.IngestStep(w, pc, o, newId).0;
      && Grows(w, w')
      && w'.predictions == w.predictions && w'.audit == w.audit && w'.users == w.users && w'.head == w.head
      && (pc.Uploading? || w'.bucket == w.bucket)
      && (pc.Uploading? ==> forall key | key != pc.name :: SameObject(w, w', key))
      && (!pc.Enqueuing? ==> w'.jobs == w.jobs)
      && (!pc.Saving? ==> w'.batches == w.batches)
      && (pc.Saving? && o.Landed() ==> w'.batches == w.batches[newId := I.NewBatch(UploadPath(pc.name), None)])
      && (pc.Saving? && !o.Landed() ==> w'.batches == w.batches)
  {
    if pc.Saving? {
      CommitOne(w, AddBatch(newId, I.NewBatch(UploadPath(pc.name), None)));
    }
  }

  lemma DemoCallEffect(w: World, pc: D.DemoPc, o: Outcome, newId: Uuid)
    requires pc.Saving? ==> newId !in w.batches
    ensures var w' := D.DemoStep(w, pc, o, newId).0;
      && Grows(w, w')
      && w'.files == w.files && w'.predictions == w.predictions && w'.audit == w.audit
      && w'.users == w.users && w'.head == w.head
      && (!pc.Uploading? ==> w'.bucket == w.bucket)
      && (pc.Uploading? ==> forall key | key != pc.name :: SameObject(w, w', key))
      && (!pc.Enqueuing? ==> w'.jobs == w.jobs)
      && (!pc.Saving? || !o.Landed() ==> w'.batches == w.batches)
      && (pc.Saving? && o.Landed() ==>
            w'.batches == w.batches[newId := Batch(DemoPath(pc.name), Some(pc.user), Pending)])
  {
    if pc.Saving? {
      CommitOne(w, AddBatch(newId, Batch(DemoPath(pc.name), Some(pc.user), Pending)));
    }
  }

  /** What a call of an inference run may change. */
  predicate RunEffect(c: Classifier, w: World, job: Job, pc: N.RunPc, o: Outcome, w': World) {
    && Grows(w, w')
    && w'.files == w.files && w'.audit == w.audit && w'.users == w.users && w'.jobs == w.jobs && w'.head == w.head
    && w'.batches.Keys == w.batches.Keys
    && (!pc.Drawing? || !o.Landed() ==> w'.bucket == w.bucket)
    && (pc.Drawing? && o.Landed() ==>
          w'.bucket == w.bucket[OverlayKey(job.batch, job.filename) := c(pc.data).overlay])
    && (!pc.Creating? ==> w'.predictions == w.predictions)
    && (pc.Creating? ==>
          || w'.predictions == w.predictions
          || (&& WellFormed(c(pc.data)) && job.batch in w.batches && o.Landed()
              && w'.predictions == w.predictions + [PredictionOf(job, c(pc.data))]))
    && (!pc.Completing? || !o.Landed() ==> w'.batches == w.batches)
    && (pc.Completing? && o.Landed() ==>
          w'.batches == if job.batch in w.batches
            then w.batches[job.batch := w.batches[job.batch].(status := Done)] else w.batches)
  }

  lemma RunCallEffect(c: Classifier, w: World, job: Job, pc: N.RunPc, o: Outcome)
    ensures RunEffect(c, w, job, pc, o, N.RunStep(c, w, job, pc, o).0)
  {
    var w' := N.RunStep(c, w, job, pc, o).0;
    match pc
    case Drawing(data) => DrawEffect(c, w, job, data, o, w');
    case Creating(data) => CreateEffect(c, w, job, data, o, w');
    case Completing(pid) => CompleteEffect(c, w, job, pid, o, w');
    case _ => assert w' == w;
  }

  lemma DrawEffect(c: Classifier, w: World, job: Job, data: Bytes, o: Outcome, w': World)
    requires w' == N.RunStep(c, w, job, N.Drawing(data), o).0
    ensures RunEffect(c, w, job, N.Drawing(data), o, w')
  {
  }

  lemma CreateEffect(c: Classifier, w: World, job: Job, data: Bytes, o: Outcome, w': World)
    requires w' == N.RunStep(c, w, job, N.Creating(data), o).0
    ensures RunEffect(c, w, job, N.Creating(data), o, w')
  {
    if WellFormed(c(data)) {
      CommitOne(w, AddPrediction(PredictionOf(job, c(data))));
    }
  }

  lemma CompleteEffect(c: Classifier, w: World, job: Job, pid: nat, o: Outcome, w': World)
    requires w' == N.RunStep(c, w, job, N.Completing(pid), o).0
    ensures RunEffect(c, w, job, N.Completing(pid), o, w')
  {
    CommitOne(w, UpdateStatus(job.batch, Done));
    StatusFrame(w, job.batch, Done);
  }

  /** The writes a request of this kind has flushed before its audit rows. */
  function Change(kind: Q.Kind, seen: Q.Seen): seq<Write> {
    match kind
    case RelabelPrediction(pid, u) => if Empty(u) then [] else [UpdatePrediction(pid, u)]
    case PatchBatch(batch, status) => if status.Set? then [UpdateStatus(batch, status.value)] else []
    case SetUserRole(user, role) => if Q.RoleKept(kind, seen) then [] else [UpdateRole(user, role)]
  }

  /** What a session holds at each point of a request. */
  predicate SessionShape(r: Q.Request) {
    match r.pc
    case Auditing(seen, writes) => writes == Change(r.kind, seen)
    case Committing(seen, writes) => writes == Change(r.kind, seen) + Q.AuditRows(r.kind, r.actor, seen)
    case _ => true
  }

  function Changed(w: World, kind: Q.Kind, seen: Q.Seen): World {
    if Change(kind, seen) == [] then w else ApplyWrite(w, Change(kind, seen)[0])
  }

  lemma CommitAppendsAudit(w: World, kind: Q.Kind, actor: Uuid, seen: Q.Seen)
    ensures var w' := Commit(w, Change(kind, seen) + Q.AuditRows(kind, actor, seen));
      var w1 := Changed(w, kind, seen);
      && (Q.AuditRows(kind, actor, seen) == [] ==> w' == w1)
      && (Q.AuditRows(kind, actor, seen) != [] ==>
            w' == w1.(audit := w.audit + [Q.AuditRows(kind, actor, seen)[0].entry]))
  {
    CommitConcat(w, Change(kind, seen), Q.AuditRows(kind, actor, seen));
    ChangeCommitted(w, kind, seen);
    ChangeSparesAudit(w, kind, seen);
    AuditCommitted(Changed(w, kind, seen), kind, actor, seen);
  }

  lemma ChangeCommitted(w: World, kind: Q.Kind, seen: Q.Seen)
    ensures Commit(w, Change(kind, seen)) == Changed(w, kind, seen)
  {
    var xs := Change(kind, seen);
    if xs != [] {
      assert xs == [xs[0]];
      CommitOne(w, xs[0]);
    }
  }

  lemma ChangeSparesAudit(w: World, kind: Q.Kind, seen: Q.Seen)
    ensures Changed(w, kind, seen).audit == w.audit
  {
  }

  lemma AuditCommitted(w: World, kind: Q.Kind, actor: Uuid, seen: Q.Seen)
    ensures var rows := Q.AuditRows(kind, actor, seen);
      Commit(w, rows) == if rows == [] then w else w.(audit := w.audit + [rows[0].entry])
  {
    var rows := Q.AuditRows(kind, actor, seen);
    if rows != [] {
      assert rows == [rows[0]];
      CommitOne(w, rows[0]);
    }
  }

  /** What any of the three commits may change. */
  predicate CommitFrame(w: World, w': World, kind: Q.Kind) {
    && Grows(w, w')
    && w'.files == w.files && w'.bucket == w.bucket && w'.jobs == w.jobs && w'.head == w.head
    && |w'.predictions| == |w.predictions| && w'.batches.Keys == w.batches.Keys
    && (!kind.RelabelPrediction? ==> w'.predictions == w.predictions)
    && (!kind.PatchBatch? ==> w'.batches == w.batches)
    && (!kind.SetUserRole? ==> w'.users == w.users)
  }

  lemma CommitEffect(w: World, kind: Q.Kind, actor: Uuid, seen: Q.Seen)
    ensures CommitFrame(w, Commit(w, Change(kind, seen) + Q.AuditRows(kind, actor, seen)), kind)
  {
    CommitAppendsAudit(w, kind, actor, seen);
    ChangeFrame(w, kind, seen);
    var w1, w' := Changed(w, kind, seen), Commit(w, Change(kind, seen) + Q.AuditRows(kind, actor, seen));
    assert w' == w1.(audit := w'.audit) && w1.audit == w.audit <= w'.audit;
  }

  lemma ChangeFrame(w: World, kind: Q.Kind, seen: Q.Seen)
    ensures CommitFrame(w, Changed(w, kind, seen), kind) && Changed(w, kind, seen).audit == w.audit
  {
    match kind
    case RelabelPrediction(pid, u) => UpdateFrame(w, pid, u);
    case PatchBatch(batch, status) =>
      if status.Set? {
        StatusFrame(w, batch, status.value);
      }
    case SetUserRole(user, role) =>
  }

  lemma UpdateFrame(w: World, pid: nat, u: PredictionUpdate)
    ensures var w' := ApplyWrite(w, UpdatePrediction(pid, u));
      w' == w.(predictions := w'.predictions) && |w'.predictions| == |w.predictions| && Grows(w, w')
  {
  }

  lemma StatusFrame(w: World, batch: Uuid, status: BatchStatus)
    ensures var w' := ApplyWrite(w, UpdateStatus(batch, status));
      w' == w.(batches := w'.batches) && w'.batches.Keys == w.batches.Keys && Grows(w, w')
  {
  }

  lemma RequestCallEffect(w: World, r: Q.Request, o: Outcome)
    requires SessionShape(r)
    ensures var (w', r') := Q.RequestStep(w, r, o);
      && CommitFrame(w, w', r.kind)
      && SessionShape(r') && r'.kind == r.kind && r'.actor == r.actor
      && (!r.pc.Committing? || o == Lost ==> w' == w)
  {
    if r.pc.Committing? {
      CommitEffect(w, r.kind, r.actor, r.pc.seen);
    }
  }

  // ---------------------------------------------------------------- what each action changes of the state

  ghost predicate IngestSummary(s: State, o: Outcome, newId: Uuid, s': State) {
    && s' == s.(w := s'.w, ingest := s'.ingest, h := s'.h)
    && s'.h == s.h.(stored := s'.h.stored, origin := s'.h.origin, orphans := s'.h.orphans)
    && Grows(s.w, s'.w)
    && s'.w.predictions == s.w.predictions && s'.w.audit == s.w.audit && s'.w.users == s.w.users
    && s'.w.head == s.w.head
    && (!s.ingest.Uploading? ==> s'.w.bucket == s.w.bucket)
    && (s.ingest.Uploading? ==> forall key | key != s.ingest.name :: SameObject(s.w, s'.w, key))
    && (s'.ingest.Saving? ==> s'.ingest.name in s'.w.bucket)
    && (s.ingest.Enqueuing? ==>
          && s'.w.batches == s.w.batches
          && s'.w.jobs == (if o.Landed() then s.w.jobs + [I.JobFor(s.ingest.batch, s.ingest.name)] else s.w.jobs)
          && s'.h.orphans == (if o.Landed() then s.h.orphans else s.h.orphans + {s.ingest.batch})
          && !s'.ingest.Enqueuing?)
    && (s.ingest.Saving? ==>
          && s'.w.jobs == s.w.jobs
          && s'.w.batches ==
               (if o.Landed() then s.w.batches[newId := I.NewBatch(UploadPath(s.ingest.name), None)] else s.w.batches)
          && s'.h.orphans == (if o == Late then s.h.orphans + {newId} else s.h.orphans)
          && (s'.ingest == if o == Ok then I.Enqueuing(s.ingest.name, newId) else I.Idle))
    && (!s.ingest.Enqueuing? && !s.ingest.Saving? ==>
          && s'.w.jobs == s.w.jobs && s'.w.batches == s.w.batches && s'.h.orphans == s.h.orphans
          && !s'.ingest.Enqueuing?)
  }

  lemma IngestSummarised(c: Classifier, s: State, o: Outcome, newId: Uuid, s': State)
    requires Enabled(s, IngestCall(o, newId)) && s' == Apply(c, s, IngestCall(o, newId))
    ensures IngestSummary(s, o, newId, s')
  {
    IngestCallEffect(s.w, s.ingest, o, newId);
  }

  ghost predicate DemoSummary(s: State, i: nat, o: Outcome, newId: Uuid, s': State)
    requires i < |s.demos|
  {
    var pc := s.demos[i];
    && |s'.demos| == |s.demos| && s' == s.(w := s'.w, demos := s.demos[i := s'.demos[i]], h := s'.h)
    && s'.h == s.h.(orphans := s'.h.orphans)
    && Grows(s.w, s'.w)
    && s'.w.files == s.w.files && s'.w.predictions == s.w.predictions && s'.w.audit == s.w.audit
    && s'.w.users == s.w.users && s'.w.head == s.w.head
    && (!pc.Uploading? ==> s'.w.bucket == s.w.bucket)
    && (pc.Uploading? ==>
          && (forall key | key != pc.name :: SameObject(s.w, s'.w, key))
          && (s'.demos[i] == if o == Ok then D.Saving(pc.name, pc.user) else D.Closed)
          && (o == Ok ==> pc.name in s'.w.bucket))
    && (pc.Saving? ==>
          && s'.w.jobs == s.w.jobs
          && s'.w.batches ==
               (if o.Landed() then s.w.batches[newId := Batch(DemoPath(pc.name), Some(pc.user), Pending)]
                else s.w.batches)
          && s'.h.orphans == (if o == Late then s.h.orphans + {newId} else s.h.orphans)
          && (s'.demos[i] == if o == Ok then D.Enqueuing(pc.name, newId) else D.Closed))
    && (pc.Enqueuing? ==>
          && s'.w.batches == s.w.batches
          && s'.w.jobs == (if o.Landed() then s.w.jobs + [Job(pc.batch, pc.name, pc.name)] else s.w.jobs)
          && s'.h.orphans == (if o.Landed() then s.h.orphans else s.h.orphans + {pc.batch})
          && s'.demos[i] == D.Closed)
    && (pc.Closed? ==> s'.demos[i] == D.Closed)
    && (!pc.Enqueuing? && !pc.Saving? ==>
          s'.w.jobs == s.w.jobs && s'.w.batches == s.w.batches && s'.h.orphans == s.h.orphans)
  }

  lemma DemoSummarised(c: Classifier, s: State, i: nat, o: Outcome, newId: Uuid, s': State)
    requires Enabled(s, DemoCall(i, o, newId)) && s' == Apply(c, s, DemoCall(i, o, newId))
    ensures DemoSummary(s, i, o, newId, s')
  {
    DemoCallEffect(s.w, s.demos[i], o, newId);
  }

  ghost predicate RunSummary(c: Classifier, s: State, r: nat, o: Outcome, s': State)
    requires Enabled(s, RunCall(r, o))
  {
    var run := s.runs[r];
    var job := s.w.jobs[run.job];
    && |s'.runs| == |s.runs| && s' == s.(w := s'.w, runs := s.runs[r := s'.runs[r]], h := s'.h)
    && s'.h == s.h.(born := s'.h.born, drawn := s'.h.drawn)
    && s'.runs[r].job == run.job
    && Grows(s.w, s'.w)
    && s'.w.files == s.w.files && s'.w.audit == s.w.audit && s'.w.users == s.w.users
    && s'.w.jobs == s.w.jobs && s'.w.head == s.w.head && s'.w.batches.Keys == s.w.batches.Keys
    && (run.pc.Downloading? ==>
          s'.runs[r].pc ==
            if o == Ok && job.blobKey in s.w.bucket && c(s.w.bucket[job.blobKey]).decodes
            then N.Drawing(s.w.bucket[job.blobKey]) else N.Aborted)
    && (run.pc.Drawing? ==> s'.runs[r].pc == if o == Ok then N.Creating(run.pc.data) else N.Aborted)
    && (if run.pc.Drawing? && o.Landed() then
          && s'.w.bucket == s.w.bucket[OverlayKey(job.batch, job.filename) := c(run.pc.data).overlay]
          && s'.h.drawn == s.h.drawn[job.batch := Drawing(r, run.pc.data)]
        else
          && s'.w.bucket == s.w.bucket && s'.h.drawn == s.h.drawn)
    && (if run.pc.Creating? && WellFormed(c(run.pc.data)) && job.batch in s.w.batches && o.Landed() then
          && s'.w.predictions == s.w.predictions + [PredictionOf(job, c(run.pc.data))]
          && s'.h.born == s.h.born + [Birth(PredictionOf(job, c(run.pc.data)), r, run.pc.data)]
          && s'.runs[r].made == Some(|s.w.predictions|)
          && s'.runs[r].pc == (if o == Ok then N.Completing(|s.w.predictions|) else N.Aborted)
        else
          && s'.w.predictions == s.w.predictions && s'.h.born == s.h.born && s'.runs[r].made == run.made
          && (run.pc.Creating? ==> s'.runs[r].pc == N.Aborted))
    && (if run.pc.Completing? && o.Landed() && job.batch in s.w.batches then
          s'.w.batches == s.w.batches[job.batch := s.w.batches[job.batch].(status := Done)]
        else s'.w.batches == s.w.batches)
    && (run.pc.Completing? ==> s'.runs[r].pc == if o == Ok then N.Evicting(run.pc.pid) else N.Aborted)
    && (run.pc.Evicting? ==> s'.runs[r].pc == if o == Ok then N.Finished(run.pc.pid) else N.Aborted)
    && (run.pc.Finished? || run.pc.Aborted? ==> s'.runs[r].pc == run.pc)
  }

  lemma RunSummarised(c: Classifier, s: State, r: nat, o: Outcome, s': State)
    requires Enabled(s, RunCall(r, o)) && s' == Apply(c, s, RunCall(r, o))
    ensures RunSummary(c, s, r, o, s')
  {
    var run := s.runs[r];
    var job := s.w.jobs[run.job];
    RunCallEffect(c, s.w, job, run.pc, o);
    if run.pc.Creating? && WellFormed(c(run.pc.data)) {
      CommitOne(s.w, AddPrediction(PredictionOf(job, c(run.pc.data))));
    }
  }

  ghost predicate RequestSummary(s: State, q: nat, o: Outcome, s': State)
    requires q < |s.requests|
  {
    var r := s.requests[q];
    && |s'.requests| == |s.requests| && s' == s.(w := s'.w, requests := s.requests[q := s'.requests[q]], h := s'.h)
    && s'.h == s.h.(roleCommits := s'.h.roleCommits)
    && s'.requests[q] == r.(pc := s'.requests[q].pc) && SessionShape(s'.requests[q])
    && CommitFrame(s.w, s'.w, r.kind)
    && s'.w == (if r.pc.Committing? && o.Landed() then Commit(s.w, r.pc.writes) else s.w)
    && s'.h.roleCommits ==
         (if r.pc.Committing? && o.Landed() && r.kind.SetUserRole? then s.h.roleCommits + 1 else s.h.roleCommits)
    && RequestMoves(s.w, r.kind, r.pc, o, s'.requests[q].pc)
  }

  /** From which call a request gets to which, and what it remembers on the way. */
  predicate RequestMoves(w: World, kind: Q.Kind, pc: Q.Pc, o: Outcome, pc': Q.Pc) {
    && (pc.Reading? ==> pc' == if o == Ok then Q.ReadStep(w, kind) else Q.Closed(500))
    && (pc'.Writing? ==> pc.Reading?)
    && (pc'.Auditing? ==> pc.Writing? && pc'.seen == pc.seen)
    && (pc'.Committing? ==> pc.Auditing? && pc'.seen == pc.seen)
    && (if pc.Closed? then pc' == pc else Q.CallsLeft(pc') < Q.CallsLeft(pc))
  }

  lemma RequestMoved(w: World, r: Q.Request, o: Outcome)
    ensures RequestMoves(w, r.kind, r.pc, o, Q.RequestStep(w, r, o).1.pc)
    ensures Q.RequestStep(w, r, o).0 == if r.pc.Committing? && o.Landed() then Commit(w, r.pc.writes) else w
  {
  }

  lemma RequestSummarised(c: Classifier, s: State, q: nat, o: Outcome, s': State)
    requires SessionsShaped(s) && Enabled(s, RequestCall(q, o)) && s' == Apply(c, s, RequestCall(q, o))
    ensures RequestSummary(s, q, o, s')
  {
    RequestCallEffect(s.w, s.requests[q], o);
    RequestMoved(s.w, s.requests[q], o);
  }

  predicate SessionsShaped(s: State) {
    forall q | 0 <= q < |s.requests| :: SessionShape(s.requests[q])
  }

  /** Everything the invariants need to know about a step. */
  ghost predicate Summary(c: Classifier, s: State, a: Action, s': State)
    requires Enabled(s, a)
  {
    match a
    case Arrive(name, data) =>
      s' == s.(w := s.w.(files := s.w.files[UploadPath(name) := data]), h := ArriveHistory(s.h, name, data))
    case Begin(raw) => s' == s.(ingest := I.Start(raw))
    case IngestCall(o, newId) => IngestSummary(s, o, newId, s')
    case StartDemo(tag, data, user) => s' == s.(demos := s.demos + [D.Uploading(DemoName(tag), data, user)])
    case DemoCall(i, o, newId) => DemoSummary(s, i, o, newId, s')
    case Dequeue =>
      s' == s.(w := s.w.(head := s.w.head + 1), runs := s.runs + [RunRecord(s.w.head, N.Downloading, None)])
    case Rerun(job) => s' == s.(runs := s.runs + [RunRecord(job, N.Downloading, None)])
    case RunCall(r, o) => RunSummary(c, s, r, o, s')
    case Submit(kind, actor) => s' == s.(requests := s.requests + [Q.Request(kind, actor, Q.Guarding)])
    case RequestCall(q, o) => RequestSummary(s, q, o, s')
  }

  lemma Summarised(c: Classifier, s: State, a: Action, s': State)
    requires SessionsShaped(s) && Enabled(s, a) && s' == Apply(c, s, a)
    ensures Summary(c, s, a, s')
  {
    match a
    case IngestCall(o, newId) => IngestSummarised(c, s, o, newId, s');
    case DemoCall(i, o, newId) => DemoSummarised(c, s, i, o, newId, s');
    case RunCall(r, o) => RunSummarised(c, s, r, o, s');
    case RequestCall(q, o) => RequestSummarised(c, s, q, o, s');
    case _ =>
  }

  lemma SessionsStayShaped(c: Classifier, s: State, a: Action, s': State)
    requires SessionsShaped(s) && Enabled(s, a) && Summary(c, s, a, s')
    ensures SessionsShaped(s')
  {
  }
}

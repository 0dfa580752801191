/**
 * Which bytes a prediction is about. In every reachable state, whatever fails and whatever is run again, the prediction
 * of a drop's batch is the classifier's verdict on that drop or on a later one of the same name.
 */
module Provenance {
  import opened Prelude
  import opened Keys
  import opened World
  import opened System
  import I = Ingest
  import D = Demo
  import N = Inference
  import Docs = Documents
  import L = Lineage
  import B = Births

  /** The bytes of drop `d`, or of a later one of its name. */
  predicate FromDrop(drops: seq<Drop>, d: nat, data: Bytes) {
    d < |drops| && exists e :: d <= e < |drops| && drops[e].name == drops[d].name && drops[e].data == data
  }

  /** A job for a drop's batch carries that drop's name. */
  predicate JobNamed(job: Job, h: History) {
    job.batch in h.origin ==>
      && h.origin[job.batch] < |h.drops|
      && job.blobKey == h.drops[h.origin[job.batch]].name && job.filename == job.blobKey
  }

  predicate JobsNamed(jobs: seq<Job>, h: History) {
    forall j | 0 <= j < |jobs| :: JobNamed(jobs[j], h)
  }

  /** What a demo call is about to queue was not made for a drop. */
  predicate DemosApart(demos: seq<D.DemoPc>, origin: map<Uuid, nat>) {
    forall i | 0 <= i < |demos| && demos[i].Enqueuing? :: demos[i].batch !in origin
  }

  /** The bytes are those of the batch's own drop, or of a later one of its name. */
  predicate OwnBytes(h: History, batch: Uuid, data: Bytes) {
    batch in h.origin ==> FromDrop(h.drops, h.origin[batch], data)
  }

  predicate RunOwn(jobs: seq<Job>, run: RunRecord, h: History) {
    (run.pc.Drawing? || run.pc.Creating?) && run.job < |jobs| ==> OwnBytes(h, jobs[run.job].batch, run.pc.data)
  }

  /** Runs under way work on such bytes. */
  predicate RunsOwn(jobs: seq<Job>, runs: seq<RunRecord>, h: History) {
    forall r | 0 <= r < |runs| :: RunOwn(jobs, runs[r], h)
  }

  /** Rows were made from such bytes. */
  predicate BirthsOwn(born: seq<Birth>, h: History) {
    forall p | 0 <= p < |born| :: OwnBytes(h, born[p].row.batch, born[p].data)
  }

  predicate Inv(s: State) {
    && JobsNamed(s.w.jobs, s.h) && DemosApart(s.demos, s.h.origin)
    && RunsOwn(s.w.jobs, s.runs, s.h) && BirthsOwn(s.h.born, s.h)
  }

  // ---------------------------------------------------------------- preservation

  /** Drops are only added, and what is recorded of them stays. */
  predicate DropsGrow(h: History, h': History) {
    h.drops <= h'.drops && h'.origin == h.origin
  }

  lemma OwnStays(h: History, h': History, batch: Uuid, data: Bytes)
    requires OwnBytes(h, batch, data) && DropsGrow(h, h')
    ensures OwnBytes(h', batch, data)
  {
    if batch in h.origin {
      var d := h.origin[batch];
      var e :| d <= e < |h.drops| && h.drops[e].name == h.drops[d].name && h.drops[e].data == data;
      assert h'.drops[e] == h.drops[e] && h'.drops[d] == h.drops[d];
    }
  }

  lemma RunsStayOwn(jobs: seq<Job>, jobs': seq<Job>, runs: seq<RunRecord>, h: History, h': History)
    requires RunsOwn(jobs, runs, h) && DropsGrow(h, h') && jobs <= jobs'
    requires forall r | 0 <= r < |runs| :: runs[r].job < |jobs|
    ensures RunsOwn(jobs', runs, h')
  {
    forall r | 0 <= r < |runs| ensures RunOwn(jobs', runs[r], h') {
      assert RunOwn(jobs, runs[r], h);
      if runs[r].pc.Drawing? || runs[r].pc.Creating? {
        OwnStays(h, h', jobs[runs[r].job].batch, runs[r].pc.data);
      }
    }
  }

  lemma BirthsStayOwn(born: seq<Birth>, h: History, h': History)
    requires BirthsOwn(born, h) && DropsGrow(h, h')
    ensures BirthsOwn(born, h')
  {
    forall p | 0 <= p < |born| ensures OwnBytes(h', born[p].row.batch, born[p].data) {
      OwnStays(h, h', born[p].row.batch, born[p].data);
    }
  }

  lemma JobsStayNamed(jobs: seq<Job>, h: History, h': History)
    requires JobsNamed(jobs, h) && DropsGrow(h, h')
    ensures JobsNamed(jobs, h')
  {
    forall j | 0 <= j < |jobs| ensures JobNamed(jobs[j], h') {
      assert JobNamed(jobs[j], h);
    }
  }

  /** Steps that queue no job, move no run and record no batch. */
  lemma OthersKeep(s: State, s': State)
    requires Inv(s) && B.RunsTaken(s.w, s.runs) && DropsGrow(s.h, s'.h) && s'.h.born == s.h.born
    requires s'.w.jobs == s.w.jobs && s'.runs == s.runs && DemosApart(s'.demos, s'.h.origin)
    ensures Inv(s')
  {
    JobsStayNamed(s.w.jobs, s.h, s'.h);
    RunsStayOwn(s.w.jobs, s'.w.jobs, s.runs, s.h, s'.h);
    BirthsStayOwn(s.h.born, s.h, s'.h);
  }

  /** A job is queued, by either producer. */
  lemma QueuedKeeps(s: State, job: Job, s': State)
    requires Inv(s) && B.RunsTaken(s.w, s.runs) && JobNamed(job, s.h)
    requires s'.w.jobs == s.w.jobs + [job] && s'.runs == s.runs && DropsGrow(s.h, s'.h) && s'.h.drops == s.h.drops
    requires s'.h.born == s.h.born && DemosApart(s'.demos, s'.h.origin)
    ensures Inv(s')
  {
    RunsStayOwn(s.w.jobs, s'.w.jobs, s.runs, s.h, s'.h);
    BirthsStayOwn(s.h.born, s.h, s'.h);
    forall j | 0 <= j < |s'.w.jobs| ensures JobNamed(s'.w.jobs[j], s'.h) {
      assert j < |s.w.jobs| ==> JobNamed(s.w.jobs[j], s.h);
    }
  }

  /** A new batch is recorded for a drop; nothing that exists speaks of it yet. */
  lemma RecordedKeeps(c: Classifier, s: State, newId: Uuid, d: nat, s': State)
    requires Inv(s) && L.Inv(s) && B.Inv(c, s) && newId !in s.w.batches
    requires s'.w.jobs == s.w.jobs && s'.runs == s.runs && s'.demos == s.demos
    requires s'.h.drops == s.h.drops && s'.h.born == s.h.born && s'.h.origin == s.h.origin[newId := d]
    ensures Inv(s')
  {
    forall j | 0 <= j < |s.w.jobs| ensures JobNamed(s'.w.jobs[j], s'.h) && s.w.jobs[j].batch != newId {
      assert JobNamed(s.w.jobs[j], s.h);
    }
    forall i | 0 <= i < |s.demos| && s.demos[i].Enqueuing? ensures s.demos[i].batch !in s'.h.origin {
      assert s.demos[i].batch in L.DemosCarry(s.demos);
    }
    forall r | 0 <= r < |s.runs| ensures RunOwn(s'.w.jobs, s'.runs[r], s'.h) {
      assert RunOwn(s.w.jobs, s.runs[r], s.h);
    }
    forall p | 0 <= p < |s.h.born| ensures OwnBytes(s'.h, s'.h.born[p].row.batch, s'.h.born[p].data) {
      assert B.BornOf(c, s.w.jobs, s.runs, s.h.born[p], s.w.predictions[p], p);
      assert OwnBytes(s.h, s.h.born[p].row.batch, s.h.born[p].data);
    }
  }

  lemma IngestKeeps(c: Classifier, s: State, o: Outcome, newId: Uuid, s': State)
    requires Inv(s) && Docs.Inv(s) && L.Inv(s) && B.Inv(c, s) && Enabled(s, IngestCall(o, newId))
    requires s' == Apply(c, s, IngestCall(o, newId)) && IngestSummary(s, o, newId, s')
    ensures Inv(s')
  {
    if s.ingest.Saving? && o.Landed() {
      RecordedKeeps(c, s, newId, s.h.current[s.ingest.name], s');
    } else if s.ingest.Enqueuing? && o.Landed() {
      QueuedKeeps(s, I.JobFor(s.ingest.batch, s.ingest.name), s');
    } else {
      OthersKeep(s, s');
    }
  }

  lemma DemoKeeps(c: Classifier, s: State, i: nat, o: Outcome, newId: Uuid, s': State)
    requires Inv(s) && Docs.Inv(s) && B.RunsTaken(s.w, s.runs)
    requires Enabled(s, DemoCall(i, o, newId)) && s' == Apply(c, s, DemoCall(i, o, newId))
    ensures Inv(s')
  {
    DemoFacts(c, s, i, o, newId, s');
    DemoMoves(s, s.demos[i], s.demos[i].Enqueuing? && o.Landed(), s');
  }

  lemma DemoFacts(c: Classifier, s: State, i: nat, o: Outcome, newId: Uuid, s': State)
    requires DemosApart(s.demos, s.h.origin) && Docs.OriginsKnown(s.h.drops, s.h.stored, s.h.origin, s.w.batches)
    requires Enabled(s, DemoCall(i, o, newId)) && s' == Apply(c, s, DemoCall(i, o, newId))
    ensures s'.runs == s.runs && s'.h == s.h.(orphans := s'.h.orphans) && DemosApart(s'.demos, s'.h.origin)
    ensures var pc := s.demos[i];
      s'.w.jobs == if pc.Enqueuing? && o.Landed() then s.w.jobs + [Job(pc.batch, pc.name, pc.name)] else s.w.jobs
  {
    DemoCallEffect(s.w, s.demos[i], o, newId);
    if s.demos[i].Saving? {
      RecordedExist(s.h, s.w.batches, newId);
    }
    DemoStaysApart(s.demos, s.h.origin, i, s'.demos[i]);
  }

  /** A demo call gets on, queuing its job or not. */
  lemma DemoMoves(s: State, pc: D.DemoPc, queued: bool, s': State)
    requires Inv(s) && B.RunsTaken(s.w, s.runs) && s'.runs == s.runs
    requires s'.h == s.h.(orphans := s'.h.orphans) && DemosApart(s'.demos, s'.h.origin)
    requires queued ==> pc.Enqueuing? && pc.batch !in s.h.origin
    requires s'.w.jobs == if queued then s.w.jobs + [Job(pc.batch, pc.name, pc.name)] else s.w.jobs
    ensures Inv(s')
  {
    if queued {
      QueuedKeeps(s, Job(pc.batch, pc.name, pc.name), s');
    } else {
      OthersKeep(s, s');
    }
  }

  lemma RecordedExist(h: History, batches: map<Uuid, Batch>, newId: Uuid)
    requires Docs.OriginsKnown(h.drops, h.stored, h.origin, batches) && newId !in batches
    ensures newId !in h.origin
  {
  }

  lemma DemoStaysApart(demos: seq<D.DemoPc>, origin: map<Uuid, nat>, i: nat, pc: D.DemoPc)
    requires DemosApart(demos, origin) && i < |demos| && (pc.Enqueuing? ==> pc.batch !in origin)
    ensures DemosApart(demos[i := pc], origin)
  {
  }

  /** The object a drop's job names holds the bytes of that drop or of a later one. */
  lemma ObjectOwn(s: State, job: Job)
    requires Docs.Inv(s) && JobNamed(job, s.h) && job.blobKey in s.w.bucket
    ensures OwnBytes(s.h, job.batch, s.w.bucket[job.blobKey])
  {
    if job.batch in s.h.origin {
      var d := s.h.origin[job.batch];
      assert Docs.OriginKnown(s.h.drops, s.h.stored, s.w.batches, job.batch, d);
      var e := s.h.stored[job.blobKey];
      assert d <= e < |s.h.drops| && s.h.drops[e].name == s.h.drops[d].name;
    }
  }

  lemma RunKeeps(c: Classifier, s: State, r: nat, o: Outcome, s': State)
    requires Inv(s) && Docs.Inv(s) && B.RunsTaken(s.w, s.runs)
    requires Enabled(s, RunCall(r, o)) && RunSummary(c, s, r, o, s')
    ensures Inv(s')
  {
    var job := s.w.jobs[s.runs[r].job];
    assert JobNamed(job, s.h) && RunOwn(s.w.jobs, s.runs[r], s.h);
    if job.blobKey in s.w.bucket {
      ObjectOwn(s, job);
    }
    JobsStayNamed(s.w.jobs, s.h, s'.h);
    RunsStayOwn(s.w.jobs, s'.w.jobs, s.runs, s.h, s'.h);
    BirthsStayOwn(s.h.born, s.h, s'.h);
    MovedOwn(c, s, r, o, s');
  }

  lemma MovedOwn(c: Classifier, s: State, r: nat, o: Outcome, s': State)
    requires Enabled(s, RunCall(r, o)) && RunSummary(c, s, r, o, s')
    requires RunsOwn(s.w.jobs, s.runs, s'.h) && BirthsOwn(s.h.born, s'.h) && s'.h.origin == s.h.origin
    requires RunOwn(s.w.jobs, s.runs[r], s'.h)
    requires var job := s.w.jobs[s.runs[r].job];
      job.blobKey in s.w.bucket ==> OwnBytes(s'.h, job.batch, s.w.bucket[job.blobKey])
    ensures RunsOwn(s'.w.jobs, s'.runs, s'.h) && BirthsOwn(s'.h.born, s'.h)
  {
    forall k | 0 <= k < |s'.runs| ensures RunOwn(s'.w.jobs, s'.runs[k], s'.h) {
      assert RunOwn(s.w.jobs, s.runs[k], s'.h);
    }
  }

  lemma StepKeeps(c: Classifier, s: State, a: Action, s': State)
    requires Inv(s) && Docs.Inv(s) && L.Inv(s) && B.Inv(c, s)
    requires Enabled(s, a) && s' == Apply(c, s, a) && Summary(c, s, a, s')
    ensures Inv(s')
  {
    match a
    case IngestCall(o, newId) => IngestKeeps(c, s, o, newId, s');
    case DemoCall(i, o, newId) => DemoKeeps(c, s, i, o, newId, s');
    case RunCall(r, o) => RunKeeps(c, s, r, o, s');
    case RequestCall(q, o) => RequestKeeps(s, q, o, s');
    case _ => StartKeeps(c, s, a, s');
  }

  /** Something new begins: a drop, an attempt, a demo call, a run or a request. */
  lemma StartKeeps(c: Classifier, s: State, a: Action, s': State)
    requires Inv(s) && B.RunsTaken(s.w, s.runs) && Enabled(s, a) && Summary(c, s, a, s')
    requires !a.IngestCall? && !a.DemoCall? && !a.RunCall? && !a.RequestCall?
    ensures Inv(s')
  {
    match a
    case Dequeue => StartedKeeps(s, s.w.head, s');
    case Rerun(job) => StartedKeeps(s, job, s');
    case _ => OthersKeep(s, s');
  }

  lemma RequestKeeps(s: State, q: nat, o: Outcome, s': State)
    requires Inv(s) && B.RunsTaken(s.w, s.runs) && Enabled(s, RequestCall(q, o)) && RequestSummary(s, q, o, s')
    ensures Inv(s')
  {
    OthersKeep(s, s');
  }

  lemma StartedKeeps(s: State, job: nat, s': State)
    requires Inv(s) && s'.runs == s.runs + [RunRecord(job, N.Downloading, None)]
    requires s'.w.jobs == s.w.jobs && s'.demos == s.demos && s'.h == s.h
    ensures Inv(s')
  {
    forall r | 0 <= r < |s'.runs| ensures RunOwn(s'.w.jobs, s'.runs[r], s'.h) {
      assert r < |s.runs| ==> RunOwn(s.w.jobs, s.runs[r], s.h);
    }
  }
}

/**
 * Batches and jobs: a job always names a committed batch and a stored object, no two jobs name the same
 * batch, and every batch is accounted for by its job, by the producer still carrying it, or as an orphan.
 */
module Lineage {
  import opened Prelude
  import opened Keys
  import opened World
  import opened System
  import I = Ingest
  import D = Demo

  function JobBatches(jobs: seq<Job>): set<Uuid> {
    set j | 0 <= j < |jobs| :: jobs[j].batch
  }

  /** The batch the ingest worker has committed and not yet queued a job for. */
  function IngestCarries(pc: I.IngestPc): set<Uuid> {
    if pc.Enqueuing? then {pc.batch} else {}
  }

  /** The same for the demo calls. */
  function DemosCarry(demos: seq<D.DemoPc>): set<Uuid> {
    set i | 0 <= i < |demos| && demos[i].Enqueuing? :: demos[i].batch
  }

  predicate JobsNameStored(w: World) {
    forall j | 0 <= j < |w.jobs| :: w.jobs[j].batch in w.batches && w.jobs[j].blobKey in w.bucket
  }

  predicate JobsDistinct(jobs: seq<Job>) {
    forall j, k | 0 <= j < k < |jobs| :: jobs[j].batch != jobs[k].batch
  }

  predicate DemosDistinct(demos: seq<D.DemoPc>) {
    forall i, k | 0 <= i < k < |demos| && demos[i].Enqueuing? && demos[k].Enqueuing? :: demos[i].batch != demos[k].batch
  }

  /** Each batch is in exactly one of four hands. */
  predicate Partition(batches: set<Uuid>, queued: set<Uuid>, ingest: set<Uuid>, demos: set<Uuid>, orphans: set<Uuid>) {
    batches == queued + ingest + demos + orphans && queued !! ingest !! demos !! orphans
  }

  predicate IngestStored(pc: I.IngestPc, bucket: map<string, Bytes>) {
    pc.Saving? || pc.Enqueuing? ==> pc.name in bucket
  }

  predicate DemosStored(demos: seq<D.DemoPc>, bucket: map<string, Bytes>) {
    forall i | 0 <= i < |demos| && (demos[i].Saving? || demos[i].Enqueuing?) :: demos[i].name in bucket
  }

  predicate Inv(s: State) {
    && JobsNameStored(s.w) && JobsDistinct(s.w.jobs) && DemosDistinct(s.demos)
    && Partition(s.w.batches.Keys, JobBatches(s.w.jobs), IngestCarries(s.ingest), DemosCarry(s.demos), s.h.orphans)
    && IngestStored(s.ingest, s.w.bucket) && DemosStored(s.demos, s.w.bucket)
  }

  lemma JobAppended(jobs: seq<Job>, job: Job)
    ensures JobBatches(jobs + [job]) == JobBatches(jobs) + {job.batch}
  {
    var more := jobs + [job];
    assert forall j | 0 <= j < |jobs| :: more[j] == jobs[j];
    forall b | b in JobBatches(jobs) + {job.batch} ensures b in JobBatches(more) {
      if b == job.batch {
        assert more[|jobs|].batch == b;
      } else {
        var j :| 0 <= j < |jobs| && jobs[j].batch == b;
        assert more[j].batch == b;
      }
    }
  }

  lemma DemoMoved(demos: seq<D.DemoPc>, i: nat, pc: D.DemoPc)
    requires i < |demos| && DemosDistinct(demos) && (pc.Enqueuing? ==> pc.batch !in DemosCarry(demos))
    ensures var before := if demos[i].Enqueuing? then {demos[i].batch} else {};
      var after := if pc.Enqueuing? then {pc.batch} else {};
      DemosCarry(demos[i := pc]) == DemosCarry(demos) - before + after
    ensures DemosDistinct(demos[i := pc])
  {
    var demos' := demos[i := pc];
    assert forall k | 0 <= k < |demos| && k != i :: demos'[k] == demos[k];
    assert demos'[i] == pc;
    assert demos[i].Enqueuing? ==> demos[i].batch in DemosCarry(demos);
  }

  /** A call that touches neither batches nor jobs nor the producers. */
  lemma Untouched(s: State, s': State)
    requires Inv(s) && s'.w.jobs == s.w.jobs && s'.w.batches.Keys == s.w.batches.Keys
    requires s.w.bucket.Keys <= s'.w.bucket.Keys
    requires s'.h.orphans == s.h.orphans && IngestCarries(s'.ingest) == IngestCarries(s.ingest)
    requires IngestStored(s'.ingest, s'.w.bucket)
    requires DemosCarry(s'.demos) == DemosCarry(s.demos) && DemosDistinct(s'.demos)
    requires DemosStored(s'.demos, s'.w.bucket)
    ensures Inv(s')
  {
  }

  lemma JobAdded(w: World, w': World, job: Job)
    requires JobsNameStored(w) && JobsDistinct(w.jobs) && w'.batches == w.batches && w'.bucket == w.bucket
    requires w'.jobs == w.jobs + [job] && job.batch in w.batches && job.blobKey in w.bucket
    requires job.batch !in JobBatches(w.jobs)
    ensures JobsNameStored(w') && JobsDistinct(w'.jobs) && JobBatches(w'.jobs) == JobBatches(w.jobs) + {job.batch}
  {
    JobAppended(w.jobs, job);
    forall j | 0 <= j < |w.jobs| ensures w.jobs[j].batch != job.batch {
      assert w.jobs[j].batch in JobBatches(w.jobs);
    }
  }

  lemma IngestKeeps(s: State, o: Outcome, newId: Uuid, s': State)
    requires Inv(s) && (s.ingest.Saving? ==> newId !in s.w.batches) && IngestSummary(s, o, newId, s')
    ensures Inv(s')
  {
    if s.ingest.Enqueuing? {
      assert s.ingest.batch in IngestCarries(s.ingest);
      if o.Landed() {
        JobAdded(s.w, s'.w, I.JobFor(s.ingest.batch, s.ingest.name));
      }
    } else if s.ingest.Saving? {
      assert IngestCarries(s'.ingest) == if o == Ok then {newId} else {};
      assert s'.w.batches.Keys == if o.Landed() then s.w.batches.Keys + {newId} else s.w.batches.Keys;
    } else {
      Untouched(s, s');
    }
  }

  lemma DemoKeeps(s: State, i: nat, o: Outcome, newId: Uuid, s': State)
    requires Inv(s) && i < |s.demos|
    requires (s.demos[i].Saving? ==> newId !in s.w.batches) && DemoSummary(s, i, o, newId, s')
    ensures Inv(s')
  {
    var pc := s.demos[i];
    DemoMoved(s.demos, i, s'.demos[i]);
    if pc.Enqueuing? {
      assert pc.batch in DemosCarry(s.demos);
      if o.Landed() {
        JobAdded(s.w, s'.w, Job(pc.batch, pc.name, pc.name));
      }
    } else if pc.Saving? {
      assert s'.w.batches.Keys == if o.Landed() then s.w.batches.Keys + {newId} else s.w.batches.Keys;
    }
  }

  lemma DemoStarted(demos: seq<D.DemoPc>, name: string, data: Bytes, user: Uuid)
    ensures DemosCarry(demos + [D.Uploading(name, data, user)]) == DemosCarry(demos)
  {
    var demos' := demos + [D.Uploading(name, data, user)];
    assert forall k | 0 <= k < |demos| :: demos'[k] == demos[k];
  }

  /** Whatever happens, no batch is named twice, none is lost track of, and no job dangles. */
  lemma StepKeeps(c: Classifier, s: State, a: Action, s': State)
    requires Inv(s) && Enabled(s, a) && Summary(c, s, a, s')
    ensures Inv(s')
  {
    match a
    case IngestCall(o, newId) => IngestKeeps(s, o, newId, s');
    case DemoCall(i, o, newId) => DemoKeeps(s, i, o, newId, s');
    case StartDemo(tag, data, user) =>
      DemoStarted(s.demos, DemoName(tag), data, user);
      Untouched(s, s');
    case _ => Untouched(s, s');
  }

  // ---------------------------------------------------------------- counting

  lemma {:induction false} JobCount(jobs: seq<Job>)
    requires JobsDistinct(jobs)
    ensures |JobBatches(jobs)| == |jobs|
  {
    if jobs != [] {
      var front, last := jobs[..|jobs| - 1], jobs[|jobs| - 1];
      assert jobs == front + [last];
      JobCount(front);
      JobAppended(front, last);
      assert last.batch !in JobBatches(front);
    }
  }

  /** Batches created = jobs enqueued + batches still carried + batches whose producer failed in between. */
  lemma BatchConservation(s: State)
    requires Inv(s)
    ensures |s.w.batches| == |s.w.jobs| + |IngestCarries(s.ingest)| + |DemosCarry(s.demos)| + |s.h.orphans|
  {
    JobCount(s.w.jobs);
    var q, i, d, o := JobBatches(s.w.jobs), IngestCarries(s.ingest), DemosCarry(s.demos), s.h.orphans;
    assert |q + i| == |q| + |i| && |q + i + d| == |q + i| + |d| && |q + i + d + o| == |q + i + d| + |o|;
    assert |s.w.batches.Keys| == |s.w.batches|;
  }
}

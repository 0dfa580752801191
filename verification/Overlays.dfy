/**
 * The overlay endpoint: a prediction whose overlay path was not patched is answered with the overlay
 * drawn for its own batch, in every reachable state.
 */
module Overlays {
  import opened Prelude
  import opened Keys
  import opened World
  import opened System
  import Q = Requests
  import B = Births
  import L = Lineage

  /** The object under a drawn batch's overlay key is the overlay drawn last for it. */
  predicate OverlayStored(c: Classifier, bucket: map<string, Bytes>, drawn: map<Uuid, Drawing>, job: Job) {
    job.batch in drawn ==>
      && OverlayKey(job.batch, job.filename) in bucket
      && bucket[OverlayKey(job.batch, job.filename)] == c(drawn[job.batch].data).overlay
  }

  predicate OverlaysStored(c: Classifier, w: World, drawn: map<Uuid, Drawing>) {
    forall j | 0 <= j < |w.jobs| :: OverlayStored(c, w.bucket, drawn, w.jobs[j])
  }

  /** Overlays are drawn by runs of the batch's own job. */
  predicate DrawnByRuns(jobs: seq<Job>, runs: seq<RunRecord>, drawn: map<Uuid, Drawing>) {
    forall b | b in drawn ::
      drawn[b].run < |runs| && runs[drawn[b].run].job < |jobs| && jobs[runs[drawn[b].run].job].batch == b
  }

  /** A run that got past the upload left a drawing; if it is still the last one, it shows this run's bytes. */
  predicate RunDrew(jobs: seq<Job>, born: seq<Birth>, drawn: map<Uuid, Drawing>, run: RunRecord, r: nat) {
    run.job < |jobs| && (run.pc.Creating? || run.made.Some?) ==>
      var b := jobs[run.job].batch;
      && b in drawn
      && (drawn[b].run == r ==>
            && (run.pc.Creating? ==> drawn[b].data == run.pc.data)
            && (run.made.Some? && run.made.value < |born| ==> drawn[b].data == born[run.made.value].data))
  }

  predicate RunsDrew(jobs: seq<Job>, runs: seq<RunRecord>, born: seq<Birth>, drawn: map<Uuid, Drawing>) {
    forall r | 0 <= r < |runs| :: RunDrew(jobs, born, drawn, runs[r], r)
  }

  predicate Inv(c: Classifier, s: State) {
    && OverlaysStored(c, s.w, s.h.drawn)
    && DrawnByRuns(s.w.jobs, s.runs, s.h.drawn)
    && RunsDrew(s.w.jobs, s.runs, s.h.born, s.h.drawn)
  }

  // ---------------------------------------------------------------- preservation

  lemma NewJobUndrawn(jobs: seq<Job>, jobs': seq<Job>, runs: seq<RunRecord>, drawn: map<Uuid, Drawing>, j: nat)
    requires jobs <= jobs' && |jobs| <= j < |jobs'| && L.JobsDistinct(jobs') && DrawnByRuns(jobs, runs, drawn)
    ensures jobs'[j].batch !in drawn
  {
  }

  /** Calls that draw nothing and insert nothing; new jobs are for batches nothing was drawn for. */
  lemma OthersKeep(c: Classifier, s: State, s': State)
    requires Inv(c, s) && s.w.jobs <= s'.w.jobs && s.runs <= s'.runs && s'.h.born == s.h.born && s'.h.drawn == s.h.drawn
    requires B.RunsTaken(s.w, s.runs) && L.JobsDistinct(s'.w.jobs)
    requires forall r | |s.runs| <= r < |s'.runs| :: s'.runs[r].pc.Downloading? && s'.runs[r].made == None
    requires forall b: Uuid, f: string :: SameObject(s.w, s'.w, OverlayKey(b, f))
    ensures Inv(c, s')
  {
    forall j | 0 <= j < |s'.w.jobs| ensures OverlayStored(c, s'.w.bucket, s'.h.drawn, s'.w.jobs[j]) {
      var job := s'.w.jobs[j];
      if j < |s.w.jobs| {
        assert OverlayStored(c, s.w.bucket, s.h.drawn, s.w.jobs[j]);
        assert SameObject(s.w, s'.w, OverlayKey(job.batch, job.filename));
      } else {
        NewJobUndrawn(s.w.jobs, s'.w.jobs, s.runs, s.h.drawn, j);
      }
    }
    forall r | 0 <= r < |s'.runs| ensures RunDrew(s'.w.jobs, s'.h.born, s'.h.drawn, s'.runs[r], r) {
      if r < |s.runs| {
        assert RunDrew(s.w.jobs, s.h.born, s.h.drawn, s.runs[r], r);
      }
    }
  }

  /** An upload under a bare name leaves every overlay alone. */
  lemma BareUploadSparesOverlays(w: World, w': World, name: string)
    requires SlashFree(name) && forall key | key != name :: SameObject(w, w', key)
    ensures forall b: Uuid, f: string :: SameObject(w, w', OverlayKey(b, f))
  {
  }

  /** Drawing for one batch leaves the overlays of the others alone. */
  lemma DrawKeepsStored(c: Classifier, s: State, r: nat, o: Outcome, s': State)
    requires Inv(c, s) && L.JobsDistinct(s.w.jobs) && Enabled(s, RunCall(r, o)) && RunSummary(c, s, r, o, s')
    requires s.runs[r].pc.Drawing? && o.Landed()
    ensures OverlaysStored(c, s'.w, s'.h.drawn)
  {
    var mine := s.w.jobs[s.runs[r].job];
    forall j | 0 <= j < |s'.w.jobs| ensures OverlayStored(c, s'.w.bucket, s'.h.drawn, s'.w.jobs[j]) {
      var job := s.w.jobs[j];
      assert OverlayStored(c, s.w.bucket, s.h.drawn, job);
      OverlayKeyInjective(mine.batch, mine.filename, job.batch, job.filename);
      assert job.batch == mine.batch ==> j == s.runs[r].job;
    }
  }

  /** Another run's drawing or prediction does not touch what this run drew. */
  lemma OtherRunDrew(jobs: seq<Job>, born: seq<Birth>, drawn: map<Uuid, Drawing>, born': seq<Birth>,
                     drawn': map<Uuid, Drawing>, run: RunRecord, k: nat, r: nat)
    requires RunDrew(jobs, born, drawn, run, k) && B.RunConsistent(run, born, k) && k != r && born <= born'
    requires forall b | b in drawn :: b in drawn' && (drawn'[b] == drawn[b] || drawn'[b].run == r)
    ensures RunDrew(jobs, born', drawn', run, k)
  {
  }

  /** If the run that moved drew what it should, all did. */
  lemma AllDrew(jobs: seq<Job>, runs: seq<RunRecord>, born: seq<Birth>, drawn: map<Uuid, Drawing>, r: nat,
                run: RunRecord, born': seq<Birth>, drawn': map<Uuid, Drawing>)
    requires RunsDrew(jobs, runs, born, drawn) && B.RunsConsistent(runs, born) && r < |runs| && born <= born'
    requires forall b | b in drawn :: b in drawn' && (drawn'[b] == drawn[b] || drawn'[b].run == r)
    requires RunDrew(jobs, born', drawn', run, r)
    ensures RunsDrew(jobs, runs[r := run], born', drawn')
  {
    var runs' := runs[r := run];
    forall k | 0 <= k < |runs'| ensures RunDrew(jobs, born', drawn', runs'[k], k) {
      if k != r {
        OtherRunDrew(jobs, born, drawn, born', drawn', runs[k], k, r);
      }
    }
  }

  lemma DrawKeepsRuns(c: Classifier, s: State, r: nat, o: Outcome, s': State)
    requires Inv(c, s) && B.RunsConsistent(s.runs, s.h.born) && Enabled(s, RunCall(r, o)) && RunSummary(c, s, r, o, s')
    requires s.runs[r].pc.Drawing? && o.Landed()
    ensures DrawnByRuns(s'.w.jobs, s'.runs, s'.h.drawn) && RunsDrew(s'.w.jobs, s'.runs, s'.h.born, s'.h.drawn)
  {
    DrawerDrew(c, s, r, o, s');
    AllDrew(s.w.jobs, s.runs, s.h.born, s.h.drawn, r, s'.runs[r], s'.h.born, s'.h.drawn);
  }

  lemma DrawerDrew(c: Classifier, s: State, r: nat, o: Outcome, s': State)
    requires DrawnByRuns(s.w.jobs, s.runs, s.h.drawn) && B.RunsConsistent(s.runs, s.h.born)
    requires Enabled(s, RunCall(r, o)) && RunSummary(c, s, r, o, s') && s.runs[r].pc.Drawing? && o.Landed()
    ensures DrawnByRuns(s'.w.jobs, s'.runs, s'.h.drawn) && RunDrew(s'.w.jobs, s'.h.born, s'.h.drawn, s'.runs[r], r)
  {
    assert B.RunConsistent(s.runs[r], s.h.born, r);
  }

  lemma OtherRunCallsKeep(c: Classifier, s: State, r: nat, o: Outcome, s': State)
    requires Inv(c, s) && B.RunsConsistent(s.runs, s.h.born) && Enabled(s, RunCall(r, o)) && RunSummary(c, s, r, o, s')
    requires !s.runs[r].pc.Drawing? || !o.Landed()
    requires |s.h.born| == |s.w.predictions|
    ensures Inv(c, s')
  {
    OwnRunDrew(c, s, r, o, s');
    AllDrew(s.w.jobs, s.runs, s.h.born, s.h.drawn, r, s'.runs[r], s'.h.born, s'.h.drawn);
  }

  lemma OwnRunDrew(c: Classifier, s: State, r: nat, o: Outcome, s': State)
    requires Inv(c, s) && B.RunsConsistent(s.runs, s.h.born) && Enabled(s, RunCall(r, o)) && RunSummary(c, s, r, o, s')
    requires !s.runs[r].pc.Drawing? || !o.Landed()
    requires |s.h.born| == |s.w.predictions|
    ensures RunDrew(s'.w.jobs, s'.h.born, s'.h.drawn, s'.runs[r], r)
  {
  }

  /** The names under which the producers upload carry no slash. */
  predicate BareNames(s: State) {
    && (s.ingest.Uploading? ==> SlashFree(s.ingest.name))
    && (forall i | 0 <= i < |s.demos| && s.demos[i].Uploading? :: SlashFree(s.demos[i].name))
  }

  lemma StepKeeps(c: Classifier, s: State, a: Action, s': State)
    requires Inv(c, s) && B.Inv(c, s) && L.Inv(s) && L.Inv(s') && BareNames(s)
    requires Enabled(s, a) && Summary(c, s, a, s')
    ensures Inv(c, s')
  {
    if a.RunCall? {
      if s.runs[a.r].pc.Drawing? && a.o.Landed() {
        DrawKeepsStored(c, s, a.r, a.o, s');
        DrawKeepsRuns(c, s, a.r, a.o, s');
      } else {
        OtherRunCallsKeep(c, s, a.r, a.o, s');
      }
    } else {
      if a.IngestCall? && s.ingest.Uploading? {
        BareUploadSparesOverlays(s.w, s'.w, s.ingest.name);
      } else if a.DemoCall? && s.demos[a.i].Uploading? {
        BareUploadSparesOverlays(s.w, s'.w, s.demos[a.i].name);
      } else {
        assert s'.w.bucket == s.w.bucket;
      }
      OthersKeep(c, s, s');
    }
  }

  // ---------------------------------------------------------------- what the endpoint answers

  /** The answer is a stored overlay drawn for the prediction's own batch. */
  lemma OverlayServed(c: Classifier, s: State, p: nat)
    requires Inv(c, s) && B.Inv(c, s) && p < |s.w.predictions|
    requires s.w.predictions[p].overlay == s.h.born[p].row.overlay
    ensures var b := s.w.predictions[p].batch;
      b in s.h.drawn && Q.GetOverlay(s.w, p) == Q.Png(c(s.h.drawn[b].data).overlay)
  {
    var birth := s.h.born[p];
    assert B.BornOf(c, s.w.jobs, s.runs, birth, s.w.predictions[p], p);
    assert RunDrew(s.w.jobs, s.h.born, s.h.drawn, s.runs[birth.run], birth.run);
    var job := s.w.jobs[s.runs[birth.run].job];
    assert OverlayStored(c, s.w.bucket, s.h.drawn, job);
    UriRoundTrip(Uri(OverlayKey(job.batch, job.filename)), OverlayKey(job.batch, job.filename));
  }

  /** If the job was run once, the answer shows the very bytes this prediction was made from. */
  lemma OverlayMatchesPrediction(c: Classifier, s: State, p: nat)
    requires Inv(c, s) && B.Inv(c, s) && L.Inv(s) && p < |s.w.predictions|
    requires s.w.predictions[p].overlay == s.h.born[p].row.overlay
    requires forall r1, r2 | 0 <= r1 < r2 < |s.runs| :: s.runs[r1].job != s.runs[r2].job
    ensures Q.GetOverlay(s.w, p) == Q.Png(c(s.h.born[p].data).overlay)
  {
    OverlayServed(c, s, p);
    OnlyDrawing(c, s, p);
  }

  lemma OnlyDrawing(c: Classifier, s: State, p: nat)
    requires DrawnByRuns(s.w.jobs, s.runs, s.h.drawn) && RunsDrew(s.w.jobs, s.runs, s.h.born, s.h.drawn)
    requires B.Inv(c, s) && L.JobsDistinct(s.w.jobs) && p < |s.w.predictions|
    requires forall r1, r2 | 0 <= r1 < r2 < |s.runs| :: s.runs[r1].job != s.runs[r2].job
    requires s.w.predictions[p].batch in s.h.drawn
    ensures s.h.drawn[s.w.predictions[p].batch].data == s.h.born[p].data
  {
    var birth := s.h.born[p];
    assert B.BornOf(c, s.w.jobs, s.runs, birth, s.w.predictions[p], p);
    assert RunDrew(s.w.jobs, s.h.born, s.h.drawn, s.runs[birth.run], birth.run);
    var b := s.w.predictions[p].batch;
    var last := s.h.drawn[b].run;
    assert s.w.jobs[s.runs[last].job].batch == s.w.jobs[s.runs[birth.run].job].batch;
    assert s.runs[last].job == s.runs[birth.run].job;
  }
}

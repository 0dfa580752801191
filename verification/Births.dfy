/**
 * Predictions and the runs that made them: every prediction row stems from exactly one run of its batch's
 * job, and carries what the classifier said of the bytes that run downloaded.
 */
module Births {
  import opened Prelude
  import opened Keys
  import opened World
  import opened System
  import L = Lineage

  predicate RunsTaken(w: World, runs: seq<RunRecord>) {
    w.head <= |w.jobs| && forall r | 0 <= r < |runs| :: runs[r].job < w.head
  }

  /** A row as its run inserted it, and what an update may not change. */
  predicate BornOf(c: Classifier, jobs: seq<Job>, runs: seq<RunRecord>, birth: Birth, row: Prediction, p: nat) {
    && birth.run < |runs| && runs[birth.run].made == Some(p) && runs[birth.run].job < |jobs|
    && WellFormed(c(birth.data)) && birth.row == PredictionOf(jobs[runs[birth.run].job], c(birth.data))
    && row.batch == birth.row.batch && row.confidence == birth.row.confidence && row.filename == birth.row.filename
  }

  predicate PredictionsBorn(c: Classifier, w: World, runs: seq<RunRecord>, born: seq<Birth>) {
    |born| == |w.predictions| && forall p | 0 <= p < |born| :: BornOf(c, w.jobs, runs, born[p], w.predictions[p], p)
  }

  /** How a run's program counter and the prediction it made belong together. */
  predicate RunConsistent(run: RunRecord, born: seq<Birth>, r: nat) {
    && (run.made.Some? ==> run.made.value < |born| && born[run.made.value].run == r)
    && (run.pc.Downloading? || run.pc.Drawing? || run.pc.Creating? ==> run.made == None)
    && (run.pc.Completing? || run.pc.Evicting? || run.pc.Finished? ==> run.made == Some(run.pc.pid))
  }

  predicate RunsConsistent(runs: seq<RunRecord>, born: seq<Birth>) {
    forall r | 0 <= r < |runs| :: RunConsistent(runs[r], born, r)
  }

  predicate Inv(c: Classifier, s: State) {
    && RunsTaken(s.w, s.runs)
    && PredictionsBorn(c, s.w, s.runs, s.h.born)
    && RunsConsistent(s.runs, s.h.born)
  }

  /** Runs are only added, jobs only queued, and the worker's columns of a prediction stay. */
  lemma OthersKeep(c: Classifier, s: State, s': State)
    requires Inv(c, s) && Grows(s.w, s'.w) && |s'.w.predictions| == |s.w.predictions| && s'.h.born == s.h.born
    requires s.runs <= s'.runs && RunsTaken(s'.w, s'.runs)
    requires forall r | |s.runs| <= r < |s'.runs| :: s'.runs[r].pc.Downloading? && s'.runs[r].made == None
    ensures Inv(c, s')
  {
  }

  lemma RunKeepsRuns(c: Classifier, s: State, r: nat, o: Outcome, s': State)
    requires Inv(c, s) && Enabled(s, RunCall(r, o)) && RunSummary(c, s, r, o, s')
    ensures RunsConsistent(s'.runs, s'.h.born)
  {
  }

  lemma RunKeepsRows(c: Classifier, s: State, r: nat, o: Outcome, s': State)
    requires Inv(c, s) && Enabled(s, RunCall(r, o)) && RunSummary(c, s, r, o, s')
    ensures PredictionsBorn(c, s'.w, s'.runs, s'.h.born)
  {
  }

  lemma StepKeeps(c: Classifier, s: State, a: Action, s': State)
    requires Inv(c, s) && Enabled(s, a) && Summary(c, s, a, s')
    ensures Inv(c, s')
  {
    if a.RunCall? {
      RunKeepsRuns(c, s, a.r, a.o, s');
      RunKeepsRows(c, s, a.r, a.o, s');
    } else {
      match a
      case DemoCall(i, o, newId) => DemoKeeps(c, s, i, o, newId, s');
      case IngestCall(o, newId) => IngestKeeps(c, s, o, newId, s');
      case RequestCall(q, o) => RequestKeeps(c, s, q, o, s');
      case _ => OthersKeep(c, s, s');
    }
  }

  lemma DemoKeeps(c: Classifier, s: State, i: nat, o: Outcome, newId: Uuid, s': State)
    requires Inv(c, s) && Enabled(s, DemoCall(i, o, newId)) && DemoSummary(s, i, o, newId, s')
    ensures Inv(c, s')
  {
    OthersKeep(c, s, s');
  }

  lemma IngestKeeps(c: Classifier, s: State, o: Outcome, newId: Uuid, s': State)
    requires Inv(c, s) && IngestSummary(s, o, newId, s')
    ensures Inv(c, s')
  {
    OthersKeep(c, s, s');
  }

  lemma RequestKeeps(c: Classifier, s: State, q: nat, o: Outcome, s': State)
    requires Inv(c, s) && Enabled(s, RequestCall(q, o)) && RequestSummary(s, q, o, s')
    ensures Inv(c, s')
  {
    OthersKeep(c, s, s');
  }

  // ---------------------------------------------------------------- how many predictions a batch has

  /** The runs of the batch's job that committed a prediction, first try or re-run. */
  function CommittedRuns(s: State, batch: Uuid): set<nat> {
    set r | 0 <= r < |s.runs| && s.runs[r].made.Some? && s.runs[r].job < |s.w.jobs|
      && s.w.jobs[s.runs[r].job].batch == batch
  }

  lemma {:induction false} SameSize<X, Y>(xs: set<X>, ys: set<Y>, f: map<X, Y>)
    requires f.Keys == xs && (forall x | x in xs :: f[x] in ys)
    requires forall x1, x2 | x1 in xs && x2 in xs && x1 != x2 :: f[x1] != f[x2]
    requires forall y | y in ys :: exists x :: x in xs && f[x] == y
    ensures |xs| == |ys|
  {
    if xs != {} {
      var x :| x in xs;
      forall y | y in ys - {f[x]} ensures exists z :: z in xs - {x} && (f - {x})[z] == y {
        var z :| z in xs && f[z] == y;
        assert z in xs - {x} && (f - {x})[z] == y;
      }
      SameSize(xs - {x}, ys - {f[x]}, f - {x});
    } else {
      assert ys == {};
    }
  }

  /** `document_count` is the number of committed inserts for the batch. */
  lemma DocumentCount(c: Classifier, s: State, batch: Uuid)
    requires Inv(c, s)
    ensures |PredictionsOf(s.w.predictions, batch)| == |CommittedRuns(s, batch)|
  {
    var ps, rs := PredictionsOf(s.w.predictions, batch), CommittedRuns(s, batch);
    forall p | p in ps ensures s.h.born[p].run in rs && s.runs[s.h.born[p].run].made == Some(p) {
      assert BornOf(c, s.w.jobs, s.runs, s.h.born[p], s.w.predictions[p], p);
    }
    forall r | r in rs ensures s.runs[r].made.value in ps && s.h.born[s.runs[r].made.value].run == r {
      assert RunConsistent(s.runs[r], s.h.born, r);
      var p := s.runs[r].made.value;
      assert BornOf(c, s.w.jobs, s.runs, s.h.born[p], s.w.predictions[p], p);
    }
    SameSize(ps, rs, map p | p in ps :: s.h.born[p].run);
  }

  /** Two predictions of one batch mean that its job was run twice. */
  lemma TwoPredictionsTwoRuns(c: Classifier, s: State, p1: nat, p2: nat)
    requires Inv(c, s) && L.Inv(s) && p1 < p2 < |s.w.predictions|
    requires s.w.predictions[p1].batch == s.w.predictions[p2].batch
    ensures exists r1, r2 :: 0 <= r1 < |s.runs| && 0 <= r2 < |s.runs| && r1 != r2 && s.runs[r1].job == s.runs[r2].job
  {
  }
}

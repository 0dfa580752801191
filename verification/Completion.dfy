/**
 * Completion across the worker's two commits, in runs in which nobody patches a batch: every batch is pending or
 * done, done always has a prediction behind it, and no batch ever goes back.
 */
module Completion {
  import opened Prelude
  import opened Keys
  import opened World
  import opened System
  import B = Births
  import Safety

  predicate NoPatch(a: Action) {
    a.Submit? ==> !a.kind.PatchBatch?
  }

  predicate Ordered(w: World, b: Uuid)
    requires b in w.batches
  {
    w.batches[b].status == Pending || (w.batches[b].status == Done && PredictionsOf(w.predictions, b) != {})
  }

  predicate Inv(s: State) {
    && (forall q | 0 <= q < |s.requests| :: !s.requests[q].kind.PatchBatch?)
    && (forall b | b in s.w.batches :: Ordered(s.w, b))
  }

  /** Rows stay, and what is done stays done. */
  predicate Forward(w: World, w': World) {
    forall b | b in w.batches :: b in w'.batches && (w.batches[b].status == Done ==> w'.batches[b].status == Done)
  }

  lemma PredictionsStay(w: World, w': World, b: Uuid)
    requires Grows(w, w') && PredictionsOf(w.predictions, b) != {}
    ensures PredictionsOf(w'.predictions, b) != {}
  {
  }

  lemma RunStepOrdered(c: Classifier, s: State, r: nat, o: Outcome, s': State)
    requires Inv(s) && B.Inv(c, s) && Enabled(s, RunCall(r, o)) && RunSummary(c, s, r, o, s')
    ensures Inv(s') && Forward(s.w, s'.w)
  {
    var run := s.runs[r];
    if run.pc.Completing? {
      assert B.RunConsistent(run, s.h.born, r);
      assert B.BornOf(c, s.w.jobs, s.runs, s.h.born[run.pc.pid], s.w.predictions[run.pc.pid], run.pc.pid);
      assert run.pc.pid in PredictionsOf(s'.w.predictions, s.w.jobs[run.job].batch);
    }
    forall b | b in s'.w.batches ensures Ordered(s'.w, b) {
      assert Ordered(s.w, b);
      if PredictionsOf(s.w.predictions, b) != {} {
        PredictionsStay(s.w, s'.w, b);
      }
    }
  }

  /** New batches start pending; the rest keep their status. */
  lemma OtherStepOrdered(s: State, s': State)
    requires Inv(s) && Grows(s.w, s'.w)
    requires forall q | 0 <= q < |s'.requests| :: !s'.requests[q].kind.PatchBatch?
    requires forall b | b in s'.w.batches ::
      || (b in s.w.batches && s'.w.batches[b] == s.w.batches[b])
      || (b !in s.w.batches && s'.w.batches[b].status == Pending)
    ensures Inv(s') && Forward(s.w, s'.w)
  {
  }

  lemma StepOrdered(c: Classifier, s: State, a: Action, s': State)
    requires Inv(s) && B.Inv(c, s) && NoPatch(a) && Enabled(s, a) && Summary(c, s, a, s')
    ensures Inv(s') && Forward(s.w, s'.w)
  {
    match a
    case RunCall(r, o) => RunStepOrdered(c, s, r, o, s');
    case IngestCall(o, newId) => IngestOrdered(s, o, newId, s');
    case DemoCall(i, o, newId) => DemoOrdered(s, i, o, newId, s');
    case RequestCall(q, o) => RequestOrdered(s, q, o, s');
    case _ => OtherStepOrdered(s, s');
  }

  lemma IngestOrdered(s: State, o: Outcome, newId: Uuid, s': State)
    requires Inv(s) && Enabled(s, IngestCall(o, newId)) && IngestSummary(s, o, newId, s')
    ensures Inv(s') && Forward(s.w, s'.w)
  {
    OtherStepOrdered(s, s');
  }

  lemma DemoOrdered(s: State, i: nat, o: Outcome, newId: Uuid, s': State)
    requires Inv(s) && Enabled(s, DemoCall(i, o, newId)) && DemoSummary(s, i, o, newId, s')
    ensures Inv(s') && Forward(s.w, s'.w)
  {
    OtherStepOrdered(s, s');
  }

  lemma RequestOrdered(s: State, q: nat, o: Outcome, s': State)
    requires Inv(s) && Enabled(s, RequestCall(q, o)) && RequestSummary(s, q, o, s')
    ensures Inv(s') && Forward(s.w, s'.w)
  {
    OtherStepOrdered(s, s');
  }

  lemma StepKeepsOrder(c: Classifier, s: State, a: Action, s': State)
    requires Safety.Inv(c, s) && Inv(s) && NoPatch(a) && Enabled(s, a) && s' == Apply(c, s, a)
    ensures Safety.Inv(c, s') && Inv(s') && Forward(s.w, s'.w)
  {
    Safety.StepKeeps(c, s, a, s');
    Summarised(c, s, a, s');
    StepOrdered(c, s, a, s');
  }

  /** Over any stretch of such a run: order holds at its end, and no batch went back. */
  lemma {:induction false} CompletionOrder(c: Classifier, s: State, acts: seq<Action>)
    requires Safety.Inv(c, s) && Inv(s) && Legal(c, s, acts) && NonePatches(acts)
    ensures Inv(Exec(c, s, acts)) && Forward(s.w, Exec(c, s, acts).w)
    decreases |acts|
  {
    if acts != [] {
      var s' := Apply(c, s, acts[0]);
      StepKeepsOrder(c, s, acts[0], s');
      CompletionOrder(c, s', acts[1..]);
    }
  }

  /** Some run without status patches leads here from empty stores. */
  ghost predicate Unpatched(c: Classifier, s: State) {
    exists users, acts :: Legal(c, Init(users), acts) && NonePatches(acts) && s == Exec(c, Init(users), acts)
  }

  predicate NonePatches(acts: seq<Action>) {
    forall i | 0 <= i < |acts| :: NoPatch(acts[i])
  }

  lemma UnpatchedInv(c: Classifier, s: State)
    requires Unpatched(c, s)
    ensures Safety.Inv(c, s) && Inv(s)
  {
    var users, acts :| Legal(c, Init(users), acts) && NonePatches(acts) && s == Exec(c, Init(users), acts);
    Safety.InitInv(c, users);
    CompletionOrder(c, Init(users), acts);
    Safety.RunKeeps(c, Init(users), acts);
  }

  /**
   * Pending or done, and done only with a prediction, wherever the worker stopped; the next step takes no batch back.
   */
  lemma DoneMeansPredicted(c: Classifier, s: State, b: Uuid, a: Action)
    requires Unpatched(c, s) && b in s.w.batches
    ensures s.w.batches[b].status == Pending
      || (s.w.batches[b].status == Done && PredictionsOf(s.w.predictions, b) != {})
    ensures Enabled(s, a) && NoPatch(a) ==>
      var w' := Apply(c, s, a).w; b in w'.batches && (s.w.batches[b].status == Done ==> w'.batches[b].status == Done)
  {
    UnpatchedInv(c, s);
    assert Ordered(s.w, b);
    if Enabled(s, a) && NoPatch(a) {
      StepKeepsOrder(c, s, a, Apply(c, s, a));
    }
  }
}

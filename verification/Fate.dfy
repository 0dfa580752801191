/** What has become of every drop and every job once the workers have come to rest in a smooth run. */
module Fate {
  import opened Prelude
  import opened Keys
  import opened World
  import opened System
  import opened SmoothRuns
  import opened Decisions
  import N = Inference
  import Docs = Documents
  import L = Lineage
  import B = Births
  import V = Provenance
  import P = Progress
  import Safety

  /** The only batch recorded for this path. */
  predicate OnlyBatch(batches: map<Uuid, Batch>, path: string, batch: Uuid) {
    batch in batches && forall b | b in batches :: batches[b].path == path <==> b == batch
  }

  /** The status the workers gave the batch, unless somebody asked to change it. */
  predicate StatusIs(s: State, batch: Uuid, status: BatchStatus) {
    batch in s.w.batches && (!PatchAsked(s.requests, batch) ==> s.w.batches[batch].status == status)
  }

  /** The row says what the classifier said; label and overlay unless somebody asked to relabel it. */
  predicate RowSays(s: State, p: nat, batch: Uuid, name: string, v: Verdict) {
    && p < |s.w.predictions|
    && s.w.predictions[p].batch == batch && s.w.predictions[p].filename == name
    && s.w.predictions[p].confidence == v.confidence
    && (!RelabelAsked(s.requests, p) ==>
          && Some(s.w.predictions[p].docLabel) == v.docLabel
          && s.w.predictions[p].overlay == Some(Uri(OverlayKey(batch, name))))
  }

  /** Done, with one prediction, which is this verdict. */
  predicate Classified(s: State, batch: Uuid, name: string, v: Verdict) {
    && StatusIs(s, batch, Done)
    && exists p :: 0 <= p < |s.w.predictions| && PredictionsOf(s.w.predictions, batch) == {p}
                   && RowSays(s, p, batch, name, v)
  }

  /** No answer of the classifier could be stored: left pending, without a prediction. */
  predicate Stuck(s: State, batch: Uuid) {
    StatusIs(s, batch, Pending) && PredictionsOf(s.w.predictions, batch) == {}
  }

  /** The batch is settled as the verdict demands, field by field. */
  predicate SettledAs(s: State, batch: Uuid, name: string, v: Verdict) {
    if v.decodes && v.docLabel.Some? && 0.0 <= v.confidence <= 1.0 then Classified(s, batch, name, v)
    else Stuck(s, batch)
  }

  /** What the drop deserves, from its name and bytes and the classifier's answer alone. */
  ghost predicate Settled(c: Classifier, s: State, drop: Drop) {
    && "/upload/" + drop.name !in s.w.files
    && (Document(drop.name, drop.data) ==>
          exists b :: OnlyBatch(s.w.batches, "/upload/" + drop.name, b) && SettledAs(s, b, drop.name, c(drop.data)))
    && (Impostor(drop.name, drop.data) ==>
          "/quarantine/" + drop.name in s.w.files && s.w.files["/quarantine/" + drop.name] == drop.data)
  }

  lemma RestMeansEmpty(s: State, name: string)
    requires AtRest(s)
    ensures UploadPath(name) !in s.w.files
  {
    P.WaitingName(name);
    assert UploadPath(name) in s.w.files ==> UploadPath(name) in Waiting(s.w.files);
  }

  /** The batch queued for a drop is the only one with its path. */
  lemma OneBatchPerDrop(c: Classifier, s: State, d: nat, j: nat)
    requires Inv(c, s) && Docs.Inv(s) && d < |s.h.drops| && Docs.QueuedAs(s.w, s.h, d, j)
    ensures OnlyBatch(s.w.batches, UploadPath(s.h.drops[d].name), s.w.jobs[j].batch)
  {
    PathsApart();
    var batch := s.w.jobs[j].batch;
    forall b | b in s.w.batches && s.w.batches[b].path == UploadPath(s.h.drops[d].name) ensures b == batch {
      assert b in s.h.origin;
      assert Docs.OriginKnown(s.h.drops, s.h.stored, s.w.batches, b, s.h.origin[b]);
      assert s.h.drops[s.h.origin[b]].name == s.h.drops[d].name;
      assert s.h.origin[b] == d;
    }
  }

  /** The predictions of a job's batch are the ones its only run made. */
  lemma PredictionsOfJob(c: Classifier, s: State, j: nat)
    requires RunsInOrder(s.runs, s.w.head) && B.Inv(c, s) && L.JobsDistinct(s.w.jobs)
    requires j < |s.runs| && j < |s.w.jobs|
    ensures PredictionsOf(s.w.predictions, s.w.jobs[j].batch) ==
      match s.runs[j].made case None => {} case Some(p) => {p}
  {
  }

  /** The row a run made is the classifier's verdict on the bytes the run read. */
  lemma RowOfRun(c: Classifier, s: State, j: nat, p: nat)
    requires RunsInOrder(s.runs, s.w.head) && RowsAsBorn(s.w.predictions, s.h.born, s.requests) && B.Inv(c, s)
    requires j < |s.runs| && j < |s.w.jobs| && s.runs[j].made == Some(p)
    ensures p < |s.h.born| && RowSays(s, p, s.w.jobs[j].batch, s.w.jobs[j].filename, c(s.h.born[p].data))
  {
    assert B.RunConsistent(s.runs[j], s.h.born, j);
    assert B.BornOf(c, s.w.jobs, s.runs, s.h.born[p], s.w.predictions[p], p);
  }

  /** At rest, a job of either producer has been run once, to its end or to a verdict that could not be stored. */
  lemma JobSettled(c: Classifier, s: State, j: nat)
    requires Inv(c, s) && Safety.Inv(c, s) && AtRest(s) && j < |s.w.jobs|
    ensures j < |s.runs| && s.runs[j].job == j
    ensures s.runs[j].made.None? ==> Stuck(s, s.w.jobs[j].batch)
    ensures s.runs[j].made.Some? ==>
      && s.runs[j].made.value < |s.h.born|
      && Classified(s, s.w.jobs[j].batch, s.w.jobs[j].filename, c(s.h.born[s.runs[j].made.value].data))
  {
    StatusAtRest(c, s, j);
    PredictionsOfJob(c, s, j);
    if s.runs[j].made.Some? {
      RowOfRun(c, s, j, s.runs[j].made.value);
      assert s.runs[j].made.value in PredictionsOf(s.w.predictions, s.w.jobs[j].batch);
    }
  }

  lemma StatusAtRest(c: Classifier, s: State, j: nat)
    requires RunsInOrder(s.runs, s.w.head) && RunsAllOrNothing(s.runs) && B.RunsConsistent(s.runs, s.h.born)
    requires StatusesOnTrack(s.w.batches, s.w.jobs, s.runs, s.requests) && L.JobsNameStored(s.w)
    requires AtRest(s) && j < |s.w.jobs|
    ensures j < |s.runs| && StatusIs(s, s.w.jobs[j].batch, if s.runs[j].made.Some? then Done else Pending)
  {
    assert N.RunRank(s.runs[j].pc) == 0;
    assert B.RunConsistent(s.runs[j], s.h.born, j);
    assert StatusOnTrack(s.w.batches, s.w.jobs[j], j, s.runs, s.requests);
  }

  /** An accepted drop's batch is settled as the verdict on its bytes demands. */
  lemma AcceptedSettled(c: Classifier, s: State, d: nat, j: nat)
    requires Inv(c, s) && Safety.Inv(c, s) && AtRest(s) && d < |s.h.drops| && Docs.QueuedAs(s.w, s.h, d, j)
    ensures SettledAs(s, s.w.jobs[j].batch, s.h.drops[d].name, c(s.h.drops[d].data))
  {
    JobSettled(c, s, j);
    assert JobOnTrack(c, s.w.jobs[j], s.runs[j], s.h);
    assert N.RunRank(s.runs[j].pc) == 0;
    assert B.RunConsistent(s.runs[j], s.h.born, j);
    if s.runs[j].made.Some? {
      BornOfDrop(c, s, j, s.runs[j].made.value);
    }
  }

  /** What a drop's job made, it made from the drop's bytes. */
  lemma BornOfDrop(c: Classifier, s: State, j: nat, p: nat)
    requires RunsInOrder(s.runs, s.w.head) && NamesDistinct(s.h.drops) && B.Inv(c, s) && V.BirthsOwn(s.h.born, s.h)
    requires j < |s.runs| && j < |s.w.jobs| && s.runs[j].made == Some(p) && s.w.jobs[j].batch in s.h.origin
    ensures p < |s.h.born| && WellFormed(c(s.h.born[p].data))
    ensures s.h.origin[s.w.jobs[j].batch] < |s.h.drops|
    ensures s.h.born[p].data == s.h.drops[s.h.origin[s.w.jobs[j].batch]].data
  {
    assert B.RunConsistent(s.runs[j], s.h.born, j);
    assert B.BornOf(c, s.w.jobs, s.runs, s.h.born[p], s.w.predictions[p], p);
    assert V.OwnBytes(s.h, s.h.born[p].row.batch, s.h.born[p].data);
    OnlyOwn(s.h, s.w.jobs[j].batch, s.h.born[p].data);
  }

  /** The end-to-end claim, from the invariants. */
  lemma DropSettled(c: Classifier, s: State, d: nat)
    requires Inv(c, s) && Safety.Inv(c, s) && AtRest(s) && d < |s.h.drops|
    ensures Settled(c, s, s.h.drops[d])
  {
    var drop := s.h.drops[d];
    RestMeansEmpty(s, drop.name);
    KindsSpelled(drop.name, drop.data);
    if Document(drop.name, drop.data) {
      Safety.LeftMeansQueued(s, d);
      var j :| 0 <= j < |s.w.jobs| && Docs.QueuedAs(s.w, s.h, d, j);
      OneBatchPerDrop(c, s, d, j);
      AcceptedSettled(c, s, d, j);
    }
    if Impostor(drop.name, drop.data) {
      assert SuspectKept(s.w.files, drop);
    }
  }

  /**
   * End to end. At rest, every acceptable drop has exactly one batch; it is done with exactly one prediction, the
   * classifier's verdict on exactly the dropped bytes, or, if and only if that verdict is not storable, pending with
   * none. Every suspicious drop is in quarantine with its bytes. Nothing is left in /upload. Demo calls and API
   * requests may have come and failed at any point; only what they asked to change may differ.
   */
  lemma EveryDropSettled(c: Classifier, s: State, d: nat)
    requires SmoothlyReached(c, s) && AtRest(s) && d < |s.h.drops|
    ensures Settled(c, s, s.h.drops[d])
  {
    SmoothlyReachedInv(c, s);
    DropSettled(c, s, d);
  }

  /** The same for every queued job, whichever producer queued it, with the bytes its run read. */
  lemma EveryJobSettled(c: Classifier, s: State, j: nat)
    requires SmoothlyReached(c, s) && AtRest(s) && j < |s.w.jobs|
    ensures j < |s.runs| && s.runs[j].job == j
    ensures s.runs[j].made.None? ==> Stuck(s, s.w.jobs[j].batch)
    ensures s.runs[j].made.Some? ==>
      && s.runs[j].made.value < |s.h.born|
      && Classified(s, s.w.jobs[j].batch, s.w.jobs[j].filename, c(s.h.born[s.runs[j].made.value].data))
  {
    SmoothlyReachedInv(c, s);
    JobSettled(c, s, j);
  }

  // ---------------------------------------------------------------- and rest is reached

  lemma AdvanceSmooth(c: Classifier, s: State, s': State)
    requires SmoothlyReached(c, s) && P.Advances(c, s, s')
    ensures SmoothlyReached(c, s') && s'.h.drops == s.h.drops
  {
    var a :| Enabled(s, a) && P.Productive(s, a) && s' == Apply(c, s, a);
    SmoothNext(c, s, a, s');
  }

  lemma {:induction false} ChainSmooth(c: Classifier, s: State, chain: seq<State>, k: nat)
    requires SmoothlyReached(c, s) && P.ChainFrom(c, s, chain) && k < |chain|
    ensures SmoothlyReached(c, chain[k]) && chain[k].h.drops == s.h.drops
  {
    if k > 0 {
      ChainSmooth(c, s, chain, k - 1);
      assert P.Advances(c, chain[k - 1], chain[k - 1 + 1]);
      AdvanceSmooth(c, chain[k - 1], chain[k]);
    }
  }

  /** A smooth run reaches no state with a blocked file. */
  lemma SmoothUnblocked(c: Classifier, s: State)
    requires SmoothlyReached(c, s)
    ensures Safety.Reachable(c, s) && P.NoneBlocked(s.w)
  {
    SmoothlyReachedInv(c, s);
  }

  /**
   * End to end, in one piece. From any state of a smooth run, however everyone is scheduled, productive steps come to
   * an end within the measure; and where no further one can be taken, all is quiet and every drop has met its fate.
   */
  lemma EndToEnd(c: Classifier, s: State, chain: seq<State>, newId: Uuid)
    requires SmoothlyReached(c, s) && P.ChainFrom(c, s, chain) && newId !in chain[|chain| - 1].w.batches
    ensures |chain| - 1 <= P.Measure(s)
    ensures var last := chain[|chain| - 1];
      (forall next :: !P.Advances(c, last, next)) ==>
        P.Quiet(last) && last.h.drops == s.h.drops && forall d | 0 <= d < |s.h.drops| :: Settled(c, last, s.h.drops[d])
  {
    var last := chain[|chain| - 1];
    SmoothUnblocked(c, s);
    P.ChainsAreBounded(c, s, chain);
    ChainSmooth(c, s, chain, |chain| - 1);
    SmoothUnblocked(c, last);
    if forall next :: !P.Advances(c, last, next) {
      QuietAtEnd(c, last, newId);
      forall d | 0 <= d < |s.h.drops| ensures Settled(c, last, s.h.drops[d]) {
        EveryDropSettled(c, last, d);
      }
    }
  }

  lemma QuietAtEnd(c: Classifier, s: State, newId: Uuid)
    requires Safety.Reachable(c, s) && newId !in s.w.batches && forall next :: !P.Advances(c, s, next)
    ensures P.Quiet(s)
  {
    if !P.Quiet(s) {
      P.SomeStepPossible(c, s, newId);
    }
  }
}

/**
 * Safety over whole runs: the invariants hold in every state the pipeline can reach, under any interleaving,
 * with any call failing before or after it took effect, any process dying anywhere, and any job run again.
 */
module Safety {
  import opened Prelude
  import opened Keys
  import opened World
  import opened Formats
  import opened System
  import opened Decisions
  import Q = Requests
  import Docs = Documents
  import L = Lineage
  import B = Births
  import A = Accountability
  import O = Overlays
  import V = Provenance

  ghost predicate Inv(c: Classifier, s: State) {
    SessionsShaped(s) && Docs.Inv(s) && L.Inv(s) && B.Inv(c, s) && A.Inv(s) && O.Inv(c, s) && V.Inv(s)
  }

  lemma InitInv(c: Classifier, users: map<Uuid, Role>)
    ensures Inv(c, Init(users))
  {
    InitDocuments(users);
    InitLineage(users);
    InitWork(c, users);
    InitAccounts(users);
  }

  lemma InitWork(c: Classifier, users: map<Uuid, Role>)
    ensures SessionsShaped(Init(users)) && B.Inv(c, Init(users)) && O.Inv(c, Init(users)) && V.Inv(Init(users))
  {
  }

  lemma InitAccounts(users: map<Uuid, Role>)
    ensures A.Inv(Init(users))
  {
  }

  lemma InitLineage(users: map<Uuid, Role>)
    ensures L.Inv(Init(users))
  {
    assert L.JobBatches([]) == {} && L.DemosCarry([]) == {};
  }

  lemma InitDocuments(users: map<Uuid, Role>)
    ensures Docs.Inv(Init(users))
  {
  }

  lemma StepKeeps(c: Classifier, s: State, a: Action, s': State)
    requires Inv(c, s) && Enabled(s, a) && s' == Apply(c, s, a)
    ensures Inv(c, s')
  {
    Summarised(c, s, a, s');
    SessionsStayShaped(c, s, a, s');
    Docs.StepKeeps(c, s, a, s');
    L.StepKeeps(c, s, a, s');
    B.StepKeeps(c, s, a, s');
    A.StepKeeps(c, s, a, s');
    BareNames(s);
    O.StepKeeps(c, s, a, s');
    V.StepKeeps(c, s, a, s');
  }

  lemma BareNames(s: State)
    requires Docs.Inv(s)
    ensures O.BareNames(s)
  {
  }

  lemma {:induction false} RunKeeps(c: Classifier, s: State, acts: seq<Action>)
    requires Inv(c, s) && Legal(c, s, acts)
    ensures Inv(c, Exec(c, s, acts))
    decreases |acts|
  {
    if acts != [] {
      var s' := Apply(c, s, acts[0]);
      StepKeeps(c, s, acts[0], s');
      RunKeeps(c, s', acts[1..]);
    }
  }

  /** A state some run leads to from the empty stores and any user table. */
  ghost predicate Reachable(c: Classifier, s: State) {
    exists users, acts :: Legal(c, Init(users), acts) && s == Exec(c, Init(users), acts)
  }

  lemma ReachableInv(c: Classifier, s: State)
    requires Reachable(c, s)
    ensures Inv(c, s)
  {
    var users, acts :| Legal(c, Init(users), acts) && s == Exec(c, Init(users), acts);
    InitInv(c, users);
    RunKeeps(c, Init(users), acts);
  }

  // ---------------------------------------------------------------- the theorems

  /** No document bearing this name arrived after drop `d`. */
  predicate LatestOfName(s: State, d: nat)
    requires d < |s.h.drops|
  {
    forall e | d < e < |s.h.drops| :: s.h.drops[e].name != s.h.drops[d].name
  }

  /**
   * No loss. Every acceptable drop is still in /upload with its bytes, or a job of its own was queued for it under a
   * batch with its path; the bucket then holds the bytes of that drop or of a later one of the same name.
   */
  lemma NoLoss(c: Classifier, s: State, d: nat)
    requires Reachable(c, s) && d < |s.h.drops| && Document(s.h.drops[d].name, s.h.drops[d].data)
    ensures var drop := s.h.drops[d];
      || (UploadPath(drop.name) in s.w.files && s.w.files[UploadPath(drop.name)] == drop.data)
      || (Docs.Queued(s.w, s.h, d) && BucketHoldsSince(s, d))
  {
    ReachableInv(c, s);
    KindsSpelled(s.h.drops[d].name, s.h.drops[d].data);
    if Docs.InUpload(s.w.files, s.h, d) {
      assert s.w.files[UploadPath(s.h.drops[d].name)] == s.h.drops[d].data;
    } else {
      QueuedBytes(s, d);
    }
  }

  /** The document object of the drop's name holds the bytes of this drop or of a later one of the same name. */
  predicate BucketHoldsSince(s: State, d: nat)
    requires d < |s.h.drops|
  {
    var name := s.h.drops[d].name;
    && name in s.h.stored && d <= s.h.stored[name] < |s.h.drops| && s.h.drops[s.h.stored[name]].name == name
    && name in s.w.bucket && s.w.bucket[name] == s.h.drops[s.h.stored[name]].data
  }

  lemma QueuedBytes(s: State, d: nat)
    requires Docs.Inv(s) && d < |s.h.drops| && Docs.Queued(s.w, s.h, d)
    ensures BucketHoldsSince(s, d)
  {
  }

  /**
   * Once a drop has left /upload, the bucket holds its bytes exactly as long as the upload made last under its name
   * carried the same bytes; a name that never arrives again guarantees it.
   */
  lemma BytesKept(c: Classifier, s: State, d: nat)
    requires Reachable(c, s) && d < |s.h.drops| && Document(s.h.drops[d].name, s.h.drops[d].data)
    requires !Docs.InUpload(s.w.files, s.h, d)
    ensures BucketHoldsSince(s, d)
    ensures var name := s.h.drops[d].name;
      && (s.w.bucket[name] == s.h.drops[d].data <==> s.h.drops[s.h.stored[name]].data == s.h.drops[d].data)
      && (LatestOfName(s, d) ==> s.w.bucket[name] == s.h.drops[d].data)
  {
    ReachableInv(c, s);
    KindsSpelled(s.h.drops[d].name, s.h.drops[d].data);
    LeftMeansQueued(s, d);
    QueuedBytes(s, d);
    if LatestOfName(s, d) {
      LatestIsStored(s, d);
    }
  }

  /**
   * A prediction of a drop's batch was made from the bytes of that drop or of a later one of its name, and its
   * confidence is the classifier's in those bytes. If no later drop bears the name, the bytes are the drop's own.
   */
  lemma PredictionsOfOwnBytes(c: Classifier, s: State, p: nat)
    requires Reachable(c, s) && p < |s.w.predictions| && s.w.predictions[p].batch in s.h.origin
    ensures var d := s.h.origin[s.w.predictions[p].batch];
      && p < |s.h.born| && d < |s.h.drops| && s.w.predictions[p].filename == s.h.drops[d].name
      && s.w.predictions[p].confidence == c(s.h.born[p].data).confidence
      && (exists e :: d <= e < |s.h.drops| && s.h.drops[e].name == s.h.drops[d].name
                      && s.h.drops[e].data == s.h.born[p].data)
      && (LatestOfName(s, d) ==> s.h.born[p].data == s.h.drops[d].data)
  {
    BirthsOwned(c, s);
    PredictionOwn(c, s, p);
    OwnWhenLatest(s, s.h.origin[s.w.predictions[p].batch], s.h.born[p].data);
  }

  lemma BirthsOwned(c: Classifier, s: State)
    requires Reachable(c, s)
    ensures B.Inv(c, s) && V.Inv(s)
  {
    ReachableInv(c, s);
  }

  lemma OwnWhenLatest(s: State, d: nat, data: Bytes)
    requires V.FromDrop(s.h.drops, d, data)
    ensures LatestOfName(s, d) ==> data == s.h.drops[d].data
  {
  }

  lemma PredictionOwn(c: Classifier, s: State, p: nat)
    requires B.Inv(c, s) && V.Inv(s) && p < |s.w.predictions| && s.w.predictions[p].batch in s.h.origin
    ensures var d := s.h.origin[s.w.predictions[p].batch];
      && p < |s.h.born| && V.FromDrop(s.h.drops, d, s.h.born[p].data)
      && s.w.predictions[p].filename == s.h.drops[d].name
      && s.w.predictions[p].confidence == c(s.h.born[p].data).confidence
  {
    assert B.BornOf(c, s.w.jobs, s.runs, s.h.born[p], s.w.predictions[p], p);
    assert V.OwnBytes(s.h, s.h.born[p].row.batch, s.h.born[p].data);
    assert V.JobNamed(s.w.jobs[s.runs[s.h.born[p].run].job], s.h);
  }

  lemma LatestIsStored(s: State, d: nat)
    requires d < |s.h.drops| && BucketHoldsSince(s, d) && LatestOfName(s, d)
    ensures s.h.stored[s.h.drops[d].name] == d
  {
  }

  lemma LeftMeansQueued(s: State, d: nat)
    requires Docs.Inv(s) && d < |s.h.drops| && Docs.AcceptableDrop(s.h.drops[d]) && !Docs.InUpload(s.w.files, s.h, d)
    ensures Docs.Queued(s.w, s.h, d)
  {
  }

  /** What is in quarantine belongs there: not empty, within the size limit, TIFF-named, without TIFF magic. */
  lemma QuarantineHoldsOnlySuspects(c: Classifier, s: State, name: string)
    requires Reachable(c, s) && "/quarantine/" + name in s.w.files
    ensures var data := s.w.files["/quarantine/" + name];
      0 < |data| <= 52428800 && TiffNamed(name) && !TiffBytes(data)
  {
    ReachableInv(c, s);
    KindsSpelled(name, s.w.files[QuarantinePath(name)]);
  }

  /** Every job ever queued names a committed batch and a stored object, and no two jobs name the same batch. */
  lemma Causality(c: Classifier, s: State)
    requires Reachable(c, s)
    ensures forall j | 0 <= j < |s.w.jobs| :: s.w.jobs[j].batch in s.w.batches && s.w.jobs[j].blobKey in s.w.bucket
    ensures forall j, k | 0 <= j < k < |s.w.jobs| :: s.w.jobs[j].batch != s.w.jobs[k].batch
  {
    ReachableInv(c, s);
  }

  lemma BatchesConserved(c: Classifier, s: State)
    requires Reachable(c, s)
    ensures |s.w.batches| == |s.w.jobs| + |L.IngestCarries(s.ingest)| + |L.DemosCarry(s.demos)| + |s.h.orphans|
  {
    ReachableInv(c, s);
    L.BatchConservation(s);
  }

  /** A batch has as many predictions as committed inserts; with no job run twice, at most one. */
  lemma PredictionsCounted(c: Classifier, s: State, batch: Uuid)
    requires Reachable(c, s)
    ensures |PredictionsOf(s.w.predictions, batch)| == |B.CommittedRuns(s, batch)|
    ensures (forall r1, r2 | 0 <= r1 < r2 < |s.runs| :: s.runs[r1].job != s.runs[r2].job) ==>
      forall p1, p2 | p1 in PredictionsOf(s.w.predictions, batch) && p2 in PredictionsOf(s.w.predictions, batch) ::
        p1 == p2
  {
    ReachableInv(c, s);
    B.DocumentCount(c, s, batch);
    if forall r1, r2 | 0 <= r1 < r2 < |s.runs| :: s.runs[r1].job != s.runs[r2].job {
      forall p1, p2 | p1 in PredictionsOf(s.w.predictions, batch) && p2 in PredictionsOf(s.w.predictions, batch)
        ensures p1 == p2
      {
        OnePrediction(c, s, p1, p2);
      }
    }
  }

  lemma OnePrediction(c: Classifier, s: State, p1: nat, p2: nat)
    requires Inv(c, s) && p1 < |s.w.predictions| && p2 < |s.w.predictions|
    requires s.w.predictions[p1].batch == s.w.predictions[p2].batch
    requires forall r1, r2 | 0 <= r1 < r2 < |s.runs| :: s.runs[r1].job != s.runs[r2].job
    ensures p1 == p2
  {
    assert p1 >= p2 by {
      if p1 < p2 { B.TwoPredictionsTwoRuns(c, s, p1, p2); assert false; }
    }
    assert p2 >= p1 by {
      if p2 < p1 { B.TwoPredictionsTwoRuns(c, s, p2, p1); assert false; }
    }
  }

  /** A status other than pending is done with a prediction behind it, or a change to it is on record. */
  lemma StatusJustified(c: Classifier, s: State, b: Uuid)
    requires Reachable(c, s) && b in s.w.batches && s.w.batches[b].status != Pending
    ensures (s.w.batches[b].status == Done && PredictionsOf(s.w.predictions, b) != {})
      || Audited(s.w, StatusChange(s.w.batches[b].status), BatchTarget(b))
  {
    ReachableInv(c, s);
  }

  /**
   * A prediction that differs from what its worker stored was below the limit, still is, and its relabel is on record.
   */
  lemma RelabelIntegrity(c: Classifier, s: State, p: nat)
    requires Reachable(c, s) && p < |s.w.predictions|
    ensures p < |s.h.born|
    ensures s.w.predictions[p] != s.h.born[p].row ==>
      s.w.predictions[p].confidence < 0.7 && Audited(s.w, Relabel, PredictionTarget(p))
    ensures s.w.predictions[p].confidence == c(s.h.born[p].data).confidence
    ensures c(s.h.born[p].data).docLabel == Some(s.h.born[p].row.docLabel)
  {
    ReachableInv(c, s);
    assert A.Accounted(s.w, s.h.born[p], p);
    assert B.BornOf(c, s.w.jobs, s.runs, s.h.born[p], s.w.predictions[p], p);
  }

  /** Role changes committed and role_toggle rows agree in number, even with requests interleaved. */
  lemma RoleChangesRecorded(c: Classifier, s: State)
    requires Reachable(c, s)
    ensures A.RoleToggles(s.w.audit) == s.h.roleCommits
  {
    ReachableInv(c, s);
  }

  /**
   * The overlay endpoint answers for an unpatched prediction, with an overlay drawn for its own batch; with no job run
   * twice, the one drawn from the prediction's own bytes.
   */
  lemma OverlayCorrect(c: Classifier, s: State, p: nat)
    requires Reachable(c, s) && p < |s.w.predictions|
    requires p < |s.h.born| && s.w.predictions[p].overlay == s.h.born[p].row.overlay
    ensures var b := s.w.predictions[p].batch;
      b in s.h.drawn && Q.GetOverlay(s.w, p) == Q.Png(c(s.h.drawn[b].data).overlay)
    ensures (forall r1, r2 | 0 <= r1 < r2 < |s.runs| :: s.runs[r1].job != s.runs[r2].job) ==>
      Q.GetOverlay(s.w, p) == Q.Png(c(s.h.born[p].data).overlay)
  {
    OverlaysKnown(c, s);
    O.OverlayServed(c, s, p);
    if forall r1, r2 | 0 <= r1 < r2 < |s.runs| :: s.runs[r1].job != s.runs[r2].job {
      O.OverlayMatchesPrediction(c, s, p);
    }
  }

  lemma OverlaysKnown(c: Classifier, s: State)
    requires Reachable(c, s)
    ensures B.Inv(c, s) && L.Inv(s) && O.Inv(c, s)
  {
    ReachableInv(c, s);
  }
}

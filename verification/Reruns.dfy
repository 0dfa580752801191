/**
 * What becomes of a job that is put back after it ran. Inference is meant to be idempotent on batch and file name; the
 * service inserts without looking.
 */
module Reruns {
  import opened Prelude
  import opened Keys
  import opened World
  import opened System
  import opened Refinement
  import opened Safety
  import I = Ingest
  import N = Inference
  import R = NameReuse

  /** A run leaves the queue, the documents under bare names and the set of batches as they are. */
  lemma {:induction false} RunSpares(c: Classifier, w: World, job: Job, pc: N.RunPc, f: N.RunFaults, key: string)
    requires SlashFree(key)
    ensures var w' := N.Run(c, w, job, pc, f).0;
      && w'.jobs == w.jobs && w'.head == w.head && w'.batches.Keys == w.batches.Keys && SameObject(w, w', key)
    decreases N.RunRank(pc)
  {
    if N.RunRank(pc) > 0 {
      var (w', pc') := N.RunStep(c, w, job, pc, N.RunFaultAt(f, pc));
      StepSpares(c, w, job, pc, N.RunFaultAt(f, pc), key, w');
      RunSpares(c, w', job, pc', f, key);
    }
  }

  lemma StepSpares(c: Classifier, w: World, job: Job, pc: N.RunPc, o: Outcome, key: string, w': World)
    requires SlashFree(key) && w' == N.RunStep(c, w, job, pc, o).0
    ensures w'.jobs == w.jobs && w'.head == w.head && w'.batches.Keys == w.batches.Keys && SameObject(w, w', key)
  {
    RunCallEffect(c, w, job, pc, o);
    OverlayKeyHasSlash(job.batch, job.filename);
  }

  /** One undisturbed run of a document's job adds the verdict on the document. */
  lemma RunAdds(c: Classifier, w: World, batch: Uuid, name: string, data: Bytes)
    requires batch in w.batches && name in w.bucket && w.bucket[name] == data && SlashFree(name) && WellFormed(c(data))
    ensures var w' := N.Run(c, w, I.JobFor(batch, name), N.Downloading, N.NO_RUN_FAULTS).0;
      && w'.predictions == w.predictions + [PredictionOf(I.JobFor(batch, name), c(data))]
      && w'.jobs == w.jobs && w'.head == w.head
      && batch in w'.batches && name in w'.bucket && w'.bucket[name] == data
  {
    N.RunExactly(c, w, I.JobFor(batch, name), N.NO_RUN_FAULTS);
    RunSpares(c, w, I.JobFor(batch, name), N.Downloading, N.NO_RUN_FAULTS, name);
  }

  /** The document's job is the only one, and has been taken; its object is in place. */
  ghost predicate Taken(c: Classifier, s: State, batch: Uuid, name: string, data: Bytes) {
    && Reachable(c, s) && s.w.jobs == [I.JobFor(batch, name)] && s.w.head == 1
    && batch in s.w.batches && name in s.w.bucket && s.w.bucket[name] == data
  }

  function Copies(row: Prediction, n: nat): seq<Prediction> {
    if n == 0 then [] else Copies(row, n - 1) + [row]
  }

  /** The job of an accepted document has run once, to its end. */
  lemma RunOnce(c: Classifier, name: string, data: Bytes, batch: Uuid) returns (s: State)
    requires name != "" && SlashFree(name) && I.Acceptable(name, data) && WellFormed(c(data))
    ensures Taken(c, s, batch, name, data) && s.w.predictions == [PredictionOf(I.JobFor(batch, name), c(data))]
  {
    var start := Init(map[]);
    assert Legal(c, start, []) && start == Exec(c, start, []);
    var queued := R.Ingested(c, start, name, data, batch);
    assert queued.w.jobs == [I.JobFor(batch, name)];
    s := TakenJobLeads(c, queued, N.NO_RUN_FAULTS);
    RunAdds(c, queued.w.(head := 1), batch, name, data);
    Compose(c, start, queued, s);
    ReachOn(c, start, s);
  }

  /** Put back and run again, the job inserts its row once more. */
  lemma RunAgain(c: Classifier, s: State, name: string, data: Bytes, batch: Uuid) returns (s': State)
    requires SlashFree(name) && WellFormed(c(data)) && Taken(c, s, batch, name, data)
    ensures Taken(c, s', batch, name, data)
    ensures s'.w.predictions == s.w.predictions + [PredictionOf(I.JobFor(batch, name), c(data))]
  {
    var again := Apply(c, s, Rerun(0));
    assert again.runs[|s.runs|] == RunRecord(0, N.Downloading, None);
    s' := RunLeads(c, again, |s.runs|, N.NO_RUN_FAULTS);
    RunAdds(c, s.w, batch, name, data);
    Step(c, s, Rerun(0), again, s');
    ReachOn(c, s, s');
  }

  /** Run `n` times, a job leaves `n` copies of its row: nothing makes a second run differ from a first. */
  lemma {:induction false} RunTimes(c: Classifier, name: string, data: Bytes, batch: Uuid, n: nat) returns (s: State)
    requires name != "" && SlashFree(name) && I.Acceptable(name, data) && WellFormed(c(data)) && n > 0
    ensures Taken(c, s, batch, name, data)
    ensures s.w.predictions == Copies(PredictionOf(I.JobFor(batch, name), c(data)), n)
    decreases n
  {
    if n == 1 {
      s := RunOnce(c, name, data, batch);
    } else {
      var before := RunTimes(c, name, data, batch, n - 1);
      s := RunAgain(c, before, name, data, batch);
    }
  }

  lemma {:induction false} CopiesCount(row: Prediction, n: nat)
    ensures |Copies(row, n)| == n && (forall i | 0 <= i < n :: Copies(row, n)[i] == row)
  {
    if n > 0 {
      CopiesCount(row, n - 1);
    }
  }

  /** For any number: a reachable state in which a document's batch has that many predictions, all the same. */
  lemma AnyNumberOfPredictions(c: Classifier, name: string, data: Bytes, batch: Uuid, n: nat) returns (s: State)
    requires name != "" && SlashFree(name) && I.Acceptable(name, data) && WellFormed(c(data)) && n > 0
    ensures Reachable(c, s) && |s.w.predictions| == n
    ensures forall p | 0 <= p < n ::
      s.w.predictions[p] == PredictionOf(I.JobFor(batch, name), c(data)) && p in PredictionsOf(s.w.predictions, batch)
  {
    s := RunTimes(c, name, data, batch, n);
    CopiesCount(PredictionOf(I.JobFor(batch, name), c(data)), n);
  }
}

/**
 * The inference worker as a step machine: one step per external call of run_inference and of
 * save_prediction_and_complete_batch, which commits twice.
 */
module Inference {
  import opened Prelude
  import opened Keys
  import opened World

  datatype RunPc =
    | Downloading
    | Drawing(data: Bytes)          // classified; about to upload the overlay
    | Creating(data: Bytes)         // about to insert and commit the prediction
    | Completing(pid: nat)          // about to commit status done
    | Evicting(pid: nat)            // about to invalidate the caches
    | Finished(pid: nat)
    | Aborted

  function Overlaid(c: Classifier, w: World, job: Job, data: Bytes): World {
    w.(bucket := w.bucket[OverlayKey(job.batch, job.filename) := c(data).overlay])
  }

  /** The first commit: the insert, made inside PredictionRepository.create. */
  function Created(c: Classifier, w: World, job: Job, data: Bytes): World
    requires WellFormed(c(data))
  {
    Commit(w, [AddPrediction(PredictionOf(job, c(data)))])
  }

  /** The second commit: the status flip. */
  function Completed(w: World, job: Job): World {
    Commit(w, [UpdateStatus(job.batch, Done)])
  }

  function RunStep(c: Classifier, w: World, job: Job, pc: RunPc, o: Outcome): (World, RunPc) {
    match pc
    case Downloading =>
      // the classifier runs on the downloaded bytes before anything is uploaded
      if o != Ok || job.blobKey !in w.bucket || !c(w.bucket[job.blobKey]).decodes then (w, Aborted)
      else (w, Drawing(w.bucket[job.blobKey]))
    case Drawing(data) =>
      (if o.Landed() then Overlaid(c, w, job, data) else w, if o == Ok then Creating(data) else Aborted)
    case Creating(data) =>
      // a label outside the taxonomy, a confidence outside [0, 1] or a missing batch row raises before the commit
      if !WellFormed(c(data)) || job.batch !in w.batches then (w, Aborted)
      else (if o.Landed() then Created(c, w, job, data) else w,
            if o == Ok then Completing(|w.predictions|) else Aborted)
    case Completing(pid) =>
      (if o.Landed() then Completed(w, job) else w, if o == Ok then Evicting(pid) else Aborted)
    case Evicting(pid) => (w, if o == Ok then Finished(pid) else Aborted)
    case Finished(_) => (w, pc)
    case Aborted => (w, pc)
  }

  function RunRank(pc: RunPc): nat {
    match pc
    case Downloading => 5
    case Drawing(_) => 4
    case Creating(_) => 3
    case Completing(_) => 2
    case Evicting(_) => 1
    case Finished(_) => 0
    case Aborted => 0
  }

  datatype RunFaults = RunFaults(download: Outcome, upload: Outcome, create: Outcome, complete: Outcome, evict: Outcome)

  const NO_RUN_FAULTS := RunFaults(Ok, Ok, Ok, Ok, Ok)

  function RunFaultAt(f: RunFaults, pc: RunPc): Outcome {
    match pc
    case Downloading => f.download
    case Drawing(_) => f.upload
    case Creating(_) => f.create
    case Completing(_) => f.complete
    case Evicting(_) => f.evict
    case Finished(_) => Ok
    case Aborted => Ok
  }

  /** The rest of a run when nothing else happens meanwhile. */
  function Run(c: Classifier, w: World, job: Job, pc: RunPc, f: RunFaults): (World, RunPc)
    decreases RunRank(pc)
  {
    if RunRank(pc) == 0 then (w, pc)
    else
      var (w', pc') := RunStep(c, w, job, pc, RunFaultAt(f, pc));
      Run(c, w', job, pc', f)
  }

  lemma RunUnrolls(c: Classifier, w: World, job: Job, pc: RunPc, f: RunFaults, w': World, pc': RunPc)
    requires RunRank(pc) > 0 && RunStep(c, w, job, pc, RunFaultAt(f, pc)) == (w', pc')
    ensures Run(c, w, job, pc, f) == Run(c, w', job, pc', f)
  {
  }

  // ---------------------------------------------------------------- what a run leaves, said of the verdict's fields

  /** Each write lands if its call does, and is tried only after the calls before it returned. */
  function Processed(w: World, job: Job, v: Verdict, f: RunFaults): World {
    var checked := f.upload == Ok && v.docLabel.Some? && 0.0 <= v.confidence <= 1.0 && job.batch in w.batches;
    var overlay := "batches/" + job.batch + "/overlays/" + Stem(job.filename) + ".overlay.png";
    w.(bucket := if f.upload.Landed() then w.bucket[overlay := v.overlay] else w.bucket,
       predictions :=
         if checked && f.create.Landed()
         then w.predictions + [Prediction(job.batch, job.filename, v.docLabel.value, v.confidence,
                                          Some("s3://documents/" + overlay))]
         else w.predictions,
       batches :=
         if checked && f.create == Ok && f.complete.Landed()
         then w.batches[job.batch := w.batches[job.batch].(status := Done)] else w.batches)
  }

  /**
   * What any run leaves, for every pattern of failures: nothing at all if the object cannot be read or does not decode.
   * It finishes exactly when no call fails, object and batch are there, and the verdict is one of the classes with a
   * confidence between 0 and 1.
   */
  lemma RunExactly(c: Classifier, w: World, job: Job, f: RunFaults)
    ensures var (w', pc') := Run(c, w, job, Downloading, f);
      if f.download == Ok && job.blobKey in w.bucket && c(w.bucket[job.blobKey]).decodes then
        var v := c(w.bucket[job.blobKey]);
        && w' == Processed(w, job, v, f)
        && (pc'.Finished? <==>
              && f == NO_RUN_FAULTS && job.batch in w.batches
              && v.docLabel.Some? && 0.0 <= v.confidence <= 1.0)
      else w' == w && pc' == Aborted
  {
    if f.download == Ok && job.blobKey in w.bucket && c(w.bucket[job.blobKey]).decodes {
      var data := w.bucket[job.blobKey];
      RunUnrolls(c, w, job, Downloading, f, w, Drawing(data));
      var w1 := Overlaid(c, w, job, data);
      if f.upload == Ok {
        RunUnrolls(c, w, job, Drawing(data), f, w1, Creating(data));
        RunFromCreate(c, w1, job, data, f);
      } else {
        RunUnrolls(c, w, job, Drawing(data), f, if f.upload.Landed() then w1 else w, Aborted);
      }
    } else {
      RunUnrolls(c, w, job, Downloading, f, w, Aborted);
    }
  }

  lemma RunFromCreate(c: Classifier, w: World, job: Job, data: Bytes, f: RunFaults)
    ensures var (w', pc') := Run(c, w, job, Creating(data), f);
      if WellFormed(c(data)) && job.batch in w.batches then
        && (f.create == Lost ==> w' == w)
        && (f.create.Landed() ==>
              w' == w.(predictions := w.predictions + [PredictionOf(job, c(data))],
                       batches := if f.create == Ok && f.complete.Landed()
                         then w.batches[job.batch := w.batches[job.batch].(status := Done)] else w.batches))
        && (pc'.Finished? <==> f.create == Ok && f.complete == Ok && f.evict == Ok)
      else w' == w && pc' == Aborted
  {
    if WellFormed(c(data)) && job.batch in w.batches {
      CommitOne(w, AddPrediction(PredictionOf(job, c(data))));
      var w1 := Created(c, w, job, data);
      if f.create == Ok {
        RunUnrolls(c, w, job, Creating(data), f, w1, Completing(|w.predictions|));
        RunFromComplete(c, w1, job, |w.predictions|, f);
      } else {
        RunUnrolls(c, w, job, Creating(data), f, if f.create.Landed() then w1 else w, Aborted);
      }
    } else {
      RunUnrolls(c, w, job, Creating(data), f, w, Aborted);
    }
  }

  lemma RunFromComplete(c: Classifier, w: World, job: Job, pid: nat, f: RunFaults)
    requires job.batch in w.batches
    ensures var (w', pc') := Run(c, w, job, Completing(pid), f);
      && w' == (if f.complete.Landed()
                then w.(batches := w.batches[job.batch := w.batches[job.batch].(status := Done)]) else w)
      && (pc'.Finished? <==> f.complete == Ok && f.evict == Ok)
  {
    CommitOne(w, UpdateStatus(job.batch, Done));
    var w1 := Completed(w, job);
    if f.complete == Ok {
      RunUnrolls(c, w, job, Completing(pid), f, w1, Evicting(pid));
      RunUnrolls(c, w1, job, Evicting(pid), f, w1, if f.evict == Ok then Finished(pid) else Aborted);
    } else {
      RunUnrolls(c, w, job, Completing(pid), f, if f.complete.Landed() then w1 else w, Aborted);
    }
  }

  /**
   * How far a run gets when nothing else happens meanwhile: it ends complete, with the prediction committed and the
   * batch still as it was, or with no prediction. No failure leaves the batch done without its prediction. Bytes that
   * do not decode leave no trace.
   */
  lemma RunOutcome(c: Classifier, w: World, job: Job, f: RunFaults)
    requires job.batch in w.batches
    ensures var (w', pc') := Run(c, w, job, Downloading, f);
      && (w'.predictions == w.predictions ==> w'.batches == w.batches)
      && (w'.predictions != w.predictions ==>
            && job.blobKey in w.bucket
            && var v := c(w.bucket[job.blobKey]);
               && v.decodes && v.docLabel.Some? && 0.0 <= v.confidence <= 1.0
               && w'.predictions == w.predictions + [Prediction(job.batch, job.filename, v.docLabel.value, v.confidence,
                                                                Some(Uri(OverlayKey(job.batch, job.filename))))]
               && w'.batches in {w.batches, w.batches[job.batch := w.batches[job.batch].(status := Done)]})
      && (pc'.Finished? ==>
            && w'.predictions != w.predictions
            && w'.batches == w.batches[job.batch := w.batches[job.batch].(status := Done)])
      && (pc'.Finished? <==>
            && f == NO_RUN_FAULTS && job.blobKey in w.bucket
            && var v := c(w.bucket[job.blobKey]); v.decodes && v.docLabel.Some? && 0.0 <= v.confidence <= 1.0)
      && (job.blobKey in w.bucket && !c(w.bucket[job.blobKey]).decodes ==> w' == w)
  {
    RunExactly(c, w, job, f);
  }
}

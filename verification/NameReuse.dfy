/**
 * Why names must not come back while a job for them is waiting: object keys are bare file names, so the later document
 * replaces the bytes the earlier job is about to read.
 */
module NameReuse {
  import opened Prelude
  import opened Keys
  import opened World
  import opened System
  import opened Refinement
  import opened Safety
  import I = Ingest
  import N = Inference
  import P = Polling

  /** The scanner drops the file and the worker takes it in, with nothing failing. */
  lemma Ingested(c: Classifier, s: State, name: string, data: Bytes, newId: Uuid) returns (s': State)
    requires s.ingest.Idle? && newId !in s.w.batches && UploadPath(name) !in s.w.files
    requires name != "" && SlashFree(name) && I.Acceptable(name, data)
    ensures Leads(c, s, s') && s'.ingest.Idle?
    ensures s'.w == s.w.(files := s'.w.files,
                         bucket := s.w.bucket[name := data],
                         batches := s.w.batches[newId := I.NewBatch(UploadPath(name), None)],
                         jobs := s.w.jobs + [I.JobFor(newId, name)])
    ensures UploadPath(name) !in s'.w.files && s'.requests == s.requests
  {
    var s1 := Apply(c, s, Arrive(name, data));
    TakenIn(s1.w, name, data, newId);
    s' := ProcessOneLeads(c, s1, name, I.NO_FAULTS, newId);
    Step(c, s, Arrive(name, data), s1, s');
  }

  lemma TakenIn(w: World, name: string, data: Bytes, newId: Uuid)
    requires name != "" && SlashFree(name) && I.Acceptable(name, data)
    requires UploadPath(name) in w.files && w.files[UploadPath(name)] == data
    ensures I.Attempt(w, I.Start(name), I.NO_FAULTS, newId) ==
      w.(files := I.Without(w.files, UploadPath(name)),
         bucket := w.bucket[name := data],
         batches := w.batches[newId := I.NewBatch(UploadPath(name), None)],
         jobs := w.jobs + [I.JobFor(newId, name)])
  {
    BareBasename(name);
    I.AcceptedAttempt(w, name, I.NO_FAULTS, newId);
  }

  /**
   * The first document is stored, recorded and queued in state `early`; after a second one of the same name has
   * arrived, the first one's batch is done with a prediction made from the second one's bytes.
   */
  lemma LaterBytesAreRead(c: Classifier, name: string, first: Bytes, second: Bytes, id1: Uuid, id2: Uuid)
    returns (early: State, s: State)
    requires name != "" && SlashFree(name) && I.Acceptable(name, first) && I.Acceptable(name, second)
    requires id1 != id2 && WellFormed(c(second))
    ensures Reachable(c, early) && I.HandedOver(early.w, name, first, id1)
    ensures Reachable(c, s) && Leads(c, early, s)
    ensures id1 in s.w.batches && s.w.batches[id1].status == Done
    ensures s.w.predictions == [PredictionOf(I.JobFor(id1, name), c(second))]
  {
    var start := Init(map[]);
    assert Legal(c, start, []) && start == Exec(c, start, []);
    early := Ingested(c, start, name, first, id1);
    ReachOn(c, start, early);
    assert early.w.jobs == [I.JobFor(id1, name)];
    var later := Ingested(c, early, name, second, id2);
    assert later.w.jobs[0] == I.JobFor(id1, name);
    s := TakenJobLeads(c, later, N.NO_RUN_FAULTS);
    N.RunOutcome(c, later.w.(head := 1), later.w.jobs[0], N.NO_RUN_FAULTS);
    Compose(c, early, later, s);
    ReachOn(c, early, s);
  }

  // ---------------------------------------------------------------- a name that is in quarantine already

  /** The scanner drops a suspicious file whose place in quarantine is free, and the worker moves it there. */
  lemma QuarantinedFrom(c: Classifier, s: State, name: string, data: Bytes, newId: Uuid) returns (s': State)
    requires s.ingest.Idle? && newId !in s.w.batches && UploadPath(name) !in s.w.files
    requires QuarantinePath(name) !in s.w.files
    requires name != "" && SlashFree(name) && I.Suspicious(name, data)
    ensures Leads(c, s, s') && s'.ingest.Idle? && UploadPath(name) !in s'.w.files && QuarantinePath(name) in s'.w.files
  {
    var s1 := Apply(c, s, Arrive(name, data));
    P.PathsOf(name, name);
    BareBasename(name);
    s' := ProcessOneLeads(c, s1, name, I.NO_FAULTS, newId);
    I.QuarantinedAttempt(s1.w, name, I.NO_FAULTS, newId);
    Step(c, s, Arrive(name, data), s1, s');
  }

  /** A suspicious file dropped again under a name that is in quarantine: a blocked file, in a state that is reached. */
  lemma BlockedIsReached(c: Classifier, name: string, first: Bytes, second: Bytes, newId: Uuid) returns (s: State)
    requires name != "" && SlashFree(name) && I.Suspicious(name, first) && I.Suspicious(name, second)
    ensures Reachable(c, s) && P.Blocked(s.w, name)
  {
    var start := Init(map[]);
    assert Legal(c, start, []) && start == Exec(c, start, []);
    var moved := QuarantinedFrom(c, start, name, first, newId);
    s := Apply(c, moved, Arrive(name, second));
    P.PathsOf(name, name);
    Stay(c, s);
    Step(c, moved, Arrive(name, second), s, s);
    Compose(c, start, moved, s);
    ReachOn(c, start, s);
  }
}

/**
 * Smooth runs: the two workers meet no failure and no file name is used twice. Demo calls and API requests of every
 * kind may come at any time and may fail anywhere. The invariant says where each drop, job and run then stands.
 */
module SmoothRuns {
  import opened Prelude
  import opened Keys
  import opened World
  import opened System
  import I = Ingest
  import N = Inference
  import D = Demo
  import Q = Requests
  import Docs = Documents
  import L = Lineage
  import B = Births
  import V = Provenance
  import Safety

  // ---------------------------------------------------------------- smooth runs

  /** A file arrives under a new name, a worker takes a step without failure, or the API does anything at all. */
  predicate SmoothAction(s: State, a: Action) {
    match a
    case Arrive(name, _) => name !in s.h.current
    case Begin(raw) => SlashFree(raw) && UploadPath(raw) in s.w.files
    case IngestCall(o, _) => o == Ok
    case RunCall(_, o) => o == Ok
    case Rerun(_) => false
    case _ => true
  }

  predicate Smooth(c: Classifier, s: State, acts: seq<Action>)
    requires Legal(c, s, acts)
    decreases |acts|
  {
    acts == [] || (SmoothAction(s, acts[0]) && Smooth(c, Apply(c, s, acts[0]), acts[1..]))
  }

  /** The workers have nothing left to do. */
  predicate AtRest(s: State) {
    && s.ingest.Idle? && Waiting(s.w.files) == {} && s.w.head == |s.w.jobs|
    && forall r | 0 <= r < |s.runs| :: N.RunRank(s.runs[r].pc) == 0
  }

  predicate InUploadDir(path: string) {
    StartsWith(path, UPLOAD_DIR)
  }

  function Waiting(files: map<string, Bytes>): set<string> {
    set path | path in files && InUploadDir(path)
  }

  /** Somebody asked to relabel this prediction, whatever came of it. */
  predicate RelabelAsked(requests: seq<Q.Request>, p: nat) {
    exists q :: 0 <= q < |requests| && requests[q].kind.RelabelPrediction? && requests[q].kind.pid == p
  }

  /** Somebody asked to change this batch's status, whatever came of it. */
  predicate PatchAsked(requests: seq<Q.Request>, b: Uuid) {
    exists q :: 0 <= q < |requests| && requests[q].kind.PatchBatch? && requests[q].kind.batch == b
  }

  // ---------------------------------------------------------------- the invariant of smooth runs

  predicate NamesDistinct(drops: seq<Drop>) {
    forall d, e | 0 <= d < e < |drops| :: drops[d].name != drops[e].name
  }

  /** Each job has been taken once, in order. */
  predicate RunsInOrder(runs: seq<RunRecord>, head: nat) {
    |runs| == head && forall r | 0 <= r < |runs| :: runs[r].job == r
  }

  /** A file is in /upload or in quarantine, not both. */
  ghost predicate Exclusive(files: map<string, Bytes>, current: map<string, nat>) {
    forall name | QuarantinePath(name) in files :: UploadPath(name) !in files && name in current
  }

  predicate SuspectKept(files: map<string, Bytes>, drop: Drop) {
    UploadPath(drop.name) in files ||
    (QuarantinePath(drop.name) in files && files[QuarantinePath(drop.name)] == drop.data)
  }

  /** Suspicious contents are in one of the two. */
  predicate SuspectsKept(files: map<string, Bytes>, drops: seq<Drop>) {
    forall d | 0 <= d < |drops| && I.Suspicious(drops[d].name, drops[d].data) :: SuspectKept(files, drops[d])
  }

  /** The path is not one of an uploaded file. */
  predicate IsDemoPath(path: string) {
    |path| > 1 && path[1] == 'd'
  }

  /** A batch was made for a drop or for a demo call. */
  predicate BatchesMade(origin: map<Uuid, nat>, batches: map<Uuid, Batch>) {
    origin.Keys <= batches.Keys && forall b | b in batches && b !in origin :: IsDemoPath(batches[b].path)
  }

  /** No two batches were made for one drop, and only the one at hand while the file still lies there. */
  predicate OriginsExact(files: map<string, Bytes>, h: History, pc: I.IngestPc) {
    && (forall b1, b2 | b1 in h.origin && b2 in h.origin && b1 != b2 :: h.origin[b1] != h.origin[b2])
    && (forall b | b in h.origin && h.origin[b] < |h.drops| && UploadPath(h.drops[h.origin[b]].name) in files ::
          (pc.Enqueuing? && pc.batch == b) || (pc.Finishing? && pc.name == h.drops[h.origin[b]].name))
  }

  /** Rows nobody asked to relabel are as they were inserted. */
  predicate RowsAsBorn(predictions: seq<Prediction>, born: seq<Birth>, requests: seq<Q.Request>) {
    && |born| == |predictions|
    && forall p | 0 <= p < |predictions| && !RelabelAsked(requests, p) :: predictions[p] == born[p].row
  }

  /** An aborted run made nothing. */
  predicate RunsAllOrNothing(runs: seq<RunRecord>) {
    forall r | 0 <= r < |runs| && runs[r].pc.Aborted? :: runs[r].made == None
  }

  /** A drop's job aborts only over a verdict on the drop that cannot be stored. */
  predicate JobOnTrack(c: Classifier, job: Job, run: RunRecord, h: History) {
    run.pc.Aborted? && job.batch in h.origin && h.origin[job.batch] < |h.drops| ==>
      !WellFormed(c(h.drops[h.origin[job.batch]].data))
  }

  predicate JobsOnTrack(c: Classifier, jobs: seq<Job>, runs: seq<RunRecord>, h: History) {
    forall j | 0 <= j < |jobs| && j < |runs| :: JobOnTrack(c, jobs[j], runs[j], h)
  }

  /** The status the worker has given its batch so far. */
  function StatusByRun(pc: N.RunPc): BatchStatus {
    if pc.Evicting? || pc.Finished? then Done else Pending
  }

  /** A batch nobody asked to patch has the status its job's run gave it; until the run starts it is pending. */
  predicate StatusOnTrack(batches: map<Uuid, Batch>, job: Job, j: nat, runs: seq<RunRecord>, requests: seq<Q.Request>) {
    job.batch in batches && !PatchAsked(requests, job.batch) ==>
      batches[job.batch].status == if j < |runs| then StatusByRun(runs[j].pc) else Pending
  }

  predicate StatusesOnTrack(batches: map<Uuid, Batch>, jobs: seq<Job>, runs: seq<RunRecord>, requests: seq<Q.Request>) {
    forall j | 0 <= j < |jobs| :: StatusOnTrack(batches, jobs[j], j, runs, requests)
  }

  /** So it is before its job is queued. */
  predicate UnqueuedPending(batches: map<Uuid, Batch>, jobs: seq<Job>, requests: seq<Q.Request>) {
    forall b | b in batches && b !in L.JobBatches(jobs) && !PatchAsked(requests, b) :: batches[b].status == Pending
  }

  predicate SizingThere(files: map<string, Bytes>, pc: I.IngestPc) {
    pc.Sizing? ==> UploadPath(pc.name) in files
  }

  /** The part of the invariant about files and drops. */
  ghost predicate FilesOnTrack(s: State) {
    && NamesDistinct(s.h.drops)
    && Exclusive(s.w.files, s.h.current)
    && SuspectsKept(s.w.files, s.h.drops)
    && OriginsExact(s.w.files, s.h, s.ingest)
    && SizingThere(s.w.files, s.ingest)
  }

  /** The part about batches, jobs and runs. */
  predicate WorkOnTrack(c: Classifier, s: State) {
    && BatchesMade(s.h.origin, s.w.batches)
    && RunsInOrder(s.runs, s.w.head) && RunsAllOrNothing(s.runs)
    && JobsOnTrack(c, s.w.jobs, s.runs, s.h)
    && StatusesOnTrack(s.w.batches, s.w.jobs, s.runs, s.requests)
    && UnqueuedPending(s.w.batches, s.w.jobs, s.requests)
    && RowsAsBorn(s.w.predictions, s.h.born, s.requests)
  }

  ghost predicate Inv(c: Classifier, s: State) {
    FilesOnTrack(s) && WorkOnTrack(c, s)
  }

  lemma FilesSame(s: State, s': State)
    requires FilesOnTrack(s) && s'.w.files == s.w.files && s'.ingest == s.ingest
    requires s'.h.drops == s.h.drops && s'.h.current == s.h.current && s'.h.origin == s.h.origin
    ensures FilesOnTrack(s')
  {
  }

  // ---------------------------------------------------------------- the scanner

  lemma ArriveKeeps(c: Classifier, s: State, name: string, data: Bytes, s': State)
    requires Inv(c, s) && name !in s.h.current && Docs.Inv(s)
    requires s' == s.(w := s.w.(files := s.w.files[UploadPath(name) := data]), h := ArriveHistory(s.h, name, data))
    ensures Inv(c, s')
  {
    ArriveFiles(s, name, data, s');
    ArriveWork(c, s, name, data, s');
  }

  lemma ArriveFiles(s: State, name: string, data: Bytes, s': State)
    requires FilesOnTrack(s) && name !in s.h.current && Docs.DropsIndexed(s.h.drops, s.h.current)
    requires Docs.OriginsKnown(s.h.drops, s.h.stored, s.h.origin, s.w.batches)
    requires s' == s.(w := s.w.(files := s.w.files[UploadPath(name) := data]), h := ArriveHistory(s.h, name, data))
    ensures FilesOnTrack(s')
  {
    ArriveExclusive(s.w.files, s.h, name, data);
    ArriveSuspects(s.w.files, s.h.drops, name, data);
    ArriveNames(s.h, name, data);
    ArriveOrigins(s.w.files, s.h, s.w.batches, s.ingest, name, data);
  }

  lemma ArriveWork(c: Classifier, s: State, name: string, data: Bytes, s': State)
    requires WorkOnTrack(c, s) && Docs.OriginsKnown(s.h.drops, s.h.stored, s.h.origin, s.w.batches)
    requires s' == s.(w := s.w.(files := s.w.files[UploadPath(name) := data]), h := ArriveHistory(s.h, name, data))
    ensures WorkOnTrack(c, s')
  {
    ArriveJobs(c, s.w.jobs, s.runs, s.h, name, data);
  }

  lemma ArriveExclusive(files: map<string, Bytes>, h: History, name: string, data: Bytes)
    requires Exclusive(files, h.current) && name !in h.current
    ensures Exclusive(files[UploadPath(name) := data], ArriveHistory(h, name, data).current)
  {
  }

  lemma ArriveSuspects(files: map<string, Bytes>, drops: seq<Drop>, name: string, data: Bytes)
    requires SuspectsKept(files, drops)
    ensures SuspectsKept(files[UploadPath(name) := data], drops + [Drop(name, data)])
  {
  }

  lemma ArriveNames(h: History, name: string, data: Bytes)
    requires NamesDistinct(h.drops) && Docs.DropsIndexed(h.drops, h.current) && name !in h.current
    ensures NamesDistinct(h.drops + [Drop(name, data)])
  {
  }

  lemma ArriveOrigins(files: map<string, Bytes>, h: History, batches: map<Uuid, Batch>, pc: I.IngestPc, name: string,
                      data: Bytes)
    requires OriginsExact(files, h, pc) && name !in h.current
    requires Docs.DropsIndexed(h.drops, h.current) && Docs.OriginsKnown(h.drops, h.stored, h.origin, batches)
    ensures OriginsExact(files[UploadPath(name) := data], ArriveHistory(h, name, data), pc)
  {
  }

  lemma ArriveJobs(c: Classifier, jobs: seq<Job>, runs: seq<RunRecord>, h: History, name: string, data: Bytes)
    requires JobsOnTrack(c, jobs, runs, h) && forall b | b in h.origin :: h.origin[b] < |h.drops|
    ensures JobsOnTrack(c, jobs, runs, ArriveHistory(h, name, data))
  {
  }

  // ---------------------------------------------------------------- the ingest worker

  /** The shape of each undisturbed ingest call, in place of its definition. */
  ghost predicate IngestOk(s: State, newId: Uuid, s': State) {
    match s.ingest
    case Idle => s' == s
    case Sizing(name) =>
      s' == s.(ingest := s'.ingest)
      && (s'.ingest == I.Removing(name) || s'.ingest == I.Peeking(name))
    case Peeking(name) =>
      s' == s.(ingest := s'.ingest)
      && (s'.ingest == I.Reading(name) || s'.ingest == I.Quarantining(name))
    case Reading(name) =>
      s' == s.(ingest := s'.ingest) && UploadPath(name) in s.w.files
      && s'.ingest == I.Uploading(name, s.w.files[UploadPath(name)])
    case Removing(name) => s' == s.(w := s.w.(files := Gone(s.w.files, name, false)), ingest := I.Idle)
    case Finishing(name) => s' == s.(w := s.w.(files := Gone(s.w.files, name, false)), ingest := I.Idle)
    case Quarantining(name) => s' == s.(w := s.w.(files := Gone(s.w.files, name, true)), ingest := I.Idle)
    case Uploading(name, data) =>
      s' == s.(w := s.w.(bucket := s'.w.bucket), ingest := I.Saving(name), h := s.h.(stored := s'.h.stored))
    case Saving(name) =>
      name in s.h.current &&
      s' == s.(w := s.w.(batches := s.w.batches[newId := I.NewBatch(UploadPath(name), None)]),
               ingest := I.Enqueuing(name, newId),
               h := s.h.(origin := s.h.origin[newId := s.h.current[name]]))
    case Enqueuing(name, batch) =>
      s' == s.(w := s.w.(jobs := s.w.jobs + [I.JobFor(batch, name)]), ingest := I.Finishing(name))
  }

  lemma IngestOkHolds(c: Classifier, s: State, newId: Uuid, s': State)
    requires Docs.Inv(s) && Enabled(s, IngestCall(Ok, newId)) && s' == Apply(c, s, IngestCall(Ok, newId))
    requires SizingThere(s.w.files, s.ingest)
    requires s.ingest.Quarantining? ==> QuarantinePath(s.ingest.name) !in s.w.files
    ensures IngestOk(s, newId, s')
  {
    if s.ingest.Removing? || s.ingest.Finishing? || s.ingest.Quarantining? {
      GoneOkHolds(c, s, newId, s');
    } else if s.ingest.Uploading? || s.ingest.Saving? || s.ingest.Enqueuing? {
      StoringOkHolds(c, s, newId, s');
    } else if s.ingest.Sizing? {
      Docs.SizingDecides(s.w, s.ingest.name, Ok, newId);
    }
  }

  lemma GoneOkHolds(c: Classifier, s: State, newId: Uuid, s': State)
    requires Docs.WorkerKnows(s.ingest, s.w, s.h)
    requires Enabled(s, IngestCall(Ok, newId)) && s' == Apply(c, s, IngestCall(Ok, newId))
    requires s.ingest.Removing? || s.ingest.Finishing? || s.ingest.Quarantining?
    requires s.ingest.Quarantining? ==> QuarantinePath(s.ingest.name) !in s.w.files
    ensures IngestOk(s, newId, s')
  {
  }

  lemma StoringOkHolds(c: Classifier, s: State, newId: Uuid, s': State)
    requires Docs.WorkerKnows(s.ingest, s.w, s.h)
    requires Enabled(s, IngestCall(Ok, newId)) && s' == Apply(c, s, IngestCall(Ok, newId))
    requires s.ingest.Uploading? || s.ingest.Saving? || s.ingest.Enqueuing?
    ensures IngestOk(s, newId, s')
  {
    if s.ingest.Saving? {
      CommitOne(s.w, AddBatch(newId, I.NewBatch(UploadPath(s.ingest.name), None)));
    }
  }

  /** What becomes of the files when one leaves /upload, for good or for quarantine. */
  function Gone(files: map<string, Bytes>, name: string, quarantined: bool): map<string, Bytes> {
    if quarantined && UploadPath(name) in files
    then I.Without(files, UploadPath(name))[QuarantinePath(name) := files[UploadPath(name)]]
    else I.Without(files, UploadPath(name))
  }

  lemma GoneExclusive(files: map<string, Bytes>, current: map<string, nat>, name: string, quarantined: bool)
    requires Exclusive(files, current) && name in current
    ensures Exclusive(Gone(files, name, quarantined), current)
  {
  }

  lemma GoneSuspects(files: map<string, Bytes>, drops: seq<Drop>, name: string, quarantined: bool, at: nat)
    requires SuspectsKept(files, drops) && NamesDistinct(drops) && at < |drops| && drops[at].name == name
    requires UploadPath(name) in files && files[UploadPath(name)] == drops[at].data
    requires quarantined || !I.Suspicious(name, drops[at].data)
    ensures SuspectsKept(Gone(files, name, quarantined), drops)
  {
  }

  /** Once its file is gone, nothing ties the worker to the batch it made. */
  lemma GoneOrigins(files: map<string, Bytes>, h: History, pc: I.IngestPc, quarantined: bool)
    requires OriginsExact(files, h, pc) && (pc.Removing? || pc.Quarantining? || pc.Finishing?)
    ensures OriginsExact(Gone(files, pc.name, quarantined), h, I.Idle)
  {
  }

  lemma FileGone(s: State, quarantined: bool, files': map<string, Bytes>)
    requires FilesOnTrack(s) && Docs.Inv(s) && (s.ingest.Removing? || s.ingest.Finishing? || s.ingest.Quarantining?)
    requires quarantined == s.ingest.Quarantining? && files' == Gone(s.w.files, s.ingest.name, quarantined)
    ensures FilesOnTrack(s.(w := s.w.(files := files'), ingest := I.Idle))
  {
    var name := s.ingest.name;
    GoneExclusive(s.w.files, s.h.current, name, quarantined);
    NotSuspicious(s);
    GoneSuspects(s.w.files, s.h.drops, name, quarantined, s.h.current[name]);
    GoneOrigins(s.w.files, s.h, s.ingest, quarantined);
  }

  lemma NotSuspicious(s: State)
    requires Docs.Inv(s) && (s.ingest.Removing? || s.ingest.Finishing?  || s.ingest.Quarantining?)
    ensures Docs.AtFile(s.w.files, s.h, s.ingest.name)
    ensures s.w.files[UploadPath(s.ingest.name)] == s.h.drops[s.h.current[s.ingest.name]].data
    ensures s.h.drops[s.h.current[s.ingest.name]].name == s.ingest.name
    ensures s.ingest.Quarantining? || !I.Suspicious(s.ingest.name, s.w.files[UploadPath(s.ingest.name)])
  {
  }

  /** The batch row is committed: the first for its drop. */
  lemma SavingKeeps(c: Classifier, s: State, newId: Uuid, s': State)
    requires Inv(c, s) && Docs.Inv(s) && L.Inv(s) && newId !in s.w.batches && s.ingest.Saving? && IngestOk(s, newId, s')
    ensures Inv(c, s')
  {
    var d := s.h.current[s.ingest.name];
    assert UploadPath(s.h.drops[d].name) in s.w.files;
    assert newId !in s.h.origin;
    SavingOrigins(s.w.files, s.h, s.ingest.name, newId);
    SavingWork(c, s, newId, d, s.w.batches[newId := I.NewBatch(UploadPath(s.ingest.name), None)]);
  }

  lemma SavingOrigins(files: map<string, Bytes>, h: History, name: string, newId: Uuid)
    requires OriginsExact(files, h, I.Saving(name)) && newId !in h.origin
    requires name in h.current && h.current[name] < |h.drops| && h.drops[h.current[name]].name == name
    requires UploadPath(name) in files
    ensures OriginsExact(files, h.(origin := h.origin[newId := h.current[name]]), I.Enqueuing(name, newId))
  {
  }

  lemma SavingWork(c: Classifier, s: State, newId: Uuid, d: nat, batches': map<Uuid, Batch>)
    requires WorkOnTrack(c, s) && L.Inv(s) && newId !in s.w.batches
    requires newId in batches' && batches'[newId].status == Pending && batches' == s.w.batches[newId := batches'[newId]]
    ensures WorkOnTrack(c, s.(w := s.w.(batches := batches'), h := s.h.(origin := s.h.origin[newId := d])))
  {
    CarriedExist(s);
    NewBatchPending(s.w.batches, s.w.jobs, s.runs, s.requests, newId, batches');
    NewOrigin(c, s.w.jobs, s.runs, s.h, newId, d);
  }

  /** A new pending batch, which no job names. */
  lemma NewBatchPending(batches: map<Uuid, Batch>, jobs: seq<Job>, runs: seq<RunRecord>, requests: seq<Q.Request>,
                        newId: Uuid, batches': map<Uuid, Batch>)
    requires StatusesOnTrack(batches, jobs, runs, requests) && UnqueuedPending(batches, jobs, requests)
    requires newId in batches' && batches'[newId].status == Pending && batches' == batches[newId := batches'[newId]]
    requires forall j | 0 <= j < |jobs| :: jobs[j].batch != newId
    ensures StatusesOnTrack(batches', jobs, runs, requests) && UnqueuedPending(batches', jobs, requests)
  {
    forall j | 0 <= j < |jobs| ensures StatusOnTrack(batches', jobs[j], j, runs, requests) {
      assert StatusOnTrack(batches, jobs[j], j, runs, requests);
    }
  }

  lemma NewOrigin(c: Classifier, jobs: seq<Job>, runs: seq<RunRecord>, h: History, newId: Uuid, d: nat)
    requires JobsOnTrack(c, jobs, runs, h) && forall j | 0 <= j < |jobs| :: jobs[j].batch != newId
    ensures JobsOnTrack(c, jobs, runs, h.(origin := h.origin[newId := d]))
  {
    var h' := h.(origin := h.origin[newId := d]);
    forall j | 0 <= j < |jobs| && j < |runs| ensures JobOnTrack(c, jobs[j], runs[j], h') {
      assert JobOnTrack(c, jobs[j], runs[j], h);
    }
  }

  /** What is queued or about to be queued has a batch row. */
  lemma CarriedExist(s: State)
    requires L.Inv(s)
    ensures forall j | 0 <= j < |s.w.jobs| :: s.w.jobs[j].batch in s.w.batches
    ensures forall i | 0 <= i < |s.demos| && s.demos[i].Enqueuing? ::
      s.demos[i].batch in s.w.batches && s.demos[i].batch !in L.JobBatches(s.w.jobs)
    ensures s.ingest.Enqueuing? ==> s.ingest.batch in s.w.batches && s.ingest.batch !in L.JobBatches(s.w.jobs)
  {
    forall i | 0 <= i < |s.demos| && s.demos[i].Enqueuing?
      ensures s.demos[i].batch in s.w.batches && s.demos[i].batch !in L.JobBatches(s.w.jobs)
    {
      assert s.demos[i].batch in L.DemosCarry(s.demos);
    }
    assert s.ingest.Enqueuing? ==> s.ingest.batch in L.IngestCarries(s.ingest);
  }

  /** A job is queued, by either producer. */
  lemma QueuedKeeps(c: Classifier, s: State, job: Job, w': World)
    requires WorkOnTrack(c, s) && B.RunsTaken(s.w, s.runs)
    requires job.batch in s.w.batches && job.batch !in L.JobBatches(s.w.jobs) && w' == s.w.(jobs := s.w.jobs + [job])
    ensures WorkOnTrack(c, s.(w := w'))
  {
    L.JobAppended(s.w.jobs, job);
  }

  lemma EnqueuingKeeps(c: Classifier, s: State, newId: Uuid, s': State)
    requires Inv(c, s) && Docs.Inv(s) && L.Inv(s) && B.RunsTaken(s.w, s.runs) && s.ingest.Enqueuing?
    requires IngestOk(s, newId, s')
    ensures Inv(c, s')
  {
    CarriedExist(s);
    QueuedKeeps(c, s, I.JobFor(s.ingest.batch, s.ingest.name), s'.w);
    EnqueuingOrigins(s.w.files, s.h, s.ingest.name, s.ingest.batch);
  }

  lemma EnqueuingOrigins(files: map<string, Bytes>, h: History, name: string, batch: Uuid)
    requires OriginsExact(files, h, I.Enqueuing(name, batch)) && batch in h.origin
    requires name in h.current && h.origin[batch] == h.current[name] < |h.drops|
    requires h.drops[h.current[name]].name == name
    ensures OriginsExact(files, h, I.Finishing(name))
  {
  }

  /** Calls that only move the worker, or only fill the bucket. */
  lemma MovingKeeps(c: Classifier, s: State, newId: Uuid, s': State)
    requires Inv(c, s) && IngestOk(s, newId, s')
    requires s.ingest.Sizing? || s.ingest.Peeking? || s.ingest.Reading? || s.ingest.Uploading?
    ensures Inv(c, s')
  {
    MovingOrigins(s.w.files, s.h, s.ingest, s'.h.stored, s'.ingest);
    StoredIrrelevant(c, s, s'.w.bucket, s'.h.stored, s'.ingest);
  }

  lemma MovingOrigins(files: map<string, Bytes>, h: History, pc: I.IngestPc, stored: map<string, nat>, pc': I.IngestPc)
    requires OriginsExact(files, h, pc) && !pc.Enqueuing? && !pc.Finishing?
    ensures OriginsExact(files, h.(stored := stored), pc')
  {
  }

  lemma StoredIrrelevant(c: Classifier, s: State, bucket: map<string, Bytes>, stored: map<string, nat>, pc: I.IngestPc)
    requires WorkOnTrack(c, s)
    ensures WorkOnTrack(c, s.(w := s.w.(bucket := bucket), h := s.h.(stored := stored), ingest := pc))
  {
  }

  lemma IngestKeeps(c: Classifier, s: State, newId: Uuid, s': State)
    requires Inv(c, s) && Safety.Inv(c, s) && !s.ingest.Idle?
    requires (s.ingest.Saving? ==> newId !in s.w.batches) && IngestOk(s, newId, s')
    ensures Inv(c, s')
  {
    match s.ingest
    case Removing(_) => FileGone(s, false, s'.w.files);
    case Finishing(_) => FileGone(s, false, s'.w.files);
    case Quarantining(_) => FileGone(s, true, s'.w.files);
    case Saving(_) => SavingKeeps(c, s, newId, s');
    case Enqueuing(_, _) => EnqueuingKeeps(c, s, newId, s');
    case _ => MovingKeeps(c, s, newId, s');
  }

  // ---------------------------------------------------------------- the inference workers

  lemma DequeueKeeps(c: Classifier, s: State, s': State)
    requires Inv(c, s) && s.w.head < |s.w.jobs|
    requires s' == s.(w := s.w.(head := s.w.head + 1), runs := s.runs + [RunRecord(s.w.head, N.Downloading, None)])
    ensures Inv(c, s')
  {
    DequeueJobs(c, s.w.jobs, s.runs, s.h, s.w.head);
    DequeueStatuses(s.w.batches, s.w.jobs, s.runs, s.requests, s.w.head);
  }

  lemma DequeueJobs(c: Classifier, jobs: seq<Job>, runs: seq<RunRecord>, h: History, head: nat)
    requires JobsOnTrack(c, jobs, runs, h) && RunsInOrder(runs, head) && RunsAllOrNothing(runs)
    ensures var runs' := runs + [RunRecord(head, N.Downloading, None)];
      JobsOnTrack(c, jobs, runs', h) && RunsInOrder(runs', head + 1) && RunsAllOrNothing(runs')
  {
    var runs' := runs + [RunRecord(head, N.Downloading, None)];
    forall j | 0 <= j < |jobs| && j < |runs'| ensures JobOnTrack(c, jobs[j], runs'[j], h) {
      assert j < |runs| ==> JobOnTrack(c, jobs[j], runs[j], h);
    }
  }

  lemma DequeueStatuses(batches: map<Uuid, Batch>, jobs: seq<Job>, runs: seq<RunRecord>, requests: seq<Q.Request>,
                        head: nat)
    requires StatusesOnTrack(batches, jobs, runs, requests)
    ensures StatusesOnTrack(batches, jobs, runs + [RunRecord(head, N.Downloading, None)], requests)
  {
    forall j | 0 <= j < |jobs|
      ensures StatusOnTrack(batches, jobs[j], j, runs + [RunRecord(head, N.Downloading, None)], requests)
    {
      assert StatusOnTrack(batches, jobs[j], j, runs, requests);
    }
  }

  /** With names distinct, a drop's own bytes are all that can be read under its name. */
  lemma OnlyOwn(h: History, batch: Uuid, data: Bytes)
    requires NamesDistinct(h.drops) && V.OwnBytes(h, batch, data) && batch in h.origin
    ensures h.origin[batch] < |h.drops| && data == h.drops[h.origin[batch]].data
  {
  }

  lemma RunJobs(c: Classifier, s: State, r: nat, s': State)
    requires NamesDistinct(s.h.drops) && JobsOnTrack(c, s.w.jobs, s.runs, s.h) && RunsInOrder(s.runs, s.w.head)
    requires Docs.Inv(s) && V.Inv(s) && L.JobsNameStored(s.w)
    requires Enabled(s, RunCall(r, Ok)) && RunSummary(c, s, r, Ok, s')
    ensures JobsOnTrack(c, s'.w.jobs, s'.runs, s'.h)
  {
    OwnJob(c, s, r, s');
    RunMoves(c, s, r, s');
    OneRunMoved(c, s.w.jobs, s.runs, s.h, r, s'.runs[r], s'.h);
  }

  lemma RunMoves(c: Classifier, s: State, r: nat, s': State)
    requires Enabled(s, RunCall(r, Ok)) && RunSummary(c, s, r, Ok, s')
    ensures |s'.runs| == |s.runs| && s'.runs == s.runs[r := s'.runs[r]] && s'.w.jobs == s.w.jobs
    ensures s'.h.drops == s.h.drops && s'.h.origin == s.h.origin
  {
  }

  /** If the run that moved is on track, all are. */
  lemma OneRunMoved(c: Classifier, jobs: seq<Job>, runs: seq<RunRecord>, h: History, r: nat, run: RunRecord,
                    h': History)
    requires JobsOnTrack(c, jobs, runs, h) && r < |runs| && r < |jobs| && JobOnTrack(c, jobs[r], run, h')
    requires h'.drops == h.drops && h'.origin == h.origin
    ensures JobsOnTrack(c, jobs, runs[r := run], h')
  {
    forall j | 0 <= j < |jobs| && j < |runs| ensures JobOnTrack(c, jobs[j], runs[r := run][j], h') {
      if j != r {
        OtherJob(c, jobs[j], runs[j], h, h');
      }
    }
  }

  lemma OwnJob(c: Classifier, s: State, r: nat, s': State)
    requires NamesDistinct(s.h.drops) && Docs.Inv(s) && V.Inv(s) && L.JobsNameStored(s.w)
    requires Enabled(s, RunCall(r, Ok)) && RunSummary(c, s, r, Ok, s') && s.runs[r].job == r
    requires JobsOnTrack(c, s.w.jobs, s.runs, s.h)
    ensures JobOnTrack(c, s.w.jobs[r], s'.runs[r], s'.h)
  {
    var job := s.w.jobs[r];
    assert JobOnTrack(c, job, s.runs[r], s.h);
    if job.batch in s.h.origin {
      assert V.JobNamed(job, s.h) && V.RunOwn(s.w.jobs, s.runs[r], s.h);
      V.ObjectOwn(s, job);
      OnlyOwn(s.h, job.batch, s.w.bucket[job.blobKey]);
      if s.runs[r].pc.Creating? {
        OnlyOwn(s.h, job.batch, s.runs[r].pc.data);
      }
    }
  }

  lemma OtherJob(c: Classifier, job: Job, run: RunRecord, h: History, h': History)
    requires JobOnTrack(c, job, run, h) && h'.drops == h.drops && h'.origin == h.origin
    ensures JobOnTrack(c, job, run, h')
  {
  }

  lemma RunStatuses(c: Classifier, s: State, r: nat, s': State)
    requires RunsInOrder(s.runs, s.w.head) && L.JobsDistinct(s.w.jobs) && L.JobsNameStored(s.w)
    requires StatusesOnTrack(s.w.batches, s.w.jobs, s.runs, s.requests)
    requires UnqueuedPending(s.w.batches, s.w.jobs, s.requests)
    requires Enabled(s, RunCall(r, Ok)) && RunSummary(c, s, r, Ok, s')
    ensures StatusesOnTrack(s'.w.batches, s'.w.jobs, s'.runs, s'.requests)
    ensures UnqueuedPending(s'.w.batches, s'.w.jobs, s'.requests)
  {
    assert s.w.jobs[r].batch in L.JobBatches(s.w.jobs);
    forall j | 0 <= j < |s'.w.jobs| ensures StatusOnTrack(s'.w.batches, s'.w.jobs[j], j, s'.runs, s'.requests) {
      assert StatusOnTrack(s.w.batches, s.w.jobs[j], j, s.runs, s.requests);
    }
  }

  lemma RunRows(c: Classifier, s: State, r: nat, s': State)
    requires RowsAsBorn(s.w.predictions, s.h.born, s.requests) && RunsInOrder(s.runs, s.w.head)
    requires RunsAllOrNothing(s.runs)
    requires B.RunsConsistent(s.runs, s.h.born) && L.JobsNameStored(s.w)
    requires Enabled(s, RunCall(r, Ok)) && RunSummary(c, s, r, Ok, s')
    ensures RowsAsBorn(s'.w.predictions, s'.h.born, s'.requests)
    ensures RunsInOrder(s'.runs, s'.w.head) && RunsAllOrNothing(s'.runs)
  {
    assert B.RunConsistent(s.runs[r], s.h.born, r);
  }

  lemma RunKeeps(c: Classifier, s: State, r: nat, s': State)
    requires Inv(c, s) && Safety.Inv(c, s) && Enabled(s, RunCall(r, Ok)) && RunSummary(c, s, r, Ok, s')
    ensures Inv(c, s')
  {
    RunJobs(c, s, r, s');
    RunStatuses(c, s, r, s');
    RunRows(c, s, r, s');
    RunSpares(c, s, r, s');
  }

  lemma RunSpares(c: Classifier, s: State, r: nat, s': State)
    requires Inv(c, s) && Enabled(s, RunCall(r, Ok)) && RunSummary(c, s, r, Ok, s')
    ensures FilesOnTrack(s') && BatchesMade(s'.h.origin, s'.w.batches)
  {
  }

  // ---------------------------------------------------------------- demo calls

  lemma DemoKeeps(c: Classifier, s: State, i: nat, o: Outcome, newId: Uuid, s': State)
    requires Inv(c, s) && L.Inv(s) && B.RunsTaken(s.w, s.runs)
    requires Enabled(s, DemoCall(i, o, newId)) && DemoSummary(s, i, o, newId, s')
    ensures Inv(c, s')
  {
    CarriedExist(s);
    if s.demos[i].Enqueuing? {
      if o.Landed() {
        var job := Job(s.demos[i].batch, s.demos[i].name, s.demos[i].name);
        QueuedKeeps(c, s, job, s.w.(jobs := s.w.jobs + [job]));
      }
      DemoMoves(c, s.(w := s.w.(jobs := s'.w.jobs)), i, s');
    } else if s.demos[i].Saving? && o.Landed() {
      FilesSame(s, s.(w := s.w.(batches := s'.w.batches)));
      DemoSaved(c, s, newId, s'.w.batches);
      DemoMoves(c, s.(w := s.w.(batches := s'.w.batches)), i, s');
    } else {
      DemoMoves(c, s, i, s');
    }
  }

  /** A row with a demo path joins the batches. */
  lemma DemoSaved(c: Classifier, s: State, newId: Uuid, batches': map<Uuid, Batch>)
    requires WorkOnTrack(c, s) && L.Inv(s) && newId !in s.w.batches
    requires newId in batches' && batches' == s.w.batches[newId := batches'[newId]]
    requires batches'[newId].status == Pending && IsDemoPath(batches'[newId].path)
    ensures WorkOnTrack(c, s.(w := s.w.(batches := batches')))
  {
    CarriedExist(s);
    NewBatchPending(s.w.batches, s.w.jobs, s.runs, s.requests, newId, batches');
  }

  /** A demo call moves on. */
  lemma DemoMoves(c: Classifier, s: State, i: nat, s': State)
    requires Inv(c, s) && i < |s.demos| == |s'.demos| && s'.demos == s.demos[i := s'.demos[i]]
    requires s' == s.(w := s.w.(bucket := s'.w.bucket), demos := s'.demos, h := s.h.(orphans := s'.h.orphans))
    ensures Inv(c, s')
  {
    FilesSame(s, s');
    HistorySame(c, s.w.jobs, s.runs, s.h, s'.h);
  }

  // ---------------------------------------------------------------- API requests

  /** What was asked stays asked. */
  ghost predicate AskedGrows(requests: seq<Q.Request>, requests': seq<Q.Request>) {
    && (forall p :: RelabelAsked(requests, p) ==> RelabelAsked(requests', p))
    && (forall b :: PatchAsked(requests, b) ==> PatchAsked(requests', b))
  }

  /** Only rows that somebody asked to change differ, and no path does. */
  predicate AskedOnly(w: World, w': World, requests: seq<Q.Request>) {
    && |w'.predictions| == |w.predictions| && w'.batches.Keys == w.batches.Keys
    && (forall p | 0 <= p < |w.predictions| && !RelabelAsked(requests, p) :: w'.predictions[p] == w.predictions[p])
    && (forall b | b in w.batches && !PatchAsked(requests, b) :: w'.batches[b] == w.batches[b])
    && (forall b | b in w.batches :: w'.batches[b].path == w.batches[b].path)
  }

  lemma AskedStays(requests: seq<Q.Request>, requests': seq<Q.Request>)
    requires |requests| <= |requests'| && forall q | 0 <= q < |requests| :: requests'[q].kind == requests[q].kind
    ensures AskedGrows(requests, requests')
  {
  }

  /** Only the row that the request asks for differs, and never a path. */
  predicate TouchesOnly(kind: Q.Kind, w: World, w': World) {
    && w' == w.(predictions := w'.predictions, batches := w'.batches, users := w'.users, audit := w'.audit)
    && |w'.predictions| == |w.predictions| && w'.batches.Keys == w.batches.Keys
    && (forall p | 0 <= p < |w.predictions| && !(kind.RelabelPrediction? && kind.pid == p) ::
          w'.predictions[p] == w.predictions[p])
    && (forall b | b in w.batches && !(kind.PatchBatch? && kind.batch == b) :: w'.batches[b] == w.batches[b])
    && (forall b | b in w.batches :: w'.batches[b].path == w.batches[b].path)
  }

  lemma AuditTouches(kind: Q.Kind, w: World, w1: World, w': World)
    requires TouchesOnly(kind, w, w1) && w' == w1.(audit := w'.audit)
    ensures TouchesOnly(kind, w, w')
  {
  }

  lemma CommitTouches(w: World, r: Q.Request, w': World)
    requires SessionShape(r) && r.pc.Committing? && w' == Commit(w, r.pc.writes)
    ensures TouchesOnly(r.kind, w, w')
  {
    CommitAppendsAudit(w, r.kind, r.actor, r.pc.seen);
    var w1 := Changed(w, r.kind, r.pc.seen);
    ChangeTouches(w, r.kind, r.pc.seen, w1);
    AuditTouches(r.kind, w, w1, w');
  }

  lemma ChangeTouches(w: World, kind: Q.Kind, seen: Q.Seen, w': World)
    requires w' == Changed(w, kind, seen)
    ensures TouchesOnly(kind, w, w')
  {
    match kind
    case RelabelPrediction(pid, u) => UpdateFrame(w, pid, u);
    case PatchBatch(batch, status) =>
      if status.Set? {
        StatusFrame(w, batch, status.value);
      }
    case SetUserRole(user, role) =>
  }

  lemma RequestKeeps(c: Classifier, s: State, q: nat, o: Outcome, s': State)
    requires Inv(c, s) && SessionsShaped(s) && L.JobsNameStored(s.w)
    requires Enabled(s, RequestCall(q, o)) && RequestSummary(s, q, o, s')
    ensures Inv(c, s')
  {
    var r := s.requests[q];
    AskedStays(s.requests, s'.requests);
    assert s'.requests[q].kind == r.kind;
    if r.pc.Committing? && o.Landed() {
      assert SessionShape(r);
      CommitTouches(s.w, r, s'.w);
      assert r.kind.RelabelPrediction? ==> RelabelAsked(s'.requests, r.kind.pid);
      assert r.kind.PatchBatch? ==> PatchAsked(s'.requests, r.kind.batch);
    }
    RequestedChange(c, s, s');
  }

  lemma RequestedChange(c: Classifier, s: State, s': State)
    requires Inv(c, s) && L.JobsNameStored(s.w)
    requires s' == s.(w := s'.w, requests := s'.requests, h := s.h.(roleCommits := s'.h.roleCommits))
    requires s'.w == s.w.(predictions := s'.w.predictions, batches := s'.w.batches, users := s'.w.users,
                          audit := s'.w.audit)
    requires AskedGrows(s.requests, s'.requests) && AskedOnly(s.w, s'.w, s'.requests)
    ensures Inv(c, s')
  {
    RequestedStatuses(s.w.batches, s'.w.batches, s.w.jobs, s.runs, s.requests, s'.requests);
    RequestedRows(s.w.predictions, s'.w.predictions, s.h.born, s.requests, s'.requests);
    RequestedOrigins(s.h.origin, s.w.batches, s'.w.batches);
    FilesSame(s, s');
    HistorySame(c, s.w.jobs, s.runs, s.h, s'.h);
  }

  lemma RequestedOrigins(origin: map<Uuid, nat>, batches: map<Uuid, Batch>, batches': map<Uuid, Batch>)
    requires BatchesMade(origin, batches) && batches'.Keys == batches.Keys
    requires forall b | b in batches :: batches'[b].path == batches[b].path
    ensures BatchesMade(origin, batches')
  {
  }

  lemma HistorySame(c: Classifier, jobs: seq<Job>, runs: seq<RunRecord>, h: History, h': History)
    requires JobsOnTrack(c, jobs, runs, h) && h'.drops == h.drops && h'.origin == h.origin
    ensures JobsOnTrack(c, jobs, runs, h')
  {
    forall j | 0 <= j < |jobs| && j < |runs| ensures JobOnTrack(c, jobs[j], runs[j], h') {
      assert JobOnTrack(c, jobs[j], runs[j], h);
    }
  }

  lemma RequestedStatuses(batches: map<Uuid, Batch>, batches': map<Uuid, Batch>, jobs: seq<Job>, runs: seq<RunRecord>,
                          requests: seq<Q.Request>, requests': seq<Q.Request>)
    requires StatusesOnTrack(batches, jobs, runs, requests) && UnqueuedPending(batches, jobs, requests)
    requires batches'.Keys == batches.Keys
    requires forall b :: PatchAsked(requests, b) ==> PatchAsked(requests', b)
    requires forall b | b in batches && !PatchAsked(requests', b) :: batches'[b] == batches[b]
    ensures StatusesOnTrack(batches', jobs, runs, requests') && UnqueuedPending(batches', jobs, requests')
  {
    forall j | 0 <= j < |jobs| ensures StatusOnTrack(batches', jobs[j], j, runs, requests') {
      assert StatusOnTrack(batches, jobs[j], j, runs, requests);
    }
  }

  lemma RequestedRows(rows: seq<Prediction>, rows': seq<Prediction>, born: seq<Birth>,
                      requests: seq<Q.Request>, requests': seq<Q.Request>)
    requires RowsAsBorn(rows, born, requests) && |rows'| == |rows|
    requires forall p :: RelabelAsked(requests, p) ==> RelabelAsked(requests', p)
    requires forall p | 0 <= p < |rows| && !RelabelAsked(requests', p) :: rows'[p] == rows[p]
    ensures RowsAsBorn(rows', born, requests')
  {
  }

  // ---------------------------------------------------------------- every smooth step

  lemma StepKeeps(c: Classifier, s: State, a: Action, s': State)
    requires Inv(c, s) && Safety.Inv(c, s) && SmoothAction(s, a) && Enabled(s, a) && s' == Apply(c, s, a)
    requires Summary(c, s, a, s')
    ensures Inv(c, s')
  {
    if a.IngestCall? {
      IngestCallKeeps(c, s, a.newId, s');
    } else if a.RunCall? {
      RunKeeps(c, s, a.r, s');
    } else if a.Arrive? || a.Begin? || a.Dequeue? {
      StartKeeps(c, s, a, s');
    } else {
      ApiKeeps(c, s, a, s');
    }
  }

  /** A drop arrives, or a worker takes up a file or a job. */
  lemma StartKeeps(c: Classifier, s: State, a: Action, s': State)
    requires Inv(c, s) && Safety.Inv(c, s) && SmoothAction(s, a) && Enabled(s, a) && s' == Apply(c, s, a)
    requires (a.Arrive? || a.Begin? || a.Dequeue?) && Summary(c, s, a, s')
    ensures Inv(c, s')
  {
    match a
    case Arrive(name, data) => ArriveKeeps(c, s, name, data, s');
    case Begin(raw) => BeginKeeps(c, s, raw, s');
    case Dequeue => DequeueKeeps(c, s, s');
  }

  lemma ApiKeeps(c: Classifier, s: State, a: Action, s': State)
    requires Inv(c, s) && SessionsShaped(s) && L.Inv(s) && B.RunsTaken(s.w, s.runs)
    requires a.StartDemo? || a.DemoCall? || a.Submit? || a.RequestCall?
    requires Enabled(s, a) && s' == Apply(c, s, a) && Summary(c, s, a, s')
    ensures Inv(c, s')
  {
    match a
    case StartDemo(tag, data, user) => StartDemoKeeps(c, s, D.Uploading(DemoName(tag), data, user), s');
    case DemoCall(i, o, newId) => DemoKeeps(c, s, i, o, newId, s');
    case Submit(kind, actor) => SubmitKeeps(c, s, kind, actor, s');
    case RequestCall(q, o) => RequestKeeps(c, s, q, o, s');
  }

  lemma IngestCallKeeps(c: Classifier, s: State, newId: Uuid, s': State)
    requires Inv(c, s) && Safety.Inv(c, s) && Enabled(s, IngestCall(Ok, newId))
    requires s' == Apply(c, s, IngestCall(Ok, newId))
    ensures Inv(c, s')
  {
    IngestOkHolds(c, s, newId, s');
    IngestKeeps(c, s, newId, s');
  }

  lemma StartDemoKeeps(c: Classifier, s: State, pc: D.DemoPc, s': State)
    requires Inv(c, s) && s' == s.(demos := s.demos + [pc])
    ensures Inv(c, s')
  {
    FilesSame(s, s');
    HistorySame(c, s.w.jobs, s.runs, s.h, s'.h);
  }

  lemma SubmitKeeps(c: Classifier, s: State, kind: Q.Kind, actor: Uuid, s': State)
    requires Inv(c, s) && L.JobsNameStored(s.w)
    requires s' == s.(requests := s.requests + [Q.Request(kind, actor, Q.Guarding)])
    ensures Inv(c, s')
  {
    AskedStays(s.requests, s'.requests);
    RequestedChange(c, s, s');
  }

  lemma BeginKeeps(c: Classifier, s: State, raw: string, s': State)
    requires Inv(c, s) && s.ingest.Idle? && SlashFree(raw) && UploadPath(raw) in s.w.files
    requires s' == s.(ingest := I.Start(raw))
    ensures Inv(c, s')
  {
    BareBasename(raw);
    MovingOrigins(s.w.files, s.h, I.Idle, s.h.stored, I.Start(raw));
  }

  lemma InitInv(c: Classifier, users: map<Uuid, Role>)
    ensures Inv(c, Init(users))
  {
  }

  lemma SmoothStep(c: Classifier, s: State, a: Action, s': State)
    requires Inv(c, s) && Safety.Inv(c, s) && SmoothAction(s, a) && Enabled(s, a) && s' == Apply(c, s, a)
    ensures Inv(c, s') && Safety.Inv(c, s')
  {
    Summarised(c, s, a, s');
    Safety.StepKeeps(c, s, a, s');
    StepKeeps(c, s, a, s');
  }

  lemma {:induction false} SmoothRunInv(c: Classifier, s: State, acts: seq<Action>)
    requires Inv(c, s) && Safety.Inv(c, s) && Legal(c, s, acts) && Smooth(c, s, acts)
    ensures Inv(c, Exec(c, s, acts)) && Safety.Inv(c, Exec(c, s, acts))
    decreases |acts|
  {
    if acts != [] {
      var s' := Apply(c, s, acts[0]);
      SmoothStep(c, s, acts[0], s');
      SmoothRunInv(c, s', acts[1..]);
    }
  }

  /** The state a smooth run from the start leads to. */
  lemma SmoothFromStart(c: Classifier, users: map<Uuid, Role>, acts: seq<Action>, s: State)
    requires Legal(c, Init(users), acts) && Smooth(c, Init(users), acts) && s == Exec(c, Init(users), acts)
    ensures Inv(c, s) && Safety.Inv(c, s)
  {
    Safety.InitInv(c, users);
    InitInv(c, users);
    SmoothRunInv(c, Init(users), acts);
  }

  /** Some smooth run leads here from empty stores. */
  ghost predicate SmoothlyReached(c: Classifier, s: State) {
    exists users, acts :: Legal(c, Init(users), acts) && Smooth(c, Init(users), acts) && s == Exec(c, Init(users), acts)
  }

  lemma SmoothlyReachedInv(c: Classifier, s: State)
    requires SmoothlyReached(c, s)
    ensures Inv(c, s) && Safety.Inv(c, s)
  {
    var users, acts :| Legal(c, Init(users), acts) && Smooth(c, Init(users), acts) && s == Exec(c, Init(users), acts);
    SmoothFromStart(c, users, acts, s);
  }

  lemma {:induction false} SmoothOn(c: Classifier, s: State, acts: seq<Action>, a: Action)
    requires Legal(c, s, acts) && Smooth(c, s, acts)
    requires Enabled(Exec(c, s, acts), a) && SmoothAction(Exec(c, s, acts), a)
    ensures Legal(c, s, acts + [a]) && Smooth(c, s, acts + [a])
    ensures Exec(c, s, acts + [a]) == Apply(c, Exec(c, s, acts), a)
    decreases |acts|
  {
    var more := acts + [a];
    if acts == [] {
      assert more == [a] && more[1..] == [];
      assert Legal(c, Apply(c, s, a), more[1..]) && Smooth(c, Apply(c, s, a), more[1..]);
    } else {
      assert more[0] == acts[0] && more[1..] == acts[1..] + [a];
      SmoothOn(c, Apply(c, s, acts[0]), acts[1..], a);
    }
  }

  lemma SmoothNext(c: Classifier, s: State, a: Action, s': State)
    requires SmoothlyReached(c, s) && Enabled(s, a) && SmoothAction(s, a) && s' == Apply(c, s, a)
    ensures SmoothlyReached(c, s')
  {
    var users, acts :| Legal(c, Init(users), acts) && Smooth(c, Init(users), acts) && s == Exec(c, Init(users), acts);
    SmoothOn(c, Init(users), acts, a);
  }
}

/**
 * The second producer's documents: in every run the object, the batch, the job and the predictions of a demo call are
 * those of the sample picked for it, or of one picked by a call that drew the same tag.
 */
module Samples {
  import opened Prelude
  import opened Keys
  import opened World
  import opened System
  import I = Ingest
  import D = Demo
  import Docs = Documents
  import L = Lineage
  import B = Births
  import Safety

  /** What one call of the endpoint was about. */
  datatype Sample = Sample(name: string, data: Bytes, user: Uuid)

  function SampleOf(a: Action): Sample
    requires a.StartDemo?
  {
    Sample(DemoName(a.tag), a.data, a.user)
  }

  /** The samples picked so far. */
  function Picked(acts: seq<Action>): set<Sample> {
    set k | 0 <= k < |acts| && acts[k].StartDemo? :: SampleOf(acts[k])
  }

  /** Some call under this name picked these bytes. */
  predicate Holds(xs: set<Sample>, name: string, data: Bytes) {
    exists x :: x in xs && x.name == name && x.data == data
  }

  /** Some call under this name was this user's. */
  predicate CalledBy(xs: set<Sample>, name: string, user: Uuid) {
    exists x :: x in xs && x.name == name && x.user == user
  }

  /** Of the keys in the bucket, demo documents have neither a slash nor a TIFF name. */
  predicate DemoKey(key: string) {
    SlashFree(key) && !IsTiffName(key)
  }

  predicate ObjectsPicked(bucket: map<string, Bytes>, xs: set<Sample>) {
    forall key | key in bucket && DemoKey(key) :: Holds(xs, key, bucket[key])
  }

  /** Recorded by a demo call. */
  predicate ByDemo(row: Batch) {
    StartsWith(row.path, "/demo/")
  }

  predicate BatchPicked(row: Batch, xs: set<Sample>) {
    ByDemo(row) ==> row.owner.Some? && CalledBy(xs, row.path[6..], row.owner.value)
  }

  predicate BatchesPicked(batches: map<Uuid, Batch>, xs: set<Sample>) {
    forall b | b in batches :: BatchPicked(batches[b], xs)
  }

  /** A batch and the document its job is for. */
  predicate RecordedAs(batches: map<Uuid, Batch>, b: Uuid, name: string) {
    b in batches && DemoKey(name) && batches[b].path == DemoPath(name)
  }

  predicate CallPicked(pc: D.DemoPc, batches: map<Uuid, Batch>, xs: set<Sample>) {
    match pc
    case Uploading(name, data, user) => DemoKey(name) && Sample(name, data, user) in xs
    case Saving(name, user) => DemoKey(name) && CalledBy(xs, name, user)
    case Enqueuing(name, b) => RecordedAs(batches, b, name)
    case Closed => true
  }

  predicate CallsPicked(demos: seq<D.DemoPc>, batches: map<Uuid, Batch>, xs: set<Sample>) {
    forall i | 0 <= i < |demos| :: CallPicked(demos[i], batches, xs)
  }

  /** The job of a demo batch carries the batch's document, other jobs are for other batches. */
  predicate JobFits(job: Job, batches: map<Uuid, Batch>) {
    job.batch in batches && (ByDemo(batches[job.batch]) ==> DemoJob(job, batches[job.batch]))
  }

  predicate DemoJob(job: Job, row: Batch)
    requires ByDemo(row)
  {
    job.blobKey == row.path[6..] && job.filename == row.path[6..] && DemoKey(row.path[6..])
  }

  predicate JobsFit(jobs: seq<Job>, batches: map<Uuid, Batch>) {
    forall j | 0 <= j < |jobs| :: JobFits(jobs[j], batches)
  }

  predicate IngestFits(pc: I.IngestPc, batches: map<Uuid, Batch>) {
    pc.Enqueuing? ==> pc.batch in batches && !ByDemo(batches[pc.batch])
  }

  predicate Reads(jobs: seq<Job>, job: nat, data: Bytes, xs: set<Sample>) {
    job < |jobs| && DemoKey(jobs[job].blobKey) ==> Holds(xs, jobs[job].blobKey, data)
  }

  predicate RunsRead(jobs: seq<Job>, runs: seq<RunRecord>, xs: set<Sample>) {
    forall r | 0 <= r < |runs| && (runs[r].pc.Drawing? || runs[r].pc.Creating?) ::
      Reads(jobs, runs[r].job, runs[r].pc.data, xs)
  }

  predicate BirthRead(jobs: seq<Job>, runs: seq<RunRecord>, birth: Birth, xs: set<Sample>) {
    birth.run < |runs| && Reads(jobs, runs[birth.run].job, birth.data, xs)
  }

  predicate BirthsRead(jobs: seq<Job>, runs: seq<RunRecord>, born: seq<Birth>, xs: set<Sample>) {
    forall p | 0 <= p < |born| :: BirthRead(jobs, runs, born[p], xs)
  }

  predicate StoresPicked(s: State, xs: set<Sample>) {
    && ObjectsPicked(s.w.bucket, xs) && BatchesPicked(s.w.batches, xs) && CallsPicked(s.demos, s.w.batches, xs)
    && JobsFit(s.w.jobs, s.w.batches) && IngestFits(s.ingest, s.w.batches)
  }

  predicate WorkPicked(s: State, xs: set<Sample>) {
    RunsRead(s.w.jobs, s.runs, xs) && BirthsRead(s.w.jobs, s.runs, s.h.born, xs)
  }

  predicate Inv(s: State, xs: set<Sample>) {
    StoresPicked(s, xs) && WorkPicked(s, xs)
  }

  // ---------------------------------------------------------------- preservation

  /** Paths and owners are never rewritten. */
  predicate RowsStay(batches: map<Uuid, Batch>, batches': map<Uuid, Batch>) {
    forall b | b in batches ::
      b in batches' && batches'[b].path == batches[b].path && batches'[b].owner == batches[b].owner
  }

  /** Nothing but the samples and the stores of the other processes changes. */
  lemma OthersKeep(s: State, s': State, xs: set<Sample>, xs': set<Sample>)
    requires Inv(s, xs) && B.RunsTaken(s.w, s.runs) && xs <= xs'
    requires s'.w.bucket == s.w.bucket && s'.w.jobs == s.w.jobs && s'.h.born == s.h.born
    requires RowsStay(s.w.batches, s'.w.batches) && s'.w.batches.Keys == s.w.batches.Keys
    requires s.runs <= s'.runs && forall r | |s.runs| <= r < |s'.runs| :: s'.runs[r].pc.Downloading?
    requires CallsPicked(s'.demos, s.w.batches, xs')
    requires s'.ingest.Enqueuing? ==> s'.ingest == s.ingest
    ensures Inv(s', xs')
  {
  }

  /** A request changes no row's path or owner. */
  lemma RequestSparesRows(s: State, q: nat, o: Outcome, s': State)
    requires SessionsShaped(s) && Enabled(s, RequestCall(q, o)) && RequestSummary(s, q, o, s')
    ensures RowsStay(s.w.batches, s'.w.batches) && s'.w.batches.Keys == s.w.batches.Keys
    ensures s'.w.bucket == s.w.bucket && s'.w.jobs == s.w.jobs
  {
    var r := s.requests[q];
    if r.pc.Committing? && o.Landed() {
      assert SessionShape(r);
      CommitAppendsAudit(s.w, r.kind, r.actor, r.pc.seen);
    }
  }

  lemma DemoKeeps(c: Classifier, s: State, i: nat, o: Outcome, newId: Uuid, s': State, xs: set<Sample>)
    requires Inv(s, xs) && B.RunsTaken(s.w, s.runs)
    requires Enabled(s, DemoCall(i, o, newId)) && s' == Apply(c, s, DemoCall(i, o, newId))
    requires DemoSummary(s, i, o, newId, s')
    ensures Inv(s', xs)
  {
    var pc := s.demos[i];
    assert CallPicked(pc, s.w.batches, xs);
    match pc
    case Uploading(name, data, user) => DemoUploads(c, s, i, o, newId, s', xs);
    case Saving(name, user) => DemoSaves(s, i, o, newId, s', xs);
    case Enqueuing(name, b) => DemoQueues(s, i, o, newId, s', xs);
    case Closed => OthersKeep(s, s', xs, xs);
  }

  lemma DemoUploads(c: Classifier, s: State, i: nat, o: Outcome, newId: Uuid, s': State, xs: set<Sample>)
    requires Inv(s, xs) && B.RunsTaken(s.w, s.runs) && Enabled(s, DemoCall(i, o, newId)) && s.demos[i].Uploading?
    requires CallPicked(s.demos[i], s.w.batches, xs) && s' == Apply(c, s, DemoCall(i, o, newId))
    ensures Inv(s', xs)
  {
  }

  lemma DemoSaves(s: State, i: nat, o: Outcome, newId: Uuid, s': State, xs: set<Sample>)
    requires Inv(s, xs) && B.RunsTaken(s.w, s.runs) && i < |s.demos| && s.demos[i].Saving? && newId !in s.w.batches
    requires CallPicked(s.demos[i], s.w.batches, xs) && DemoSummary(s, i, o, newId, s')
    ensures Inv(s', xs)
  {
  }

  lemma DemoQueues(s: State, i: nat, o: Outcome, newId: Uuid, s': State, xs: set<Sample>)
    requires Inv(s, xs) && B.RunsTaken(s.w, s.runs) && i < |s.demos| && s.demos[i].Enqueuing?
    requires CallPicked(s.demos[i], s.w.batches, xs) && DemoSummary(s, i, o, newId, s')
    ensures Inv(s', xs)
  {
  }

  lemma IngestKeeps(c: Classifier, s: State, o: Outcome, newId: Uuid, s': State, xs: set<Sample>)
    requires Inv(s, xs) && B.RunsTaken(s.w, s.runs) && Docs.WorkerKnows(s.ingest, s.w, s.h)
    requires Enabled(s, IngestCall(o, newId)) && s' == Apply(c, s, IngestCall(o, newId))
    requires IngestSummary(s, o, newId, s')
    ensures Inv(s', xs)
  {
    match s.ingest
    case Uploading(name, data) => IngestUploads(c, s, o, newId, s', xs);
    case Saving(name) => IngestSaves(s, o, newId, s', xs);
    case Enqueuing(name, b) => IngestQueues(s, o, newId, s', xs);
    case _ => OthersKeep(s, s', xs, xs);
  }

  lemma IngestUploads(c: Classifier, s: State, o: Outcome, newId: Uuid, s': State, xs: set<Sample>)
    requires Inv(s, xs) && B.RunsTaken(s.w, s.runs) && Docs.WorkerKnows(s.ingest, s.w, s.h) && s.ingest.Uploading?
    requires Enabled(s, IngestCall(o, newId)) && s' == Apply(c, s, IngestCall(o, newId))
    ensures Inv(s', xs)
  {
  }

  lemma IngestSaves(s: State, o: Outcome, newId: Uuid, s': State, xs: set<Sample>)
    requires Inv(s, xs) && B.RunsTaken(s.w, s.runs) && s.ingest.Saving? && newId !in s.w.batches
    requires IngestSummary(s, o, newId, s')
    ensures Inv(s', xs)
  {
  }

  lemma IngestQueues(s: State, o: Outcome, newId: Uuid, s': State, xs: set<Sample>)
    requires Inv(s, xs) && B.RunsTaken(s.w, s.runs) && s.ingest.Enqueuing? && IngestSummary(s, o, newId, s')
    ensures Inv(s', xs)
  {
  }

  lemma RunKeeps(c: Classifier, s: State, r: nat, o: Outcome, s': State, xs: set<Sample>)
    requires Inv(s, xs) && B.RunsTaken(s.w, s.runs) && Enabled(s, RunCall(r, o)) && RunSummary(c, s, r, o, s')
    ensures Inv(s', xs)
  {
    RunKeepsStores(c, s, r, o, s', xs);
    RunKeepsWork(c, s, r, o, s', xs);
  }

  lemma RunKeepsStores(c: Classifier, s: State, r: nat, o: Outcome, s': State, xs: set<Sample>)
    requires StoresPicked(s, xs) && Enabled(s, RunCall(r, o)) && RunSummary(c, s, r, o, s')
    ensures StoresPicked(s', xs)
  {
  }

  lemma RunKeepsWork(c: Classifier, s: State, r: nat, o: Outcome, s': State, xs: set<Sample>)
    requires ObjectsPicked(s.w.bucket, xs) && WorkPicked(s, xs)
    requires Enabled(s, RunCall(r, o)) && RunSummary(c, s, r, o, s')
    ensures WorkPicked(s', xs)
  {
  }

  /** The samples after one more action. */
  function With(xs: set<Sample>, a: Action): set<Sample> {
    if a.StartDemo? then xs + {SampleOf(a)} else xs
  }

  lemma StepKeeps(c: Classifier, s: State, a: Action, s': State, xs: set<Sample>)
    requires Inv(s, xs) && B.RunsTaken(s.w, s.runs) && Docs.WorkerKnows(s.ingest, s.w, s.h) && SessionsShaped(s)
    requires Enabled(s, a) && s' == Apply(c, s, a) && Summary(c, s, a, s')
    ensures Inv(s', With(xs, a))
  {
    match a
    case IngestCall(o, newId) => IngestKeeps(c, s, o, newId, s', xs);
    case DemoCall(i, o, newId) => DemoKeeps(c, s, i, o, newId, s', xs);
    case RunCall(r, o) => RunKeeps(c, s, r, o, s', xs);
    case RequestCall(q, o) => RequestKeeps(s, q, o, s', xs);
    case _ => StartKeeps(c, s, a, s', xs);
  }

  lemma RequestKeeps(s: State, q: nat, o: Outcome, s': State, xs: set<Sample>)
    requires Inv(s, xs) && B.RunsTaken(s.w, s.runs) && SessionsShaped(s)
    requires Enabled(s, RequestCall(q, o)) && RequestSummary(s, q, o, s')
    ensures Inv(s', xs)
  {
    RequestSparesRows(s, q, o, s');
    OthersKeep(s, s', xs, xs);
  }

  /** Something new begins; a demo call brings its sample. */
  lemma StartKeeps(c: Classifier, s: State, a: Action, s': State, xs: set<Sample>)
    requires Inv(s, xs) && B.RunsTaken(s.w, s.runs) && Enabled(s, a) && Summary(c, s, a, s')
    requires !a.IngestCall? && !a.DemoCall? && !a.RunCall? && !a.RequestCall?
    ensures Inv(s', With(xs, a))
  {
    var xs' := With(xs, a);
    if a.StartDemo? {
      DemoNameIsNoTiff(a.tag);
      assert SampleOf(a) in xs';
    }
    OthersKeep(s, s', xs, xs');
  }

  lemma PickedOneMore(acts: seq<Action>)
    requires acts != []
    ensures Picked(acts) == With(Picked(acts[..|acts| - 1]), acts[|acts| - 1])
  {
  }

  lemma {:induction false} RunPicked(c: Classifier, users: map<Uuid, Role>, acts: seq<Action>)
    requires Legal(c, Init(users), acts)
    ensures Inv(Exec(c, Init(users), acts), Picked(acts))
    decreases |acts|
  {
    if acts != [] {
      var n := |acts| - 1;
      LastAction(c, Init(users), acts);
      RunPicked(c, users, acts[..n]);
      PickedOneMore(acts);
      var s := Exec(c, Init(users), acts[..n]);
      KnownBefore(c, users, acts[..n], s);
      Summarised(c, s, acts[n], Apply(c, s, acts[n]));
      StepKeeps(c, s, acts[n], Apply(c, s, acts[n]), Picked(acts[..n]));
    }
  }

  lemma KnownBefore(c: Classifier, users: map<Uuid, Role>, acts: seq<Action>, s: State)
    requires Legal(c, Init(users), acts) && s == Exec(c, Init(users), acts)
    ensures B.RunsTaken(s.w, s.runs) && Docs.WorkerKnows(s.ingest, s.w, s.h) && SessionsShaped(s)
    ensures B.Inv(c, s) && L.JobsNameStored(s.w)
  {
    assert Safety.Reachable(c, s);
    Safety.ReachableInv(c, s);
  }

  // ---------------------------------------------------------------- the theorems

  /** The batch was recorded by a call that drew this tag. */
  predicate RecordedFor(batches: map<Uuid, Batch>, b: Uuid, tag: string) {
    b in batches && batches[b].path == "/demo/" + ("demo_" + tag + ".png")
  }

  /** A call of the run drew this tag and picked these bytes. */
  predicate Drew(acts: seq<Action>, tag: string, data: Bytes) {
    exists k :: 0 <= k < |acts| && acts[k].StartDemo? && acts[k].tag == tag && acts[k].data == data
  }

  /** A call of the run drew this tag for this user. */
  predicate DrewFor(acts: seq<Action>, tag: string, user: Uuid) {
    exists k :: 0 <= k < |acts| && acts[k].StartDemo? && acts[k].tag == tag && acts[k].user == user
  }

  lemma SameTag(tag1: string, tag2: string)
    requires DemoName(tag1) == DemoName(tag2)
    ensures tag1 == tag2
  {
    assert |DemoName(tag1)| == |tag1| + 9 && DemoName(tag1)[5..|tag1| + 5] == tag1;
    assert |DemoName(tag2)| == |tag2| + 9 && DemoName(tag2)[5..|tag2| + 5] == tag2;
  }

  lemma HoldsMeansDrew(acts: seq<Action>, tag: string, data: Bytes)
    requires Holds(Picked(acts), DemoName(tag), data)
    ensures Drew(acts, tag, data)
  {
    var x :| x in Picked(acts) && x.name == DemoName(tag) && x.data == data;
    var k :| 0 <= k < |acts| && acts[k].StartDemo? && SampleOf(acts[k]) == x;
    SameTag(acts[k].tag, tag);
  }

  lemma CalledMeansDrew(acts: seq<Action>, tag: string, user: Uuid)
    requires CalledBy(Picked(acts), DemoName(tag), user)
    ensures DrewFor(acts, tag, user)
  {
    var x :| x in Picked(acts) && x.name == DemoName(tag) && x.user == user;
    var k :| 0 <= k < |acts| && acts[k].StartDemo? && SampleOf(acts[k]) == x;
    SameTag(acts[k].tag, tag);
  }

  /** In any run the object under a tag's name holds a sample picked by a call that drew the tag. */
  lemma ObjectIsSample(c: Classifier, users: map<Uuid, Role>, acts: seq<Action>, s: State, tag: string)
    requires Legal(c, Init(users), acts) && s == Exec(c, Init(users), acts) && IsDemoTag(tag)
    ensures var name := "demo_" + tag + ".png"; name in s.w.bucket ==> Drew(acts, tag, s.w.bucket[name])
  {
    RunPicked(c, users, acts);
    DemoNameIsNoTiff(tag);
    if DemoName(tag) in s.w.bucket {
      HoldsMeansDrew(acts, tag, s.w.bucket[DemoName(tag)]);
    }
  }

  /** A batch recorded under a tag belongs to a user who drew it. */
  lemma BatchIsCallers(c: Classifier, users: map<Uuid, Role>, acts: seq<Action>, s: State, tag: string, b: Uuid)
    requires Legal(c, Init(users), acts) && s == Exec(c, Init(users), acts) && RecordedFor(s.w.batches, b, tag)
    ensures s.w.batches[b].owner.Some? && DrewFor(acts, tag, s.w.batches[b].owner.value)
  {
    RunPicked(c, users, acts);
    assert BatchPicked(s.w.batches[b], Picked(acts));
    assert s.w.batches[b].path[6..] == DemoName(tag);
    CalledMeansDrew(acts, tag, s.w.batches[b].owner.value);
  }

  /** The job of such a batch is for the tag's object, which is in the bucket. */
  lemma JobIsForSample(c: Classifier, users: map<Uuid, Role>, acts: seq<Action>, s: State, tag: string, j: nat)
    requires Legal(c, Init(users), acts) && s == Exec(c, Init(users), acts) && IsDemoTag(tag)
    requires j < |s.w.jobs| && RecordedFor(s.w.batches, s.w.jobs[j].batch, tag)
    ensures var name := "demo_" + tag + ".png";
      && s.w.jobs[j] == Job(s.w.jobs[j].batch, name, name)
      && name in s.w.bucket && Drew(acts, tag, s.w.bucket[name])
  {
    RunPicked(c, users, acts);
    KnownBefore(c, users, acts, s);
    ObjectIsSample(c, users, acts, s, tag);
    assert JobFits(s.w.jobs[j], s.w.batches);
    assert s.w.batches[s.w.jobs[j].batch].path[6..] == DemoName(tag);
  }

  /** Its predictions are the classifier's word on such a sample. */
  lemma PredictionIsOfSample(c: Classifier, users: map<Uuid, Role>, acts: seq<Action>, s: State, tag: string, p: nat)
    requires Legal(c, Init(users), acts) && s == Exec(c, Init(users), acts) && IsDemoTag(tag)
    requires p < |s.w.predictions| && RecordedFor(s.w.batches, s.w.predictions[p].batch, tag)
    ensures p < |s.h.born| && Drew(acts, tag, s.h.born[p].data)
    ensures s.w.predictions[p].filename == "demo_" + tag + ".png"
    ensures s.w.predictions[p].confidence == c(s.h.born[p].data).confidence
  {
    RunPicked(c, users, acts);
    KnownBefore(c, users, acts, s);
    DemoNameIsNoTiff(tag);
    BornFrom(c, s, p, Picked(acts), DemoName(tag));
    HoldsMeansDrew(acts, tag, s.h.born[p].data);
  }

  lemma BornFrom(c: Classifier, s: State, p: nat, xs: set<Sample>, name: string)
    requires B.Inv(c, s) && JobsFit(s.w.jobs, s.w.batches) && BirthsRead(s.w.jobs, s.runs, s.h.born, xs)
    requires p < |s.w.predictions| && RecordedAs(s.w.batches, s.w.predictions[p].batch, name)
    ensures p < |s.h.born| && Holds(xs, name, s.h.born[p].data) && s.w.predictions[p].filename == name
    ensures s.w.predictions[p].confidence == c(s.h.born[p].data).confidence
  {
  }

  lemma {:induction false} TagDrawn(c: Classifier, s: State, acts: seq<Action>, k: nat)
    requires Legal(c, s, acts) && k < |acts| && acts[k].StartDemo?
    ensures IsDemoTag(acts[k].tag)
    decreases |acts|
  {
    if k > 0 {
      TagDrawn(c, Apply(c, s, acts[0]), acts[1..], k - 1);
    }
  }

  /** Call `k` is the only one of the run that drew its tag. */
  predicate DrewAlone(acts: seq<Action>, k: nat) {
    && k < |acts| && acts[k].StartDemo?
    && forall i | 0 <= i < |acts| && acts[i].StartDemo? && acts[i].tag == acts[k].tag :: i == k
  }

  /**
   * As long as no other call draws its tag, a demo call's object holds the bytes it picked, its batch is its user's,
   * its job is for that object, and every prediction of its batch is of those bytes: in every reachable state, with
   * every failure and re-run.
   */
  lemma OwnSample(c: Classifier, users: map<Uuid, Role>, acts: seq<Action>, s: State, k: nat)
    requires Legal(c, Init(users), acts) && s == Exec(c, Init(users), acts) && DrewAlone(acts, k)
    ensures var tag, data := acts[k].tag, acts[k].data;
      var name := "demo_" + tag + ".png";
      && (name in s.w.bucket ==> s.w.bucket[name] == data)
      && (forall b | RecordedFor(s.w.batches, b, tag) :: s.w.batches[b].owner == Some(acts[k].user))
      && (forall j | 0 <= j < |s.w.jobs| && RecordedFor(s.w.batches, s.w.jobs[j].batch, tag) ::
            s.w.jobs[j].blobKey == name && name in s.w.bucket && s.w.bucket[name] == data)
      && (forall p | 0 <= p < |s.w.predictions| && RecordedFor(s.w.batches, s.w.predictions[p].batch, tag) ::
            p < |s.h.born| && s.h.born[p].data == data && s.w.predictions[p].confidence == c(data).confidence)
  {
    var tag := acts[k].tag;
    TagDrawn(c, Init(users), acts, k);
    ObjectIsSample(c, users, acts, s, tag);
    forall b | RecordedFor(s.w.batches, b, tag) ensures s.w.batches[b].owner == Some(acts[k].user) {
      BatchIsCallers(c, users, acts, s, tag, b);
    }
    forall j | 0 <= j < |s.w.jobs| && RecordedFor(s.w.batches, s.w.jobs[j].batch, tag)
      ensures s.w.jobs[j].blobKey == "demo_" + tag + ".png" && "demo_" + tag + ".png" in s.w.bucket
    {
      JobIsForSample(c, users, acts, s, tag, j);
    }
    forall p | 0 <= p < |s.w.predictions| && RecordedFor(s.w.batches, s.w.predictions[p].batch, tag)
      ensures p < |s.h.born| && s.h.born[p].data == acts[k].data
      ensures s.w.predictions[p].confidence == c(acts[k].data).confidence
    {
      PredictionIsOfSample(c, users, acts, s, tag, p);
    }
  }
}

/**
 * The shared stores of the document pipeline: SFTP server, bucket, committed database tables, job queue.
 * A database session collects flushed writes; only a commit changes the tables, all of them at once.
 */
module World {
  import opened Prelude
  import opened Keys

  datatype BatchStatus = Pending | Processing | Done | Failed

  datatype DocumentLabel =
    | Letter | Memo | Email | FileFolder | Form | Handwritten | Invoice | Advertisement
    | Budget | NewsArticle | Presentation | ScientificPublication | ScientificReport
    | Specification | Resume | Questionnaire

  datatype Role = Admin | Reviewer | Auditor

  datatype Batch = Batch(path: string, owner: Option<Uuid>, status: BatchStatus)

  /** A prediction row; rows are identified by their place in insertion order. */
  datatype Prediction = Prediction(
    batch: Uuid, filename: string, docLabel: DocumentLabel, confidence: real, overlay: Option<string>)

  datatype PredictionUpdate = PredictionUpdate(docLabel: Field<DocumentLabel>, overlay: Field<string>)

  datatype AuditAction = Relabel | StatusChange(status: BatchStatus) | RoleToggle
  datatype AuditTarget = PredictionTarget(id: nat) | BatchTarget(batch: Uuid) | RoleTarget(user: Uuid)
  datatype AuditEntry = AuditEntry(actor: Uuid, action: AuditAction, target: AuditTarget)

  /** What the producers put on the queue and the inference worker takes off it. */
  datatype Job = Job(batch: Uuid, blobKey: string, filename: string)

  datatype World = World(
    files: map<string, Bytes>,         // SFTP server, by full path
    bucket: map<string, Bytes>,        // objects of the "documents" bucket
    batches: map<Uuid, Batch>,
    predictions: seq<Prediction>,
    audit: seq<AuditEntry>,
    users: map<Uuid, Role>,
    jobs: seq<Job>,                    // every job ever enqueued, oldest first
    head: nat)                         // jobs[head..] are still waiting

  // ---------------------------------------------------------------- sessions

  datatype Write =
    | AddBatch(id: Uuid, row: Batch)
    | AddPrediction(prediction: Prediction)
    | UpdatePrediction(pid: nat, update: PredictionUpdate)
    | UpdateStatus(batch: Uuid, status: BatchStatus)
    | UpdateRole(user: Uuid, role: Role)
    | AddAudit(entry: AuditEntry)

  /** The columns an update names; a null label is refused by the table. */
  predicate Storable(u: PredictionUpdate) {
    u.docLabel != Null
  }

  predicate Empty(u: PredictionUpdate) {
    u.docLabel == Unset && u.overlay == Unset
  }

  function Updated(p: Prediction, u: PredictionUpdate): (r: Prediction)
    ensures r.batch == p.batch && r.filename == p.filename && r.confidence == p.confidence
  {
    p.(docLabel := if u.docLabel.Set? then u.docLabel.value else p.docLabel,
       overlay := match u.overlay
                  case Unset => p.overlay
                  case Null => None
                  case Set(path) => Some(path))
  }

  function ApplyWrite(w: World, x: Write): World {
    match x
    case AddBatch(id, row) => w.(batches := w.batches[id := row])
    case AddPrediction(row) => w.(predictions := w.predictions + [row])
    case UpdatePrediction(pid, u) =>
      if pid < |w.predictions| then w.(predictions := w.predictions[pid := Updated(w.predictions[pid], u)]) else w
    case UpdateStatus(id, status) =>
      if id in w.batches then w.(batches := w.batches[id := w.batches[id].(status := status)]) else w
    case UpdateRole(user, role) =>
      if user in w.users then w.(users := w.users[user := role]) else w
    case AddAudit(entry) => w.(audit := w.audit + [entry])
  }

  /** COMMIT: every flushed write of the session, in order. */
  function Commit(w: World, writes: seq<Write>): World {
    if writes == [] then w
    else ApplyWrite(Commit(w, writes[..|writes| - 1]), writes[|writes| - 1])
  }

  lemma CommitOne(w: World, x: Write)
    ensures Commit(w, [x]) == ApplyWrite(w, x)
  {
  }

  lemma CommitTwo(w: World, x: Write, y: Write)
    ensures Commit(w, [x, y]) == ApplyWrite(ApplyWrite(w, x), y)
  {
    assert [x, y][..1] == [x];
    CommitOne(w, x);
  }

  /**
   * A session works on the world it will commit to: flushing more writes and then committing is committing in two
   * parts.
   */
  lemma {:induction false} CommitConcat(w: World, xs: seq<Write>, ys: seq<Write>)
    ensures Commit(w, xs + ys) == Commit(Commit(w, xs), ys)
  {
    if ys == [] {
      assert xs + ys == xs;
    } else {
      var front, last := ys[..|ys| - 1], ys[|ys| - 1];
      assert (xs + ys)[..|xs + ys| - 1] == xs + front && (xs + ys)[|xs + ys| - 1] == last;
      CommitConcat(w, xs, front);
    }
  }

  // ---------------------------------------------------------------- classifier

  /**
   * What becomes of a call of `classify`. When the bytes do not decode it raises, and the other fields say nothing; the
   * label is None when its text is not one of the sixteen class names.
   */
  datatype Verdict = Verdict(decodes: bool, docLabel: Option<DocumentLabel>, confidence: real, overlay: Bytes)

  type Classifier = Bytes -> Verdict

  /**
   * The classifier answers, and passes the checks PredictionCreate makes before anything is written to the database.
   */
  predicate WellFormed(v: Verdict) {
    v.decodes && v.docLabel.Some? && 0.0 <= v.confidence <= 1.0
  }

  function PredictionOf(job: Job, v: Verdict): Prediction
    requires WellFormed(v)
  {
    Prediction(job.batch, job.filename, v.docLabel.value, v.confidence,
               Some(Uri(OverlayKey(job.batch, job.filename))))
  }

  // ---------------------------------------------------------------- readings of the tables

  /** `document_count`: the predictions that belong to the batch. */
  function PredictionsOf(predictions: seq<Prediction>, batch: Uuid): set<nat> {
    set p | 0 <= p < |predictions| && predictions[p].batch == batch
  }

  predicate Audited(w: World, action: AuditAction, target: AuditTarget) {
    exists k :: 0 <= k < |w.audit| && w.audit[k].action == action && w.audit[k].target == target
  }
}

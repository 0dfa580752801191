/**
 * The ingest worker as a step machine: one step per external call of process_one, any of which may fail
 * before or after taking effect. Triage decides the pure part between the calls.
 */
module Ingest {
  import opened Prelude
  import opened Keys
  import opened World

  /** Where process_one stands: the next external call and the locals it will need. */
  datatype IngestPc =
    | Idle
    | Sizing(name: string)
    | Removing(name: string)                    // delete_file of an empty or rejected file
    | Peeking(name: string)
    | Quarantining(name: string)
    | Reading(name: string)
    | Uploading(name: string, data: Bytes)
    | Saving(name: string)
    | Enqueuing(name: string, batch: Uuid)
    | Finishing(name: string)                   // delete_file after the job was enqueued

  predicate Oversized(data: Bytes) {
    |data| > MAX_FILE_SIZE_BYTES
  }

  /** read_partial(path, 4) */
  function Head(data: Bytes): Bytes {
    if |data| <= 4 then data else data[..4]
  }

  /** Contents the worker must accept under this name. */
  predicate Acceptable(name: string, data: Bytes) {
    |data| > 0 && !Oversized(data) && IsTiffName(name) && IsTiffMagic(Head(data))
  }

  /** Contents the worker must quarantine under this name. */
  predicate Suspicious(name: string, data: Bytes) {
    |data| > 0 && !Oversized(data) && IsTiffName(name) && !IsTiffMagic(Head(data))
  }

  /** The entry of process_one: a raw name that reduces to nothing is skipped without a call. */
  function Start(raw: string): IngestPc {
    var name := Basename(raw);
    if name != raw && name == "" then Idle else Sizing(name)
  }

  function Without<K, V>(m: map<K, V>, k: K): map<K, V> {
    m - {k}
  }

  function JobFor(batch: Uuid, name: string): Job {
    Job(batch, name, name)
  }

  function NewBatch(path: string, owner: Option<Uuid>): Batch {
    Batch(path, owner, Pending)
  }

  /** SFTP remove: an error when the file is not there. */
  function DeleteStep(w: World, path: string, o: Outcome): World {
    if path in w.files && o.Landed() then w.(files := Without(w.files, path)) else w
  }

  /** One external call. `newId` is the id the database would give to a new batch. */
  function IngestStep(w: World, pc: IngestPc, o: Outcome, newId: Uuid): (World, IngestPc) {
    match pc
    case Idle => (w, Idle)
    case Sizing(name) =>
      var path := UploadPath(name);
      if o != Ok || path !in w.files then (w, Idle)
      else if |w.files[path]| == 0 || Oversized(w.files[path]) || !IsTiffName(name) then (w, Removing(name))
      else (w, Peeking(name))
    case Removing(name) => (DeleteStep(w, UploadPath(name), o), Idle)
    case Peeking(name) =>
      var path := UploadPath(name);
      if o != Ok || path !in w.files then (w, Idle)
      else if IsTiffMagic(Head(w.files[path])) then (w, Reading(name))
      else (w, Quarantining(name))
    case Quarantining(name) =>
      // SFTP rename: an error when the source is gone or the target name is taken
      var path, target := UploadPath(name), QuarantinePath(name);
      if path in w.files && target !in w.files && o.Landed() then
        (w.(files := Without(w.files, path)[target := w.files[path]]), Idle)
      else (w, Idle)
    case Reading(name) =>
      var path := UploadPath(name);
      if o != Ok || path !in w.files then (w, Idle) else (w, Uploading(name, w.files[path]))
    case Uploading(name, data) =>
      var w' := if o.Landed() then w.(bucket := w.bucket[name := data]) else w;
      (w', if o == Ok then Saving(name) else Idle)
    case Saving(name) =>
      var w' := if o.Landed() then Commit(w, [AddBatch(newId, NewBatch(UploadPath(name), None))]) else w;
      (w', if o == Ok then Enqueuing(name, newId) else Idle)
    case Enqueuing(name, batch) =>
      var w' := if o.Landed() then w.(jobs := w.jobs + [JobFor(batch, name)]) else w;
      (w', if o == Ok then Finishing(name) else Idle)
    case Finishing(name) => (DeleteStep(w, UploadPath(name), o), Idle)
  }

  // ---------------------------------------------------------------- one call of process_one

  /** How each call site of one attempt fares; every site is reached at most once per attempt. */
  datatype Faults = Faults(size: Outcome, head: Outcome, read: Outcome, upload: Outcome,
                           save: Outcome, enqueue: Outcome, remove: Outcome, move: Outcome)

  const NO_FAULTS := Faults(Ok, Ok, Ok, Ok, Ok, Ok, Ok, Ok)

  function FaultAt(f: Faults, pc: IngestPc): Outcome {
    match pc
    case Idle => Ok
    case Sizing(_) => f.size
    case Removing(_) => f.remove
    case Peeking(_) => f.head
    case Quarantining(_) => f.move
    case Reading(_) => f.read
    case Uploading(_, _) => f.upload
    case Saving(_) => f.save
    case Enqueuing(_, _) => f.enqueue
    case Finishing(_) => f.remove
  }

  /** How many calls an attempt can still make. */
  function Remaining(pc: IngestPc): nat {
    match pc
    case Idle => 0
    case Sizing(_) => 8
    case Removing(_) => 1
    case Peeking(_) => 7
    case Quarantining(_) => 1
    case Reading(_) => 6
    case Uploading(_, _) => 5
    case Saving(_) => 4
    case Enqueuing(_, _) => 3
    case Finishing(_) => 2
  }

  /** The rest of an attempt when nothing else happens meanwhile. */
  function Attempt(w: World, pc: IngestPc, f: Faults, newId: Uuid): World
    decreases Remaining(pc)
  {
    if pc.Idle? then w
    else
      var (w', pc') := IngestStep(w, pc, FaultAt(f, pc), newId);
      Attempt(w', pc', f, newId)
  }

  lemma AttemptStep(w: World, pc: IngestPc, f: Faults, newId: Uuid, w': World, pc': IngestPc)
    requires !pc.Idle? && IngestStep(w, pc, FaultAt(f, pc), newId) == (w', pc')
    ensures Attempt(w, pc, f, newId) == Attempt(w', pc', f, newId)
  {
  }

  // ---------------------------------------------------------------- the decision table

  datatype Disposition = Skipped | Vanished | DeletedEmpty | Rejected | Quarantined | Accepted

  /** The triage of a listed entry. */
  function Triage(w: World, raw: string): Disposition {
    var name := Basename(raw);
    if raw != "" && name == "" then Skipped else TriageFile(w, name)
  }

  /** The triage of a file, from its name and bytes alone. */
  function TriageFile(w: World, name: string): Disposition {
    var path := UploadPath(name);
    if path !in w.files then Vanished
    else if |w.files[path]| == 0 then DeletedEmpty
    else if Oversized(w.files[path]) || !IsTiffName(name) then Rejected
    else if IsTiffMagic(Head(w.files[path])) then Accepted
    else Quarantined
  }

  /** The effect each disposition has on the stores. */
  function Dispose(w: World, raw: string, newId: Uuid): World {
    DisposeAs(w, Basename(raw), Triage(w, raw), newId)
  }

  function DisposeAs(w: World, name: string, d: Disposition, newId: Uuid): World {
    var path := UploadPath(name);
    match d
    case Skipped => w
    case Vanished => w
    case DeletedEmpty => w.(files := Without(w.files, path))
    case Rejected => w.(files := Without(w.files, path))
    case Quarantined =>
      if path in w.files then w.(files := Without(w.files, path)[QuarantinePath(name) := w.files[path]]) else w
    case Accepted =>
      if path in w.files then
        w.(files := Without(w.files, path),
           bucket := w.bucket[name := w.files[path]],
           batches := w.batches[newId := NewBatch(path, None)],
           jobs := w.jobs + [JobFor(newId, name)])
      else w
  }

  /** The calls that matter for this disposition all succeed, and a quarantined name is not taken yet. */
  predicate Completes(w: World, raw: string, f: Faults) {
    Triage(w, raw).Skipped? || CompletesAs(w, Basename(raw), TriageFile(w, Basename(raw)), f)
  }

  predicate CompletesAs(w: World, name: string, d: Disposition, f: Faults) {
    match d
    case Skipped => true
    case Vanished => f.size == Ok
    case DeletedEmpty => f.size == Ok && f.remove == Ok
    case Rejected => f.size == Ok && f.remove == Ok
    case Quarantined =>
      f.size == Ok && f.head == Ok && f.move == Ok && QuarantinePath(name) !in w.files
    case Accepted =>
      f.size == Ok && f.head == Ok && f.read == Ok && f.upload == Ok && f.save == Ok && f.enqueue == Ok
        && f.remove == Ok
  }

  /** An attempt that meets no failure does exactly what the table says, whatever the name, size and bytes. */
  lemma AttemptRefinesTable(w: World, raw: string, f: Faults, newId: Uuid)
    requires Completes(w, raw, f)
    ensures Attempt(w, Start(raw), f, newId) == Dispose(w, raw, newId)
  {
    if !Triage(w, raw).Skipped? {
      FileRefinesTable(w, Basename(raw), TriageFile(w, Basename(raw)), f, newId);
    }
  }

  lemma FileRefinesTable(w: World, name: string, d: Disposition, f: Faults, newId: Uuid)
    requires d == TriageFile(w, name) && CompletesAs(w, name, d, f)
    ensures Attempt(w, Sizing(name), f, newId) == DisposeAs(w, name, d, newId)
  {
    match d
    case Vanished => VanishedAttempt(w, name, f, newId);
    case DeletedEmpty => RemovedAttempt(w, name, f, newId);
    case Rejected => RemovedAttempt(w, name, f, newId);
    case Quarantined => QuarantinedAttempt(w, name, f, newId);
    case Accepted => AcceptedAttempt(w, name, f, newId);
  }

  lemma QuarantinedAttempt(w: World, name: string, f: Faults, newId: Uuid)
    requires UploadPath(name) in w.files && QuarantinePath(name) !in w.files && f.size == Ok && f.head == Ok
    requires f.move == Ok
    requires Suspicious(name, w.files[UploadPath(name)])
    ensures Attempt(w, Sizing(name), f, newId) ==
      w.(files := Without(w.files, UploadPath(name))[QuarantinePath(name) := w.files[UploadPath(name)]])
  {
    AttemptStep(w, Sizing(name), f, newId, w, Peeking(name));
    QuarantinedTail(w, name, f, newId);
  }

  lemma AcceptedAttempt(w: World, name: string, f: Faults, newId: Uuid)
    requires UploadPath(name) in w.files && Acceptable(name, w.files[UploadPath(name)]) && f.size == Ok && f.head == Ok
    requires f.read == Ok && f.upload == Ok && f.save == Ok && f.enqueue == Ok && f.remove == Ok
    ensures Attempt(w, Sizing(name), f, newId) ==
      w.(files := Without(w.files, UploadPath(name)),
         bucket := w.bucket[name := w.files[UploadPath(name)]],
         batches := w.batches[newId := NewBatch(UploadPath(name), None)],
         jobs := w.jobs + [JobFor(newId, name)])
  {
    AttemptStep(w, Sizing(name), f, newId, w, Peeking(name));
    AttemptStep(w, Peeking(name), f, newId, w, Reading(name));
    AcceptedTail(w, name, f, newId);
  }

  lemma VanishedAttempt(w: World, name: string, f: Faults, newId: Uuid)
    requires UploadPath(name) !in w.files
    ensures Attempt(w, Sizing(name), f, newId) == w
  {
  }

  lemma RemovedAttempt(w: World, name: string, f: Faults, newId: Uuid)
    requires UploadPath(name) in w.files && f.size == Ok && f.remove == Ok
    requires |w.files[UploadPath(name)]| == 0 || Oversized(w.files[UploadPath(name)]) || !IsTiffName(name)
    ensures Attempt(w, Sizing(name), f, newId) == w.(files := Without(w.files, UploadPath(name)))
  {
    AttemptStep(w, Sizing(name), f, newId, w, Removing(name));
    AttemptStep(w, Removing(name), f, newId, w.(files := Without(w.files, UploadPath(name))), Idle);
  }

  lemma QuarantinedTail(w: World, name: string, f: Faults, newId: Uuid)
    requires UploadPath(name) in w.files && QuarantinePath(name) !in w.files && f.head == Ok && f.move == Ok
    requires !IsTiffMagic(Head(w.files[UploadPath(name)]))
    ensures Attempt(w, Peeking(name), f, newId) ==
      w.(files := Without(w.files, UploadPath(name))[QuarantinePath(name) := w.files[UploadPath(name)]])
  {
    AttemptStep(w, Peeking(name), f, newId, w, Quarantining(name));
    AttemptStep(w, Quarantining(name), f, newId,
                w.(files := Without(w.files, UploadPath(name))[QuarantinePath(name) := w.files[UploadPath(name)]]),
                Idle);
  }

  /** The happy path from reading the file on. */
  lemma AcceptedTail(w: World, name: string, f: Faults, newId: Uuid)
    requires UploadPath(name) in w.files
    requires f.read == Ok && f.upload == Ok && f.save == Ok && f.enqueue == Ok && f.remove == Ok
    ensures Attempt(w, Reading(name), f, newId) ==
      w.(files := Without(w.files, UploadPath(name)),
         bucket := w.bucket[name := w.files[UploadPath(name)]],
         batches := w.batches[newId := NewBatch(UploadPath(name), None)],
         jobs := w.jobs + [JobFor(newId, name)])
  {
    var path := UploadPath(name);
    var data := w.files[path];
    AttemptStep(w, Reading(name), f, newId, w, Uploading(name, data));
    var w1 := w.(bucket := w.bucket[name := data]);
    AttemptStep(w, Uploading(name, data), f, newId, w1, Saving(name));
    CommitOne(w1, AddBatch(newId, NewBatch(path, None)));
    var w2 := w1.(batches := w1.batches[newId := NewBatch(path, None)]);
    AttemptStep(w1, Saving(name), f, newId, w2, Enqueuing(name, newId));
    var w3 := w2.(jobs := w2.jobs + [JobFor(newId, name)]);
    AttemptStep(w2, Enqueuing(name, newId), f, newId, w3, Finishing(name));
    AttemptStep(w3, Finishing(name), f, newId, w3.(files := Without(w.files, path)), Idle);
  }

  /** Whatever fails, an attempt touches no file but the two its base name selects, and no object but that name's. */
  lemma {:induction false} AttemptFrame(w: World, pc: IngestPc, name: string, f: Faults, newId: Uuid)
    requires pc.Idle? || pc.name == name
    ensures OnlyAbout(name, w, Attempt(w, pc, f, newId))
    decreases Remaining(pc)
  {
    if !pc.Idle? {
      var (w1, pc1) := IngestStep(w, pc, FaultAt(f, pc), newId);
      StepFrame(w, pc, name, FaultAt(f, pc), newId);
      AttemptFrame(w1, pc1, name, f, newId);
    }
  }

  lemma StepFrame(w: World, pc: IngestPc, name: string, o: Outcome, newId: Uuid)
    requires !pc.Idle? && pc.name == name
    ensures OnlyAbout(name, w, IngestStep(w, pc, o, newId).0)
    ensures IngestStep(w, pc, o, newId).1.Idle? || IngestStep(w, pc, o, newId).1.name == name
  {
    if pc.Removing? || pc.Finishing? || pc.Quarantining? {
      FileStepFrame(w, pc, name, o, newId);
    } else if pc.Uploading? || pc.Saving? || pc.Enqueuing? {
      StoreStepFrame(w, pc, name, o, newId);
    }
  }

  lemma FileStepFrame(w: World, pc: IngestPc, name: string, o: Outcome, newId: Uuid)
    requires (pc.Removing? || pc.Finishing? || pc.Quarantining?) && pc.name == name
    ensures OnlyAbout(name, w, IngestStep(w, pc, o, newId).0)
  {
    assert UploadPath(name)[1] != QuarantinePath(name)[1];
  }

  lemma StoreStepFrame(w: World, pc: IngestPc, name: string, o: Outcome, newId: Uuid)
    requires (pc.Uploading? || pc.Saving? || pc.Enqueuing?) && pc.name == name
    ensures OnlyAbout(name, w, IngestStep(w, pc, o, newId).0)
  {
    if pc.Saving? {
      CommitOne(w, AddBatch(newId, NewBatch(UploadPath(name), None)));
    }
  }

  /** From `w` to `w'`, nothing changed but the two files and the object of this name, and rows and jobs added. */
  ghost predicate OnlyAbout(name: string, w: World, w': World) {
    && (forall path | path != UploadPath(name) && path != QuarantinePath(name) ::
          path in w'.files <==> path in w.files)
    && (forall path | path in w.files && path in w'.files && path != QuarantinePath(name) ::
          w'.files[path] == w.files[path])
    && (UploadPath(name) in w'.files ==> UploadPath(name) in w.files)
    && (forall key | key != name :: key in w'.bucket <==> key in w.bucket)
    && (forall key | key in w.bucket && key in w'.bucket && key != name :: w'.bucket[key] == w.bucket[key])
    && w'.predictions == w.predictions && w'.audit == w.audit && w'.users == w.users && w'.head == w.head
    && w.jobs <= w'.jobs
  }

  /** The contents are still where the scanner left them. */
  predicate StillUploaded(w: World, name: string, data: Bytes) {
    UploadPath(name) in w.files && w.files[UploadPath(name)] == data
  }

  /** The contents are stored, recorded under `batch`, and queued. */
  predicate HandedOver(w: World, name: string, data: Bytes, batch: Uuid) {
    && name in w.bucket && w.bucket[name] == data
    && batch in w.batches && w.batches[batch] == NewBatch(UploadPath(name), None)
    && JobFor(batch, name) in w.jobs
  }

  /** What an attempt on acceptable contents has secured by each point. */
  predicate Custody(w: World, pc: IngestPc, name: string, data: Bytes, newId: Uuid) {
    match pc
    case Idle => StillUploaded(w, name, data) || HandedOver(w, name, data, newId)
    case Sizing(n) => n == name && StillUploaded(w, name, data)
    case Removing(_) => false
    case Peeking(n) => n == name && StillUploaded(w, name, data)
    case Quarantining(_) => false
    case Reading(n) => n == name && StillUploaded(w, name, data)
    case Uploading(n, d) => n == name && d == data && StillUploaded(w, name, data)
    case Saving(n) => n == name && StillUploaded(w, name, data) && name in w.bucket && w.bucket[name] == data
    case Enqueuing(n, b) =>
      && n == name && b == newId && StillUploaded(w, name, data)
      && name in w.bucket && w.bucket[name] == data && b in w.batches
      && w.batches[b] == NewBatch(UploadPath(name), None)
    case Finishing(n) => n == name && HandedOver(w, name, data, newId)
  }

  /** An attempt never destroys acceptable contents before they are stored, recorded and queued, whatever fails. */
  lemma {:induction false} AttemptKeepsCustody(w: World, pc: IngestPc, name: string, data: Bytes, f: Faults,
                                               newId: Uuid)
    requires Acceptable(name, data) && Custody(w, pc, name, data, newId)
    ensures Custody(Attempt(w, pc, f, newId), Idle, name, data, newId)
    decreases Remaining(pc)
  {
    if !pc.Idle? {
      var (w1, pc1) := IngestStep(w, pc, FaultAt(f, pc), newId);
      if pc.Saving? {
        CommitOne(w, AddBatch(newId, NewBatch(UploadPath(name), None)));
      }
      if pc.Enqueuing? {
        assert FaultAt(f, pc).Landed() ==> w1.jobs[|w.jobs|] == JobFor(newId, name);
      }
      AttemptKeepsCustody(w1, pc1, name, data, f, newId);
    }
  }
}

/**
 * What process_one does with a file, said from its name, size and bytes alone, and what each failing call leaves
 * behind.
 */
module Decisions {
  import opened Prelude
  import opened Keys
  import opened World
  import opened Formats
  import opened Ingest

  /** A TIFF document within 50 MiB, by name and by contents. */
  predicate Document(name: string, data: Bytes) {
    4 <= |data| <= 52428800 && TiffNamed(name) && TiffBytes(data)
  }

  /** Named and sized like one, with other contents. */
  predicate Impostor(name: string, data: Bytes) {
    0 < |data| <= 52428800 && TiffNamed(name) && !TiffBytes(data)
  }

  /** Too large, or named otherwise. */
  predicate Unwanted(name: string, data: Bytes) {
    |data| > 52428800 || (|data| > 0 && !TiffNamed(name))
  }

  lemma MagicSpelled(data: Bytes)
    ensures IsTiffMagic(Head(data)) <==> TiffBytes(data)
  {
    if |data| >= 4 {
      assert Head(data) == [data[0], data[1], data[2], data[3]];
    }
  }

  /** The worker's tests tell exactly the three kinds of contents apart. */
  lemma KindsSpelled(name: string, data: Bytes)
    ensures Acceptable(name, data) <==> Document(name, data)
    ensures Suspicious(name, data) <==> Impostor(name, data)
    ensures |data| > 0 && (Oversized(data) || !IsTiffName(name)) <==> Unwanted(name, data)
  {
    MagicSpelled(data);
    TiffNameSpelled(name);
  }

  /** The answer of the triage for a file of that name. */
  lemma TriageFileSpelled(w: World, name: string)
    ensures var d, path := TriageFile(w, name), "/upload/" + name;
      && d != Skipped
      && (d == Vanished <==> path !in w.files)
      && (d == DeletedEmpty <==> path in w.files && w.files[path] == [])
      && (d == Rejected <==> path in w.files && Unwanted(name, w.files[path]))
      && (d == Quarantined <==> path in w.files && Impostor(name, w.files[path]))
      && (d == Accepted <==> path in w.files && Document(name, w.files[path]))
  {
    if UploadPath(name) in w.files {
      KindsSpelled(name, w.files[UploadPath(name)]);
    }
  }

  /** Of a listed entry only what follows the last slash counts; an entry that ends in a slash is skipped. */
  lemma TriageSpelled(w: World, raw: string)
    ensures Triage(w, raw) == Skipped <==> raw != "" && raw[|raw| - 1] == '/'
    ensures Triage(w, raw) != Skipped ==> Triage(w, raw) == TriageFile(w, Basename(raw))
    ensures Start(raw) == if Triage(w, raw) == Skipped then Idle else Sizing(Basename(raw))
  {
    var name := Basename(raw);
    if raw != "" && name != "" {
      assert raw[|raw| - 1] == name[|name| - 1];
    }
  }

  /** The disposition a listed entry deserves. */
  predicate Deserved(w: World, raw: string, d: Disposition) {
    var name := Basename(raw);
    var path := "/upload/" + name;
    if raw != "" && raw[|raw| - 1] == '/' then d == Skipped
    else if path !in w.files then d == Vanished
    else
      match d
      case Skipped => false
      case Vanished => false
      case DeletedEmpty => w.files[path] == []
      case Rejected => Unwanted(name, w.files[path])
      case Quarantined => Impostor(name, w.files[path])
      case Accepted => Document(name, w.files[path])
  }

  lemma TriageDeserved(w: World, raw: string, d: Disposition)
    ensures Triage(w, raw) == d <==> Deserved(w, raw, d)
  {
    TriageSpelled(w, raw);
    TriageFileSpelled(w, Basename(raw));
  }

  /** Each call of the happy path takes effect if it lands, and the next is made only after it returned. */
  function Processed(w: World, name: string, data: Bytes, f: Faults, newId: Uuid): World {
    var path := "/upload/" + name;
    var read := f.size == Ok && f.head == Ok && f.read == Ok;
    var stored := read && f.upload == Ok;
    var saved := stored && f.save == Ok;
    var queued := saved && f.enqueue == Ok;
    w.(bucket := if read && f.upload.Landed() then w.bucket[name := data] else w.bucket,
       batches := if stored && f.save.Landed() then w.batches[newId := Batch(path, None, Pending)] else w.batches,
       jobs := if saved && f.enqueue.Landed() then w.jobs + [Job(newId, name, name)] else w.jobs,
       files := if queued && f.remove.Landed() then w.files - {path} else w.files)
  }

  /** What an attempt on a document leaves, for every pattern of failures. */
  lemma DocumentProcessed(w: World, name: string, data: Bytes, f: Faults, newId: Uuid)
    requires var path := "/upload/" + name; path in w.files && w.files[path] == data && Document(name, data)
    ensures Attempt(w, Sizing(name), f, newId) == Processed(w, name, data, f, newId)
  {
    KindsSpelled(name, data);
    UntilRead(w, name, data, f, newId);
    if f.size == Ok && f.head == Ok && f.read == Ok {
      FromUpload(w, name, data, f, newId);
    }
  }

  /** Up to the upload nothing changes. */
  lemma UntilRead(w: World, name: string, data: Bytes, f: Faults, newId: Uuid)
    requires StillUploaded(w, name, data) && Acceptable(name, data)
    ensures Attempt(w, Sizing(name), f, newId) ==
      if f.size == Ok && f.head == Ok && f.read == Ok then Attempt(w, Uploading(name, data), f, newId) else w
  {
    AttemptStep(w, Sizing(name), f, newId, w, if f.size == Ok then Peeking(name) else Idle);
    AttemptStep(w, Peeking(name), f, newId, w, if f.head == Ok then Reading(name) else Idle);
    AttemptStep(w, Reading(name), f, newId, w, if f.read == Ok then Uploading(name, data) else Idle);
  }

  lemma AttemptUnrolls(w: World, pc: IngestPc, f: Faults, newId: Uuid)
    requires !pc.Idle?
    ensures var (w', pc') := IngestStep(w, pc, FaultAt(f, pc), newId);
      Attempt(w, pc, f, newId) == Attempt(w', pc', f, newId) && (pc'.Idle? ==> Attempt(w, pc, f, newId) == w')
  {
  }

  lemma FromUpload(w: World, name: string, data: Bytes, f: Faults, newId: Uuid)
    requires UploadPath(name) in w.files && f.size == Ok && f.head == Ok && f.read == Ok
    ensures Attempt(w, Uploading(name, data), f, newId) == Processed(w, name, data, f, newId)
  {
    AttemptUnrolls(w, Uploading(name, data), f, newId);
    if f.upload == Ok {
      FromSave(w.(bucket := w.bucket[name := data]), name, f, newId);
    }
  }

  lemma FromSave(w: World, name: string, f: Faults, newId: Uuid)
    requires UploadPath(name) in w.files
    ensures var path := UploadPath(name);
      Attempt(w, Saving(name), f, newId) ==
        w.(batches := if f.save.Landed() then w.batches[newId := Batch(path, None, Pending)] else w.batches,
           jobs := if f.save == Ok && f.enqueue.Landed() then w.jobs + [Job(newId, name, name)] else w.jobs,
           files := if f.save == Ok && f.enqueue == Ok && f.remove.Landed() then w.files - {path} else w.files)
  {
    AttemptUnrolls(w, Saving(name), f, newId);
    CommitOne(w, AddBatch(newId, NewBatch(UploadPath(name), None)));
    if f.save == Ok {
      var saved := w.(batches := w.batches[newId := NewBatch(UploadPath(name), None)]);
      AttemptUnrolls(saved, Enqueuing(name, newId), f, newId);
      if f.enqueue == Ok {
        AttemptUnrolls(saved.(jobs := w.jobs + [JobFor(newId, name)]), Finishing(name), f, newId);
      }
    }
  }

  /** Other contents under a TIFF name: moved aside unless that place is taken, if the calls for it land. */
  lemma ImpostorProcessed(w: World, name: string, data: Bytes, f: Faults, newId: Uuid)
    requires var path := "/upload/" + name; path in w.files && w.files[path] == data && Impostor(name, data)
    ensures var path, aside := "/upload/" + name, "/quarantine/" + name;
      Attempt(w, Sizing(name), f, newId) ==
        if f.size == Ok && f.head == Ok && f.move.Landed() && aside !in w.files
        then w.(files := (w.files - {path})[aside := data]) else w
  {
    KindsSpelled(name, data);
    UntilMoved(w, name, data, f, newId);
    MovedAside(w, name, data, f, newId);
  }

  lemma UntilMoved(w: World, name: string, data: Bytes, f: Faults, newId: Uuid)
    requires StillUploaded(w, name, data) && Suspicious(name, data)
    ensures Attempt(w, Sizing(name), f, newId) ==
      if f.size == Ok && f.head == Ok then Attempt(w, Quarantining(name), f, newId) else w
  {
    AttemptStep(w, Sizing(name), f, newId, w, if f.size == Ok then Peeking(name) else Idle);
    AttemptStep(w, Peeking(name), f, newId, w, if f.head == Ok then Quarantining(name) else Idle);
  }

  lemma MovedAside(w: World, name: string, data: Bytes, f: Faults, newId: Uuid)
    requires StillUploaded(w, name, data)
    ensures Attempt(w, Quarantining(name), f, newId) ==
      if f.move.Landed() && QuarantinePath(name) !in w.files
      then w.(files := (w.files - {UploadPath(name)})[QuarantinePath(name) := data]) else w
  {
    AttemptUnrolls(w, Quarantining(name), f, newId);
  }

  /** Everything else is removed, the empty file included. */
  lemma OtherProcessed(w: World, name: string, data: Bytes, f: Faults, newId: Uuid)
    requires var path := "/upload/" + name; path in w.files && w.files[path] == data
    requires !Document(name, data) && !Impostor(name, data)
    ensures Attempt(w, Sizing(name), f, newId) ==
      if f.size == Ok && f.remove.Landed() then w.(files := w.files - {"/upload/" + name}) else w
  {
    KindsSpelled(name, data);
    AttemptStep(w, Sizing(name), f, newId, w, if f.size == Ok then Removing(name) else Idle);
    AttemptUnrolls(w, Removing(name), f, newId);
  }
}

/**
 * Documents are not lost: every acceptable file the scanner delivered is still in /upload or has been
 * stored, recorded and queued, in every reachable state, wherever calls fail or processes die.
 */
module Documents {
  import opened Prelude
  import opened Keys
  import opened World
  import opened System
  import I = Ingest
  import D = Demo

  type Files = map<string, Bytes>

  predicate AcceptableDrop(d: Drop) {
    I.Acceptable(d.name, d.data)
  }

  /** Drop number `d` still lies in /upload. */
  predicate InUpload(files: Files, h: History, d: nat)
    requires d < |h.drops|
  {
    var name := h.drops[d].name;
    name in h.current && h.current[name] == d && UploadPath(name) in files
  }

  /** Job number `j` was queued for drop number `d`, under a batch recorded for its path. */
  predicate QueuedAs(w: World, h: History, d: nat, j: nat)
    requires d < |h.drops|
  {
    var name := h.drops[d].name;
    && j < |w.jobs| && w.jobs[j].blobKey == name && w.jobs[j].filename == name
    && w.jobs[j].batch in w.batches && w.batches[w.jobs[j].batch].path == UploadPath(name)
    && w.jobs[j].batch in h.origin && h.origin[w.jobs[j].batch] == d
  }

  predicate Queued(w: World, h: History, d: nat)
    requires d < |h.drops|
  {
    exists j :: 0 <= j < |w.jobs| && QueuedAs(w, h, d, j)
  }

  // ---------------------------------------------------------------- the invariant

  predicate DropsIndexed(drops: seq<Drop>, current: map<string, nat>) {
    && (forall name | name in current :: current[name] < |drops| && drops[current[name]].name == name)
    && (forall d | 0 <= d < |drops| ::
          SlashFree(drops[d].name) && drops[d].name in current && d <= current[drops[d].name])
  }

  /** A file in /upload is the latest drop of its name. */
  ghost predicate UploadsKnown(files: Files, drops: seq<Drop>, current: map<string, nat>) {
    forall name | UploadPath(name) in files ::
      name in current && current[name] < |drops| && files[UploadPath(name)] == drops[current[name]].data
  }

  /** A quarantined file is one the worker had to quarantine. */
  ghost predicate QuarantineKnown(files: Files) {
    forall name | QuarantinePath(name) in files :: I.Suspicious(name, files[QuarantinePath(name)])
  }

  /** A document object holds the bytes of the drop that was uploaded last under its name. */
  predicate StoredKnown(drops: seq<Drop>, current: map<string, nat>, stored: map<string, nat>, bucket: Files) {
    forall name | name in stored ::
      && SlashFree(name) && IsTiffName(name) && name in current && stored[name] <= current[name] < |drops|
      && drops[stored[name]].name == name
      && name in bucket && bucket[name] == drops[stored[name]].data
  }

  /** A batch of the ingest worker records the path of the drop it was made for; by then the bytes were uploaded. */
  predicate OriginKnown(drops: seq<Drop>, stored: map<string, nat>, batches: map<Uuid, Batch>, b: Uuid, d: nat) {
    && b in batches && d < |drops|
    && batches[b].path == UploadPath(drops[d].name)
    && drops[d].name in stored && d <= stored[drops[d].name]
  }

  predicate OriginsKnown(drops: seq<Drop>, stored: map<string, nat>, origin: map<Uuid, nat>, batches: map<Uuid,
                         Batch>) {
    forall b | b in origin :: OriginKnown(drops, stored, batches, b, origin[b])
  }

  /** The worker is at a file that lies in /upload. */
  predicate AtFile(files: Files, h: History, name: string) {
    SlashFree(name) && UploadPath(name) in files && name in h.current && h.current[name] < |h.drops|
  }

  /** What the worker has established about the file it is at. */
  predicate WorkerKnows(pc: I.IngestPc, w: World, h: History) {
    && (pc.Sizing? ==> SlashFree(pc.name))
    && (!pc.Idle? && !pc.Sizing? ==> AtFile(w.files, h, pc.name))
    && (pc.Removing? ==>
          && !I.Acceptable(pc.name, w.files[UploadPath(pc.name)])
          && !I.Suspicious(pc.name, w.files[UploadPath(pc.name)]))
    && (pc.Peeking? ==>
          || I.Acceptable(pc.name, w.files[UploadPath(pc.name)])
          || I.Suspicious(pc.name, w.files[UploadPath(pc.name)]))
    && (pc.Quarantining? ==> I.Suspicious(pc.name, w.files[UploadPath(pc.name)]))
    && (pc.Reading? || pc.Uploading? || pc.Saving? || pc.Enqueuing? || pc.Finishing? ==>
          I.Acceptable(pc.name, w.files[UploadPath(pc.name)]))
    && (pc.Uploading? ==> pc.data == w.files[UploadPath(pc.name)])
    && (pc.Saving? ==> pc.name in h.stored && h.stored[pc.name] == h.current[pc.name])
    && (pc.Enqueuing? ==> pc.batch in h.origin && h.origin[pc.batch] == h.current[pc.name])
    && (pc.Finishing? ==> Queued(w, h, h.current[pc.name]))
  }

  predicate Secured(w: World, h: History) {
    forall d | 0 <= d < |h.drops| && AcceptableDrop(h.drops[d]) :: InUpload(w.files, h, d) || Queued(w, h, d)
  }

  /** Bytes waiting to be uploaded by a demo call never go to a document key. */
  predicate DemosKnown(demos: seq<D.DemoPc>) {
    forall i | 0 <= i < |demos| && demos[i].Uploading? :: SlashFree(demos[i].name) && !IsTiffName(demos[i].name)
  }

  ghost predicate Inv(s: State) {
    && DropsIndexed(s.h.drops, s.h.current)
    && UploadsKnown(s.w.files, s.h.drops, s.h.current)
    && QuarantineKnown(s.w.files)
    && StoredKnown(s.h.drops, s.h.current, s.h.stored, s.w.bucket)
    && OriginsKnown(s.h.drops, s.h.stored, s.h.origin, s.w.batches)
    && WorkerKnows(s.ingest, s.w, s.h)
    && Secured(s.w, s.h)
    && DemosKnown(s.demos)
  }

  // ---------------------------------------------------------------- preservation

  /** Everything recorded about drops and batches is still recorded. */
  predicate HistoryGrows(h: History, h': History) {
    h.drops <= h'.drops && forall b | b in h.origin :: b in h'.origin && h'.origin[b] == h.origin[b]
  }

  /** What is queued stays queued while the stores only grow. */
  lemma QueuedStays(w: World, h: History, w': World, h': History, d: nat)
    requires d < |h.drops| && HistoryGrows(h, h') && Grows(w, w')
    requires Queued(w, h, d)
    ensures Queued(w', h', d)
  {
    var j :| 0 <= j < |w.jobs| && QueuedAs(w, h, d, j);
    assert QueuedAs(w', h', d, j);
  }

  /** Nothing becomes less secure while files stay and the stores grow. */
  lemma SecuredStays(w: World, h: History, w': World, h': History)
    requires Secured(w, h) && Grows(w, w') && HistoryGrows(h, h')
    requires h'.drops == h.drops && h'.current == h.current && w'.files == w.files
    ensures Secured(w', h')
  {
    forall d | 0 <= d < |h.drops| && AcceptableDrop(h.drops[d]) ensures InUpload(w'.files, h', d) || Queued(w', h', d) {
      assert InUpload(w.files, h, d) || Queued(w, h, d);
      if Queued(w, h, d) {
        QueuedStays(w, h, w', h', d);
      }
    }
  }

  lemma WorkerStillKnows(pc: I.IngestPc, w: World, h: History, w': World, h': History)
    requires WorkerKnows(pc, w, h) && Grows(w, w') && HistoryGrows(h, h')
    requires h'.drops == h.drops && h'.current == h.current && h'.stored == h.stored && w'.files == w.files
    ensures WorkerKnows(pc, w', h')
  {
    if pc.Finishing? {
      QueuedStays(w, h, w', h', h.current[pc.name]);
    }
  }

  /** Calls that leave files, drops and the worker alone, and document objects as they are. */
  lemma OthersKeep(s: State, s': State)
    requires Inv(s) && Grows(s.w, s'.w) && DemosKnown(s'.demos)
    requires s'.w.files == s.w.files && s'.ingest == s.ingest
    requires s'.h.drops == s.h.drops && s'.h.current == s.h.current && s'.h.stored == s.h.stored
    requires s'.h.origin == s.h.origin
    requires forall name | name in s.h.stored :: SameObject(s.w, s'.w, name)
    ensures Inv(s')
  {
    SecuredStays(s.w, s.h, s'.w, s'.h);
    WorkerStillKnows(s.ingest, s.w, s.h, s'.w, s'.h);
  }

  lemma ArriveKeeps(s: State, name: string, data: Bytes, s': State)
    requires Inv(s) && SlashFree(name) && UploadPath(name) !in s.w.files
    requires s' == s.(w := s.w.(files := s.w.files[UploadPath(name) := data]), h := ArriveHistory(s.h, name, data))
    ensures Inv(s')
  {
    ArriveKeepsSecured(s.w, s.h, s'.w, s'.h, name, data);
    ArriveKeepsStored(s, s', name, data);
    ArriveKeepsIndex(s.h, name, data);
    ArriveKeepsUploads(s, s', name, data);
    ArriveKeepsQuarantine(s.w.files, name, data);
    ArriveKeepsWorker(s, s', name, data);
  }

  lemma ArriveKeepsIndex(h: History, name: string, data: Bytes)
    requires DropsIndexed(h.drops, h.current) && SlashFree(name)
    ensures var h' := ArriveHistory(h, name, data); DropsIndexed(h'.drops, h'.current)
  {
  }

  lemma ArriveKeepsUploads(s: State, s': State, name: string, data: Bytes)
    requires Inv(s) && UploadPath(name) !in s.w.files
    requires s'.w == s.w.(files := s.w.files[UploadPath(name) := data]) && s'.h == ArriveHistory(s.h, name, data)
    ensures UploadsKnown(s'.w.files, s'.h.drops, s'.h.current)
  {
  }

  lemma ArriveKeepsQuarantine(files: Files, name: string, data: Bytes)
    requires QuarantineKnown(files)
    ensures QuarantineKnown(files[UploadPath(name) := data])
  {
  }

  lemma ArriveKeepsWorker(s: State, s': State, name: string, data: Bytes)
    requires Inv(s) && UploadPath(name) !in s.w.files
    requires s' == s.(w := s.w.(files := s.w.files[UploadPath(name) := data]), h := ArriveHistory(s.h, name, data))
    ensures WorkerKnows(s'.ingest, s'.w, s'.h)
  {
    if s.ingest.Finishing? {
      QueuedStays(s.w, s.h, s'.w, s'.h, s.h.current[s.ingest.name]);
    }
  }

  lemma ArriveKeepsSecured(w: World, h: History, w': World, h': History, name: string, data: Bytes)
    requires Secured(w, h) && UploadPath(name) !in w.files
    requires w' == w.(files := w.files[UploadPath(name) := data]) && h' == ArriveHistory(h, name, data)
    ensures Secured(w', h')
  {
    forall d | 0 <= d < |h'.drops| && AcceptableDrop(h'.drops[d])
      ensures InUpload(w'.files, h', d) || Queued(w', h', d)
    {
      if d < |h.drops| {
        assert h'.drops[d] == h.drops[d];
        ArriveKeepsDrop(w, h, w', h', name, data, d);
      }
    }
  }

  /** An earlier drop still lies where it lay, or its job is still queued: the new file displaces none. */
  lemma ArriveKeepsDrop(w: World, h: History, w': World, h': History, name: string, data: Bytes, d: nat)
    requires d < |h.drops| && UploadPath(name) !in w.files && (InUpload(w.files, h, d) || Queued(w, h, d))
    requires w' == w.(files := w.files[UploadPath(name) := data]) && h' == ArriveHistory(h, name, data)
    ensures InUpload(w'.files, h', d) || Queued(w', h', d)
  {
    if Queued(w, h, d) {
      QueuedStays(w, h, w', h', d);
    }
  }

  lemma ArriveKeepsStored(s: State, s': State, name: string, data: Bytes)
    requires Inv(s) && s'.w == s.w.(files := s.w.files[UploadPath(name) := data])
    requires s'.h == ArriveHistory(s.h, name, data)
    ensures StoredKnown(s'.h.drops, s'.h.current, s'.h.stored, s'.w.bucket)
    ensures OriginsKnown(s'.h.drops, s'.h.stored, s'.h.origin, s'.w.batches)
  {
  }

  /** The worker turns to another call, or gives up, with the stores as they are. */
  lemma WorkerMoves(s: State, pc: I.IngestPc)
    requires Inv(s) && WorkerKnows(pc, s.w, s.h)
    ensures Inv(s.(ingest := pc))
  {
  }

  lemma BeginKeeps(s: State, raw: string)
    requires Inv(s)
    ensures Inv(s.(ingest := I.Start(raw)))
  {
  }

  /** A file the worker is done with disappears. */
  lemma FileRemoved(s: State, name: string, files: Files)
    requires Inv(s) && AtFile(s.w.files, s.h, name)
    requires I.Acceptable(name, s.w.files[UploadPath(name)]) ==> Queued(s.w, s.h, s.h.current[name])
    requires forall path | path in files && path != QuarantinePath(name) ::
      path != UploadPath(name) && path in s.w.files && files[path] == s.w.files[path]
    requires forall path | path in s.w.files && path != UploadPath(name) :: path in files
    requires QuarantineKnown(files)
    ensures Inv(s.(w := s.w.(files := files), ingest := I.Idle))
  {
    var w' := s.w.(files := files);
    forall n | UploadPath(n) in files
      ensures n in s.h.current && s.h.current[n] < |s.h.drops| && files[UploadPath(n)] == s.h.drops[s.h.current[n]].data
    {
      assert UploadPath(n) != QuarantinePath(name);
      assert UploadPath(n) in s.w.files;
    }
    forall d | 0 <= d < |s.h.drops| && AcceptableDrop(s.h.drops[d])
      ensures InUpload(files, s.h, d) || Queued(w', s.h, d)
    {
      assert InUpload(s.w.files, s.h, d) || Queued(s.w, s.h, d);
      assert s.h.drops[d].name == name && s.h.current[name] == d ==> Queued(s.w, s.h, d);
      if Queued(s.w, s.h, d) {
        QueuedStays(s.w, s.h, w', s.h, d);
      }
    }
  }

  /** The bytes of the file at hand are stored under its name. */
  lemma DocumentStored(s: State, name: string, data: Bytes, pc: I.IngestPc)
    requires Inv(s) && s.ingest == I.Uploading(name, data) && pc in {I.Idle, I.Saving(name)}
    ensures Inv(s.(w := s.w.(bucket := s.w.bucket[name := data]), ingest := pc,
                   h := s.h.(stored := s.h.stored[name := s.h.current[name]])))
  {
    var w', h' := s.w.(bucket := s.w.bucket[name := data]), s.h.(stored := s.h.stored[name := s.h.current[name]]);
    StoredAgain(s.h, s.w.batches, name);
    SecuredStays(s.w, s.h, w', h');
    ObjectStored(s.h, s.w.bucket, name, data);
    StoredWorker(s.w, s.h, w', h', name, data, pc);
  }

  lemma ObjectStored(h: History, bucket: Files, name: string, data: Bytes)
    requires DropsIndexed(h.drops, h.current) && StoredKnown(h.drops, h.current, h.stored, bucket)
    requires SlashFree(name) && IsTiffName(name) && name in h.current && h.current[name] < |h.drops|
    requires h.drops[h.current[name]].data == data
    ensures StoredKnown(h.drops, h.current, h.stored[name := h.current[name]], bucket[name := data])
  {
  }

  lemma StoredWorker(w: World, h: History, w': World, h': History, name: string, data: Bytes, pc: I.IngestPc)
    requires WorkerKnows(I.Uploading(name, data), w, h) && pc in {I.Idle, I.Saving(name)} && w'.files == w.files
    requires h' == h.(stored := h'.stored) && name in h'.stored && name in h.current
    requires h'.stored[name] == h.current[name]
    ensures WorkerKnows(pc, w', h')
  {
  }

  /** The name's latest drop is at least as late as the one stored before. */
  lemma StoredAgain(h: History, batches: map<Uuid, Batch>, name: string)
    requires DropsIndexed(h.drops, h.current) && name in h.current && OriginsKnown(h.drops, h.stored, h.origin, batches)
    ensures OriginsKnown(h.drops, h.stored[name := h.current[name]], h.origin, batches)
  {
  }

  /** A batch row is committed for the drop at hand. */
  lemma BatchSaved(s: State, name: string, newId: Uuid, pc: I.IngestPc, s': State)
    requires Inv(s) && s.ingest == I.Saving(name) && newId !in s.w.batches && pc in {I.Idle, I.Enqueuing(name, newId)}
    requires s'.w == s.w.(batches := s.w.batches[newId := I.NewBatch(UploadPath(name), None)])
    requires s'.h == s.h.(origin := s.h.origin[newId := s.h.current[name]], orphans := s'.h.orphans)
    requires s'.ingest == pc && s'.demos == s.demos
    ensures Inv(s')
  {
    OriginAdded(s.h, s.w.batches, name, newId);
    SavedSecured(s.w, s.h, s'.w, s'.h, newId);
    SavedWorker(s.w, s.h, s'.w, s'.h, name, newId, pc);
  }

  lemma SavedSecured(w: World, h: History, w': World, h': History, newId: Uuid)
    requires Secured(w, h) && newId !in w.batches && newId !in h.origin
    requires newId in w'.batches && w' == w.(batches := w.batches[newId := w'.batches[newId]])
    requires newId in h'.origin && h' == h.(origin := h.origin[newId := h'.origin[newId]], orphans := h'.orphans)
    ensures Secured(w', h')
  {
    SecuredStays(w, h, w', h');
  }

  lemma SavedWorker(w: World, h: History, w': World, h': History, name: string, newId: Uuid, pc: I.IngestPc)
    requires WorkerKnows(I.Saving(name), w, h) && pc in {I.Idle, I.Enqueuing(name, newId)} && w'.files == w.files
    requires h'.drops == h.drops && h'.current == h.current && newId in h'.origin && h'.origin[newId] == h.current[name]
    ensures WorkerKnows(pc, w', h')
  {
  }

  lemma OriginAdded(h: History, batches: map<Uuid, Batch>, name: string, newId: Uuid)
    requires DropsIndexed(h.drops, h.current) && OriginsKnown(h.drops, h.stored, h.origin, batches) && newId !in batches
    requires name in h.current && h.current[name] < |h.drops| && name in h.stored && h.stored[name] == h.current[name]
    ensures newId !in h.origin
    ensures OriginsKnown(h.drops, h.stored, h.origin[newId := h.current[name]],
                         batches[newId := I.NewBatch(UploadPath(name), None)])
  {
  }

  /** The job of the batch at hand is queued. */
  lemma JobQueued(s: State, name: string, batch: Uuid, pc: I.IngestPc)
    requires Inv(s) && s.ingest == I.Enqueuing(name, batch) && pc in {I.Idle, I.Finishing(name)}
    ensures Inv(s.(w := s.w.(jobs := s.w.jobs + [I.JobFor(batch, name)]), ingest := pc))
  {
    var w' := s.w.(jobs := s.w.jobs + [I.JobFor(batch, name)]);
    SecuredStays(s.w, s.h, w', s.h);
    assert OriginKnown(s.h.drops, s.h.stored, s.w.batches, batch, s.h.origin[batch]);
    assert QueuedAs(w', s.h, s.h.current[name], |s.w.jobs|);
  }

  /** The step is the ingest worker's, taken at this call. */
  ghost predicate IngestTook(c: Classifier, s: State, o: Outcome, newId: Uuid, s': State) {
    Enabled(s, IngestCall(o, newId)) && s' == Apply(c, s, IngestCall(o, newId))
  }

  lemma SizingCall(c: Classifier, s: State, o: Outcome, newId: Uuid, s': State)
    requires Inv(s) && IngestTook(c, s, o, newId, s') && s.ingest.Sizing?
    ensures s' == s.(ingest := s'.ingest) && WorkerKnows(s'.ingest, s.w, s.h)
  {
    SizingDecides(s.w, s.ingest.name, o, newId);
  }

  lemma SizingDecides(w: World, name: string, o: Outcome, newId: Uuid)
    ensures var (w', pc') := I.IngestStep(w, I.Sizing(name), o, newId);
      var path := UploadPath(name);
      && w' == w
      && (pc'.Idle? || pc' == I.Removing(name) || pc' == I.Peeking(name))
      && (!pc'.Idle? ==> path in w.files)
      && (pc'.Removing? ==> !I.Acceptable(name, w.files[path]) && !I.Suspicious(name, w.files[path]))
      && (pc'.Peeking? ==> I.Acceptable(name, w.files[path]) || I.Suspicious(name, w.files[path]))
  {
  }

  lemma PeekingCall(c: Classifier, s: State, o: Outcome, newId: Uuid, s': State)
    requires Inv(s) && IngestTook(c, s, o, newId, s') && s.ingest.Peeking?
    ensures s' == s.(ingest := s'.ingest) && WorkerKnows(s'.ingest, s.w, s.h)
  {
  }

  lemma ReadingCall(c: Classifier, s: State, o: Outcome, newId: Uuid, s': State)
    requires Inv(s) && IngestTook(c, s, o, newId, s') && s.ingest.Reading?
    ensures s' == s.(ingest := s'.ingest) && WorkerKnows(s'.ingest, s.w, s.h)
  {
  }

  lemma RemovingCalls(c: Classifier, s: State, o: Outcome, newId: Uuid, s': State)
    requires Inv(s) && IngestTook(c, s, o, newId, s') && (s.ingest.Removing? || s.ingest.Finishing?)
    ensures Inv(s')
  {
    if o.Landed() {
      assert s' == s.(w := s.w.(files := s'.w.files), ingest := I.Idle);
      FileRemoved(s, s.ingest.name, s'.w.files);
    } else {
      assert s' == s.(ingest := I.Idle);
      WorkerMoves(s, I.Idle);
    }
  }

  lemma QuarantiningCall(c: Classifier, s: State, o: Outcome, newId: Uuid, s': State)
    requires Inv(s) && IngestTook(c, s, o, newId, s') && s.ingest.Quarantining?
    ensures Inv(s')
  {
    var name := s.ingest.name;
    if o.Landed() && QuarantinePath(name) !in s.w.files {
      assert s' == s.(w := s.w.(files := s'.w.files), ingest := I.Idle);
      assert UploadPath(name)[1] != QuarantinePath(name)[1];
      FileRemoved(s, name, s'.w.files);
    } else {
      assert s' == s.(ingest := I.Idle);
      WorkerMoves(s, I.Idle);
    }
  }

  lemma UploadingCall(c: Classifier, s: State, o: Outcome, newId: Uuid, s': State)
    requires Inv(s) && IngestTook(c, s, o, newId, s') && s.ingest.Uploading?
    ensures Inv(s')
  {
    if o.Landed() {
      DocumentStored(s, s.ingest.name, s.ingest.data, s'.ingest);
    } else {
      assert s' == s.(ingest := I.Idle);
      WorkerMoves(s, I.Idle);
    }
  }

  lemma SavingCall(c: Classifier, s: State, o: Outcome, newId: Uuid, s': State)
    requires Inv(s) && IngestTook(c, s, o, newId, s') && s.ingest.Saving?
    ensures Inv(s')
  {
    if o.Landed() {
      CommitOne(s.w, AddBatch(newId, I.NewBatch(UploadPath(s.ingest.name), None)));
      BatchSaved(s, s.ingest.name, newId, s'.ingest, s');
    } else {
      assert s' == s.(ingest := I.Idle);
      WorkerMoves(s, I.Idle);
    }
  }

  lemma EnqueuingCall(c: Classifier, s: State, o: Outcome, newId: Uuid, s': State)
    requires Inv(s) && IngestTook(c, s, o, newId, s') && s.ingest.Enqueuing?
    ensures Inv(s')
  {
    if o.Landed() {
      JobQueued(s, s.ingest.name, s.ingest.batch, s'.ingest);
    } else {
      assert s' == s.(ingest := I.Idle, h := s'.h);
      WorkerMoves(s, I.Idle);
      OthersKeep(s.(ingest := I.Idle), s');
    }
  }

  lemma IngestKeeps(c: Classifier, s: State, o: Outcome, newId: Uuid, s': State)
    requires Inv(s) && IngestTook(c, s, o, newId, s')
    ensures Inv(s')
  {
    match s.ingest
    case Sizing(_) => SizingCall(c, s, o, newId, s'); WorkerMoves(s, s'.ingest);
    case Peeking(_) => PeekingCall(c, s, o, newId, s'); WorkerMoves(s, s'.ingest);
    case Reading(_) => ReadingCall(c, s, o, newId, s'); WorkerMoves(s, s'.ingest);
    case Removing(_) => RemovingCalls(c, s, o, newId, s');
    case Finishing(_) => RemovingCalls(c, s, o, newId, s');
    case Quarantining(_) => QuarantiningCall(c, s, o, newId, s');
    case Uploading(_, _) => UploadingCall(c, s, o, newId, s');
    case Saving(_) => SavingCall(c, s, o, newId, s');
    case Enqueuing(_, _) => EnqueuingCall(c, s, o, newId, s');
  }

  lemma DemoSparesDocuments(s: State, i: nat, o: Outcome, newId: Uuid, s': State, name: string)
    requires Inv(s) && i < |s.demos| && DemoSummary(s, i, o, newId, s') && name in s.h.stored
    ensures SameObject(s.w, s'.w, name)
  {
  }

  lemma RunSparesDocuments(c: Classifier, s: State, r: nat, o: Outcome, s': State, name: string)
    requires Inv(s) && Enabled(s, RunCall(r, o)) && RunSummary(c, s, r, o, s') && name in s.h.stored
    ensures SameObject(s.w, s'.w, name)
  {
    var job := s.w.jobs[s.runs[r].job];
    OverlayKeyHasSlash(job.batch, job.filename);
    assert SlashFree(name);
  }

  /** The other processes touch no document and forget nothing. */
  lemma OthersSpareDocuments(c: Classifier, s: State, a: Action, s': State)
    requires Inv(s) && Enabled(s, a) && Summary(c, s, a, s') && !a.Arrive? && !a.Begin? && !a.IngestCall?
    ensures forall name | name in s.h.stored :: SameObject(s.w, s'.w, name)
  {
    forall name | name in s.h.stored ensures SameObject(s.w, s'.w, name) {
      if a.DemoCall? {
        DemoSparesDocuments(s, a.i, a.o, a.newId, s', name);
      } else if a.RunCall? {
        RunSparesDocuments(c, s, a.r, a.o, s', name);
      }
    }
  }

  lemma DemosStayKnown(c: Classifier, s: State, a: Action, s': State)
    requires DemosKnown(s.demos) && Enabled(s, a) && Summary(c, s, a, s')
    ensures DemosKnown(s'.demos)
  {
    if a.StartDemo? {
      DemoNameIsNoTiff(a.tag);
    } else if a.DemoCall? {
      assert DemoSummary(s, a.i, a.o, a.newId, s');
    } else {
      assert s'.demos == s.demos;
    }
  }

  lemma OthersLeaveFiles(c: Classifier, s: State, a: Action, s': State)
    requires Enabled(s, a) && Summary(c, s, a, s') && !a.Arrive? && !a.Begin? && !a.IngestCall?
    ensures Grows(s.w, s'.w) && s'.w.files == s.w.files && s'.ingest == s.ingest
    ensures s'.h.drops == s.h.drops && s'.h.current == s.h.current && s'.h.stored == s.h.stored
    ensures s'.h.origin == s.h.origin
  {
  }

  /** Every step of the pipeline keeps every document accounted for. */
  lemma StepKeeps(c: Classifier, s: State, a: Action, s': State)
    requires Inv(s) && Enabled(s, a) && Summary(c, s, a, s')
    requires a.IngestCall? ==> IngestTook(c, s, a.o, a.newId, s')
    ensures Inv(s')
  {
    if a.Arrive? {
      ArriveKeeps(s, a.name, a.data, s');
    } else if a.Begin? {
      BeginKeeps(s, a.raw);
    } else if a.IngestCall? {
      IngestKeeps(c, s, a.o, a.newId, s');
    } else {
      OthersSpareDocuments(c, s, a, s');
      DemosStayKnown(c, s, a, s');
      OthersLeaveFiles(c, s, a, s');
      OthersKeep(s, s');
    }
  }
}

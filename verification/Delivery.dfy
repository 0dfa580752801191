/** How often a document is handed to the queue when an attempt fails somewhere and a later one succeeds. */
module Delivery {
  import opened Prelude
  import opened Keys
  import opened World
  import opened Ingest

  /** Every call up to the commit of the batch row succeeds, among those still to come at this point. */
  predicate Prepared(pc: IngestPc, f: Faults) {
    var left := Remaining(pc);
    && (left >= 8 ==> f.size == Ok) && (left >= 7 ==> f.head == Ok) && (left >= 6 ==> f.read == Ok)
    && (left >= 5 ==> f.upload == Ok) && (left >= 4 ==> f.save == Ok)
  }

  /** The job reaches the queue, whether or not the worker hears of it. */
  predicate Enqueues(pc: IngestPc, f: Faults) {
    Remaining(pc) >= 3 && Prepared(pc, f) && f.enqueue.Landed()
  }

  /** The source is removed. */
  predicate Removes(pc: IngestPc, f: Faults) {
    Remaining(pc) >= 2 && Prepared(pc, f) && (Remaining(pc) >= 3 ==> f.enqueue == Ok) && f.remove.Landed()
  }

  /** On the way that acceptable contents take. */
  predicate OnPath(pc: IngestPc, name: string, data: Bytes) {
    !pc.Removing? && !pc.Quarantining? && (pc.Idle? || pc.name == name) && (pc.Uploading? ==> pc.data == data)
  }

  function Batch(pc: IngestPc, newId: Uuid): Uuid {
    if pc.Enqueuing? then pc.batch else newId
  }

  lemma StepDelivers(w: World, pc: IngestPc, name: string, data: Bytes, o: Outcome, newId: Uuid)
    requires Acceptable(name, data) && OnPath(pc, name, data) && !pc.Idle? && StillUploaded(w, name, data)
    ensures var (w', pc') := IngestStep(w, pc, o, newId);
      && OnPath(pc', name, data)
      && w'.jobs == (if pc.Enqueuing? && o.Landed() then w.jobs + [JobFor(pc.batch, name)] else w.jobs)
      && (if pc.Finishing? && o.Landed() then UploadPath(name) !in w'.files else StillUploaded(w', name, data))
      && (if o != Ok then pc'.Idle? else Remaining(pc') == Remaining(pc) - (if pc.Finishing? then 2 else 1))
      && (pc.Saving? && o == Ok ==> pc' == Enqueuing(name, newId))
      && (!pc.Saving? ==> !pc'.Enqueuing?)
  {
    if pc.Saving? {
      CommitOne(w, AddBatch(newId, NewBatch(UploadPath(name), None)));
    }
  }

  /** What one attempt on acceptable contents adds to the queue, and whether the source is left. */
  lemma {:induction false} AttemptDelivers(w: World, pc: IngestPc, name: string, data: Bytes, f: Faults, newId: Uuid)
    requires Acceptable(name, data) && OnPath(pc, name, data) && StillUploaded(w, name, data)
    ensures var w' := Attempt(w, pc, f, newId);
      && w'.jobs == (if Enqueues(pc, f) then w.jobs + [JobFor(Batch(pc, newId), name)] else w.jobs)
      && (if Removes(pc, f) then UploadPath(name) !in w'.files else StillUploaded(w', name, data))
    decreases Remaining(pc)
  {
    if !pc.Idle? {
      var o := FaultAt(f, pc);
      var (w1, pc1) := IngestStep(w, pc, o, newId);
      AttemptStep(w, pc, f, newId, w1, pc1);
      StepDelivers(w, pc, name, data, o, newId);
      if pc.Finishing? || pc1.Idle? {
        assert Attempt(w1, pc1, f, newId) == w1;
      } else {
        AttemptDelivers(w1, pc1, name, data, f, newId);
      }
    }
  }

  /**
   * Removing the source after the enqueue is documented as at-most-once delivery. It is at least once: after a failed
   * attempt and a clean one the document has been queued, and twice if and only if the first attempt got its job onto
   * the queue without removing the source.
   */
  lemma DeliveredAtLeastOnce(w: World, name: string, data: Bytes, f: Faults, id1: Uuid, id2: Uuid)
    requires Acceptable(name, data) && StillUploaded(w, name, data)
    ensures var first := Attempt(w, Sizing(name), f, id1);
      var second := Attempt(first, Sizing(name), NO_FAULTS, id2);
      var queued, removed := Enqueues(Sizing(name), f), Removes(Sizing(name), f);
      && second.jobs ==
           w.jobs + (if queued then [JobFor(id1, name)] else []) + (if removed then [] else [JobFor(id2, name)])
      && (removed ==> queued)
      && UploadPath(name) !in second.files
  {
    AttemptDelivers(w, Sizing(name), name, data, f, id1);
    var first := Attempt(w, Sizing(name), f, id1);
    if Removes(Sizing(name), f) {
      VanishedAttempt(first, name, NO_FAULTS, id2);
    } else {
      AttemptDelivers(first, Sizing(name), name, data, NO_FAULTS, id2);
    }
  }

  // ---------------------------------------------------------------- any number of attempts

  /** One attempt of the worker on the document: how its calls fare and the id its batch would get. */
  datatype Try = Try(faults: Faults, newId: Uuid)

  function Retried(w: World, name: string, tries: seq<Try>): World
    decreases |tries|
  {
    if tries == [] then w else Retried(Attempt(w, Sizing(name), tries[0].faults, tries[0].newId), name, tries[1..])
  }

  predicate TryRemoves(name: string, t: Try) {
    Removes(Sizing(name), t.faults)
  }

  /** One job per attempt that reaches the queue, up to and including the first that removes the source. */
  function Deliveries(name: string, tries: seq<Try>): seq<Job> {
    if tries == [] then []
    else
      (if Enqueues(Sizing(name), tries[0].faults) then [JobFor(tries[0].newId, name)] else [])
      + (if TryRemoves(name, tries[0]) then [] else Deliveries(name, tries[1..]))
  }

  /** Some attempt removes the source. */
  predicate AnyRemoves(name: string, tries: seq<Try>) {
    exists i :: 0 <= i < |tries| && TryRemoves(name, tries[i])
  }

  lemma {:induction false} GoneForGood(w: World, name: string, tries: seq<Try>)
    requires UploadPath(name) !in w.files
    ensures Retried(w, name, tries) == w
    decreases |tries|
  {
    if tries != [] {
      VanishedAttempt(w, name, tries[0].faults, tries[0].newId);
      GoneForGood(w, name, tries[1..]);
    }
  }

  /**
   * However many attempts there are and whatever fails in each: the queue gets one job per attempt that reaches it, up
   * to and including the first that removes the source; the source stays, unchanged, if and only if no attempt removes
   * it; and it is never removed undelivered.
   */
  lemma DeliveredPerAttempt(w: World, name: string, data: Bytes, tries: seq<Try>)
    requires Acceptable(name, data) && StillUploaded(w, name, data)
    ensures Retried(w, name, tries).jobs == w.jobs + Deliveries(name, tries)
    ensures UploadPath(name) !in Retried(w, name, tries).files <==> AnyRemoves(name, tries)
    ensures StillUploaded(Retried(w, name, tries), name, data) <==> !AnyRemoves(name, tries)
    ensures AnyRemoves(name, tries) ==> Deliveries(name, tries) != []
  {
    RetriedJobs(w, name, data, tries);
    RetriedSource(w, name, data, tries);
    if AnyRemoves(name, tries) {
      RemovedDelivered(name, tries);
    }
  }

  lemma Rejoin(a: seq<Job>, b: seq<Job>, c: seq<Job>)
    ensures a + (b + c) == (a + b) + c && a + b + [] == a + b
  {
  }

  lemma {:induction false} RetriedJobs(w: World, name: string, data: Bytes, tries: seq<Try>)
    requires Acceptable(name, data) && StillUploaded(w, name, data)
    ensures Retried(w, name, tries).jobs == w.jobs + Deliveries(name, tries)
    decreases |tries|
  {
    if tries != [] {
      var w1 := Attempt(w, Sizing(name), tries[0].faults, tries[0].newId);
      var first := if Enqueues(Sizing(name), tries[0].faults) then [JobFor(tries[0].newId, name)] else [];
      var rest := if TryRemoves(name, tries[0]) then [] else Deliveries(name, tries[1..]);
      TryDelivers(w, name, data, tries[0]);
      if TryRemoves(name, tries[0]) {
        GoneForGood(w1, name, tries[1..]);
      } else {
        RetriedJobs(w1, name, data, tries[1..]);
      }
      Rejoin(w.jobs, first, rest);
    }
  }

  lemma {:induction false} RetriedSource(w: World, name: string, data: Bytes, tries: seq<Try>)
    requires Acceptable(name, data) && StillUploaded(w, name, data)
    ensures AnyRemoves(name, tries) ==> UploadPath(name) !in Retried(w, name, tries).files
    ensures !AnyRemoves(name, tries) ==> StillUploaded(Retried(w, name, tries), name, data)
    decreases |tries|
  {
    if tries != [] {
      var w1 := Attempt(w, Sizing(name), tries[0].faults, tries[0].newId);
      TryDelivers(w, name, data, tries[0]);
      if TryRemoves(name, tries[0]) {
        GoneForGood(w1, name, tries[1..]);
      } else {
        LaterRemoves(name, tries);
        RetriedSource(w1, name, data, tries[1..]);
      }
    }
  }

  lemma {:induction false} RemovedDelivered(name: string, tries: seq<Try>)
    requires AnyRemoves(name, tries)
    ensures Deliveries(name, tries) != []
    decreases |tries|
  {
    if !TryRemoves(name, tries[0]) {
      LaterRemoves(name, tries);
      RemovedDelivered(name, tries[1..]);
    }
  }

  lemma TryDelivers(w: World, name: string, data: Bytes, t: Try)
    requires Acceptable(name, data) && StillUploaded(w, name, data)
    ensures var w' := Attempt(w, Sizing(name), t.faults, t.newId);
      && w'.jobs == w.jobs + (if Enqueues(Sizing(name), t.faults) then [JobFor(t.newId, name)] else [])
      && (if TryRemoves(name, t) then UploadPath(name) !in w'.files else StillUploaded(w', name, data))
      && (TryRemoves(name, t) ==> Enqueues(Sizing(name), t.faults))
  {
    AttemptDelivers(w, Sizing(name), name, data, t.faults, t.newId);
  }

  lemma LaterRemoves(name: string, tries: seq<Try>)
    requires tries != [] && !TryRemoves(name, tries[0])
    ensures AnyRemoves(name, tries) <==> AnyRemoves(name, tries[1..])
  {
    if i :| 0 <= i < |tries| && TryRemoves(name, tries[i]) {
      assert tries[1..][i - 1] == tries[i];
    }
    if i :| 0 <= i < |tries[1..]| && TryRemoves(name, tries[1..][i]) {
      assert tries[i + 1] == tries[1..][i];
    }
  }
}

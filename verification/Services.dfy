/** The service layer: what each call writes, in which transaction, and when the caches are dropped. */
module Services {
  import opened Prelude
  import opened Keys
  import opened World
  import opened Glob
  import opened CacheService
  import opened Clients
  import opened Database
  import Q = Requests
  import H = Handling
  import C = CacheAgreement
  import S = System

  /** The cache entries that may outlive a call that changed a prediction of some batch. */
  function Kept(keys: set<string>): set<string> {
    Evict(Evict(keys, BATCH_LIST_PATTERN), RECENT_PATTERN)
  }

  /** Left are the keys in which neither the batch path, with something behind it, nor the recent list's path occurs. */
  lemma KeptSpelled(keys: set<string>, key: string)
    ensures key in Kept(keys) <==>
      key in keys && !ContainsBefore(key, "/batches") && !Contains(key, "/predictions/recent")
  {
    ListMeaning(key);
    RecentMeaning(key);
  }

  /** The status code a caller of the API sees for a service's answer. */
  function CodeOf(r: Answer<bool>): nat {
    match r
    case Value(true) => 200
    case Value(false) => 404
    case Raised(_) => 500
  }

  class PredictionService {
    const session: Session
    const cache: CacheService
    const repo: PredictionRepository
    const audit: AuditRepository

    predicate Valid()
    {
      repo.session == session && audit.session == session
    }

    constructor (session: Session, cache: CacheService)
      ensures Valid() && this.session == session && this.cache == cache
    {
      this.session := session;
      this.cache := cache;
      repo := new PredictionRepository(session);
      audit := new AuditRepository(session);
    }

    method InvalidateCaches(batch: Uuid, scans: Scans)
      requires cache.backend != null ==> AllScans(cache.backend.keys, batch, scans)
      modifies cache.backend
      ensures cache.backend != null && QuietScans(scans) ==> cache.backend.keys == Kept(old(cache.backend.keys))
    {
      cache.InvalidateBatch(batch, scans);
      cache.InvalidateRecentPredictions(scans.recent);
    }

    /**
     * Two transactions: the row, then the status. The caches are dropped only after both; an answer means all three
     * happened, and no failure leaves the status changed without the row.
     */
    method SavePredictionAndCompleteBatch(row: Prediction, create: Outcome, complete: Outcome, evict: Outcome,
                                          scans: Scans)
      returns (r: Answer<nat>)
      requires Valid() && session.flushed == []
      requires cache.backend != null ==> AllScans(cache.backend.keys, row.batch, scans)
      modifies session, session.servers, cache.backend
      ensures var w, w' := old(session.servers.world), session.servers.world;
        && w' == w.(predictions := w'.predictions, batches := w'.batches)
        && w'.predictions ==
             (if row.batch in w.batches && create.Landed() then w.predictions + [row] else w.predictions)
        && w'.batches ==
             (if row.batch in w.batches && create == Ok && complete.Landed()
              then w.batches[row.batch := w.batches[row.batch].(status := Done)] else w.batches)
        && (r.Value? <==> row.batch in w.batches && create == Ok && complete == Ok && evict == Ok)
        && (r.Value? ==> r.value == |w.predictions|)
      ensures create != Ok || complete != Ok ==> cache.backend != null ==> cache.backend.keys == old(cache.backend.keys)
      ensures r.Value? && cache.backend != null && QuietScans(scans) ==>
        && cache.backend.keys == Kept(old(cache.backend.keys))
        && C.Performed(old(session.servers.world), old(cache.backend.keys), C.SaveAndComplete(row),
                       session.servers.world, cache.backend.keys)
    {
      ghost var before, keys := session.servers.world, if cache.backend != null then cache.backend.keys else {};
      var id :- repo.Create(row, create);
      var _ :- CompleteBatch(row.batch, complete);
      if evict == Lost {
        return Raised(Unavailable);
      }
      InvalidateCaches(row.batch, scans);
      C.CompletePerformed(before, keys, row, session.servers.world, Kept(keys));
      r := if evict == Ok then Value(id) else Raised(Unavailable);
    }

    /** The second transaction of the worker. */
    method CompleteBatch(batch: Uuid, complete: Outcome) returns (r: Answer<()>)
      requires session.flushed == [] && batch in session.servers.world.batches
      modifies session, session.servers
      ensures r.Value? <==> complete == Ok
      ensures var w := old(session.servers.world);
        session.servers.world ==
          if complete.Landed() then w.(batches := w.batches[batch := w.batches[batch].(status := Done)]) else w
    {
      var batches := new BatchRepository(session);
      CommitOne(session.servers.world, Write.UpdateStatus(batch, Done));
      batches.UpdateStatus(batch, Done);
      assert session.flushed == [Write.UpdateStatus(batch, Done)];
      r := session.CommitAll(complete);
    }

    /** The row alone; the service's own commit finds nothing left to commit. */
    method SavePrediction(row: Prediction, create: Outcome, commit: Outcome, evict: Outcome, scans: Scans)
      returns (r: Answer<nat>)
      requires Valid() && session.flushed == []
      requires cache.backend != null ==> AllScans(cache.backend.keys, row.batch, scans)
      modifies session, session.servers, cache.backend
      ensures var w := old(session.servers.world);
        && session.servers.world ==
             (if row.batch in w.batches && create.Landed() then w.(predictions := w.predictions + [row]) else w)
        && (r.Value? <==> row.batch in w.batches && create == Ok && commit == Ok && evict == Ok)
      ensures r.Value? && cache.backend != null && QuietScans(scans) ==>
        && cache.backend.keys == Kept(old(cache.backend.keys))
        && C.Performed(old(session.servers.world), old(cache.backend.keys), C.SavePrediction(row),
                       session.servers.world, cache.backend.keys)
    {
      ghost var before, keys := session.servers.world, if cache.backend != null then cache.backend.keys else {};
      var id :- repo.Create(row, create);
      var _ :- session.CommitAll(commit);
      if evict == Lost {
        return Raised(Unavailable);
      }
      InvalidateCaches(row.batch, scans);
      C.SavePerformed(before, keys, row, session.servers.world, Kept(keys));
      r := if evict == Ok then Value(id) else Raised(Unavailable);
    }

    /** The relabel and its audit row in one transaction, then the caches. */
    method RelabelPrediction(pid: nat, u: PredictionUpdate, actor: Uuid, f: H.CallFaults, scans: Scans)
      returns (r: Answer<bool>)
      requires Valid() && session.flushed == []
      requires cache.backend != null && pid < |session.servers.world.predictions| ==>
        AllScans(cache.backend.keys, session.servers.world.predictions[pid].batch, scans)
      modifies session, session.servers, cache.backend
      ensures var (w', closed) := H.Handle(old(session.servers.world),
                                           Q.Request(Q.RelabelPrediction(pid, u), actor, Q.Writing(Q.Unread)), f);
        session.servers.world == w' && closed.pc == Q.Closed(CodeOf(r))
      ensures r == Value(true) && cache.backend != null && QuietScans(scans) ==>
        && cache.backend.keys == Kept(old(cache.backend.keys))
        && C.Performed(old(session.servers.world), old(cache.backend.keys), C.RelabelPrediction(pid, u),
                       session.servers.world, cache.backend.keys)
      ensures r == Value(false) && cache.backend != null ==> cache.backend.keys == old(cache.backend.keys)
    {
      ghost var before, kind := session.servers.world, Q.RelabelPrediction(pid, u);
      ghost var keys := if cache.backend != null then cache.backend.keys else {};
      RelabelTables(before, keys, pid, u, actor, f);
      H.HandleUnrolls(before, Q.Request(kind, actor, Q.Writing(Q.Unread)), f);
      var row :- repo.Update(pid, u, f.write);
      if row.None? {
        return Value(false);
      }
      ghost var writes := session.flushed;
      assert writes == S.Change(kind, Q.Unread);
      H.HandleUnrolls(before, Q.Request(kind, actor, Q.Auditing(Q.Unread, writes)), f);
      var _ :- audit.Insert(AuditEntry(actor, Relabel, PredictionTarget(pid)), f.audit);
      r := CommitThenInvalidate(kind, actor, row.value.batch, f, scans);
    }

    /** A relabel that is answered is the call the cache theorems speak of. */
    static lemma RelabelTables(w: World, keys: set<string>, pid: nat, u: PredictionUpdate, actor: Uuid, f: H.CallFaults)
      ensures var (w', r') := H.Handle(w, Q.Request(Q.RelabelPrediction(pid, u), actor, Q.Writing(Q.Unread)), f);
        r'.pc == Q.Closed(200) ==> C.Performed(w, keys, C.RelabelPrediction(pid, u), w', Kept(keys))
    {
      var kind := Q.RelabelPrediction(pid, u);
      var (w', r') := H.Handle(w, Q.Request(kind, actor, Q.Writing(Q.Unread)), f);
      if pid < |w.predictions| {
        H.HandleFromWriting(w, kind, actor, Q.Unread, f);
        S.CommitAppendsAudit(w, kind, actor, Q.Unread);
        if r'.pc == Q.Closed(200) {
          assert w.predictions == w.predictions[pid := w.predictions[pid]];
          C.RelabelPerformed(w, keys, pid, u, w', Kept(keys));
        }
      } else {
        H.HandleUnrolls(w, Q.Request(kind, actor, Q.Writing(Q.Unread)), f);
      }
    }

    /** The end of a relabel: what was flushed becomes durable, then the caches are dropped. */
    method CommitThenInvalidate(ghost kind: Q.Kind, ghost actor: Uuid, batch: Uuid, f: H.CallFaults, scans: Scans)
      returns (r: Answer<bool>)
      requires Valid() && !kind.SetUserRole?
      requires cache.backend != null ==> AllScans(cache.backend.keys, batch, scans)
      modifies session, session.servers, cache.backend
      ensures var (w', closed) := H.Handle(old(session.servers.world),
                                           Q.Request(kind, actor, Q.Committing(Q.Unread, old(session.flushed))), f);
        session.servers.world == w' && closed.pc == Q.Closed(CodeOf(r))
      ensures r != Value(false)
      ensures r == Value(true) && cache.backend != null && QuietScans(scans) ==>
        cache.backend.keys == Kept(old(cache.backend.keys))
    {
      H.HandleUnrolls(session.servers.world, Q.Request(kind, actor, Q.Committing(Q.Unread, session.flushed)), f);
      var _ :- session.CommitAll(f.commit);
      H.HandleUnrolls(session.servers.world, Q.Request(kind, actor, Q.Evicting), f);
      if f.evict == Lost {
        return Raised(Unavailable);
      }
      InvalidateCaches(batch, scans);
      r := if f.evict == Ok then Value(true) else Raised(Unavailable);
    }
  }

  class BatchService {
    const session: Session
    const repo: BatchRepository
    /** Null where the caller has no cache to keep in step. */
    const cache: CacheService?
    const audit: AuditRepository

    predicate Valid()
    {
      repo.session == session && audit.session == session
    }

    constructor (session: Session, cache: CacheService?)
      ensures Valid() && this.session == session && this.cache == cache
    {
      this.session := session;
      this.cache := cache;
      repo := new BatchRepository(session);
      audit := new AuditRepository(session);
    }

    /** One flushed row, one commit. Only a batch with an owner touches the cache. */
    method CreatePendingBatch(path: string, owner: Option<Uuid>, newId: Uuid, commit: Outcome, evict: Outcome,
                              byUser: seq<Tick>)
      returns (r: Answer<Uuid>)
      requires Valid() && session.flushed == []
      requires cache != null && cache.backend != null && owner.Some? ==>
        ScanContract(UserPattern(owner.value), cache.backend.keys, byUser)
      modifies session, session.servers, if cache != null then {cache.backend} else {}
      ensures session.servers.world ==
        if commit.Landed()
        then old(session.servers.world).(
               batches := old(session.servers.world.batches)[newId := Batch(path, owner, Pending)])
        else old(session.servers.world)
      ensures var evicts := cache != null && owner.Some?;
        r == if commit == Ok && (evicts ==> evict == Ok) then Value(newId) else Raised(Unavailable)
      ensures cache != null && cache.backend != null && (owner.None? || commit != Ok || evict == Lost) ==>
        cache.backend.keys == old(cache.backend.keys)
      ensures (cache != null && cache.backend != null && owner.Some? && commit == Ok && evict.Landed()
               && Quiet(byUser)) ==>
        cache.backend.keys == Evict(old(cache.backend.keys), UserPattern(owner.value))
      ensures r.Value? && cache != null && cache.backend != null && Quiet(byUser) ==>
        C.Performed(old(session.servers.world), old(cache.backend.keys), C.CreatePendingBatch(newId, path, owner),
                    session.servers.world, cache.backend.keys)
    {
      ghost var before := session.servers.world;
      ghost var keys := if cache != null && cache.backend != null then cache.backend.keys else {};
      CommitOne(before, AddBatch(newId, Batch(path, owner, Pending)));
      var id := repo.CreateBatch(path, owner, newId);
      assert session.flushed == [AddBatch(newId, Batch(path, owner, Pending))];
      var committed := session.CommitAll(commit);
      if committed.Raised? {
        return Raised(Unavailable);
      }
      C.CreatePerformed(before, keys, newId, path, owner, session.servers.world,
                        if owner.Some? then Evict(keys, UserPattern(owner.value)) else keys);
      if cache != null && owner.Some? {
        if evict == Lost {
          return Raised(Unavailable);
        }
        cache.InvalidateUser(owner.value, byUser);
        if evict == Late {
          return Raised(Unavailable);
        }
      }
      return Value(id);
    }

    /** How the calls fare that this service makes: without a cache there is none to invalidate. */
    function Calls(f: H.CallFaults): H.CallFaults {
      if cache == null then f.(evict := Ok) else f
    }

    /**
     * The status and, when it differs from the status read before, an audit row in one transaction; then the caches
     * of the batch and of its owner.
     */
    method UpdateBatch(batch: Uuid, status: Field<BatchStatus>, actor: Uuid, f: H.CallFaults, scans: Scans,
                       byUser: seq<Tick>)
      returns (r: Answer<bool>)
      requires Valid() && session.flushed == []
      requires cache != null && cache.backend != null ==> BatchScans(cache.backend.keys, batch, scans)
      requires (cache != null && cache.backend != null && batch in session.servers.world.batches
                && session.servers.world.batches[batch].owner.Some?) ==>
        ScanContract(UserPattern(session.servers.world.batches[batch].owner.value),
                     AfterBatchScans(cache.backend.keys, scans), byUser)
      modifies session, session.servers, if cache != null then {cache.backend} else {}
      ensures var (w', closed) := H.Handle(old(session.servers.world),
                                           Q.Request(Q.PatchBatch(batch, status), actor, Q.Reading), Calls(f));
        session.servers.world == w' && closed.pc == Q.Closed(CodeOf(r))
      ensures (r == Value(true) && cache != null && cache.backend != null
               && Quiet(scans.byBatch) && Quiet(scans.lists) && Quiet(byUser)) ==>
        C.Performed(old(session.servers.world), old(cache.backend.keys), C.UpdateBatch(batch, status),
                    session.servers.world, cache.backend.keys)
      ensures r == Value(false) && cache != null && cache.backend != null ==>
        cache.backend.keys == old(cache.backend.keys)
    {
      ghost var before, kind := session.servers.world, Q.PatchBatch(batch, status);
      ghost var keys := if cache != null && cache.backend != null then cache.backend.keys else {};
      UpdateTables(before, keys, batch, status, actor, Calls(f));
      H.HandleUnrolls(before, Q.Request(kind, actor, Q.Reading), Calls(f));
      if f.read != Ok {
        return Raised(Unavailable);
      }
      var old_batch := repo.Get(batch);
      if old_batch.None? {
        return Value(false);
      }
      r := WriteAndAudit(batch, status, old_batch.value, actor, f, scans, byUser);
    }

    /** From the flush of the update on. */
    method WriteAndAudit(batch: Uuid, status: Field<BatchStatus>, oldBatch: Batch, actor: Uuid, f: H.CallFaults,
                         scans: Scans, byUser: seq<Tick>)
      returns (r: Answer<bool>)
      requires Valid() && session.flushed == []
      requires batch in session.servers.world.batches && session.servers.world.batches[batch] == oldBatch
      requires cache != null && cache.backend != null ==> BatchScans(cache.backend.keys, batch, scans)
      requires cache != null && cache.backend != null && oldBatch.owner.Some? ==>
        ScanContract(UserPattern(oldBatch.owner.value), AfterBatchScans(cache.backend.keys, scans), byUser)
      modifies session, session.servers, if cache != null then {cache.backend} else {}
      ensures var (w', closed) := H.Handle(old(session.servers.world),
          Q.Request(Q.PatchBatch(batch, status), actor, Q.Writing(Q.StatusRead(oldBatch.status))), Calls(f));
        session.servers.world == w' && closed.pc == Q.Closed(CodeOf(r))
      ensures r != Value(false)
      ensures (r == Value(true) && cache != null && cache.backend != null
               && Quiet(scans.byBatch) && Quiet(scans.lists) && Quiet(byUser)) ==>
        cache.backend.keys == C.AfterUpdate(old(cache.backend.keys), oldBatch.owner)
    {
      ghost var before, kind := session.servers.world, Q.PatchBatch(batch, status);
      var seen := Q.StatusRead(oldBatch.status);
      H.HandleUnrolls(before, Q.Request(kind, actor, Q.Writing(seen)), Calls(f));
      // the row just read is still there; Requests.WriteStep has the case of one that is not
      var row :- repo.Update(batch, status, f.write);
      ghost var writes := session.flushed;
      assert writes == S.Change(kind, seen);
      H.HandleUnrolls(before, Q.Request(kind, actor, Q.Auditing(seen, writes)), Calls(f));
      if status.Set? && Q.StatusRead(status.value) != seen {
        var _ :- audit.Insert(AuditEntry(actor, StatusChange(status.value), BatchTarget(batch)), f.audit);
      }
      assert session.flushed == writes + Q.AuditRows(kind, actor, seen);
      r := CommitThenInvalidate(kind, actor, seen, batch, row.value.owner, f, scans, byUser);
    }

    /** An update that is answered is the call the cache theorems speak of. */
    static lemma UpdateTables(w: World, keys: set<string>, batch: Uuid, status: Field<BatchStatus>, actor: Uuid,
                              f: H.CallFaults)
      ensures var (w', r') := H.Handle(w, Q.Request(Q.PatchBatch(batch, status), actor, Q.Reading), f);
        r'.pc == Q.Closed(200) ==>
          && batch in w.batches
          && C.Performed(w, keys, C.UpdateBatch(batch, status), w', C.AfterUpdate(keys, w.batches[batch].owner))
    {
      var kind := Q.PatchBatch(batch, status);
      var reading := Q.Request(kind, actor, Q.Reading);
      H.HandleUnrolls(w, reading, f);
      if f.read == Ok && batch in w.batches {
        var seen := Q.StatusRead(w.batches[batch].status);
        var (w', r') := H.Handle(w, reading, f);
        H.HandleFromWriting(w, kind, actor, seen, f);
        S.CommitAppendsAudit(w, kind, actor, seen);
        if r'.pc == Q.Closed(200) {
          C.UpdatePerformed(w, keys, batch, status, w', C.AfterUpdate(keys, w.batches[batch].owner));
        }
      }
    }

    /** The end of an update: what was flushed becomes durable, then the caches of the batch and its owner go. */
    method CommitThenInvalidate(ghost kind: Q.Kind, ghost actor: Uuid, ghost seen: Q.Seen, batch: Uuid,
                                owner: Option<Uuid>, f: H.CallFaults, scans: Scans, byUser: seq<Tick>)
      returns (r: Answer<bool>)
      requires Valid() && !kind.SetUserRole?
      requires cache != null && cache.backend != null ==> BatchScans(cache.backend.keys, batch, scans)
      requires cache != null && cache.backend != null && owner.Some? ==>
        ScanContract(UserPattern(owner.value), AfterBatchScans(cache.backend.keys, scans), byUser)
      modifies session, session.servers, if cache != null then {cache.backend} else {}
      ensures var (w', closed) := H.Handle(old(session.servers.world),
                                           Q.Request(kind, actor, Q.Committing(seen, old(session.flushed))), Calls(f));
        session.servers.world == w' && closed.pc == Q.Closed(CodeOf(r))
      ensures r != Value(false)
      ensures (r == Value(true) && cache != null && cache.backend != null
               && Quiet(scans.byBatch) && Quiet(scans.lists) && Quiet(byUser)) ==>
        cache.backend.keys == C.AfterUpdate(old(cache.backend.keys), owner)
    {
      H.HandleUnrolls(session.servers.world, Q.Request(kind, actor, Q.Committing(seen, session.flushed)), Calls(f));
      var _ :- session.CommitAll(f.commit);
      H.HandleUnrolls(session.servers.world, Q.Request(kind, actor, Q.Evicting), Calls(f));
      if cache == null {
        return Value(true);
      }
      if f.evict == Lost {
        return Raised(Unavailable);
      }
      cache.InvalidateBatch(batch, scans);
      if owner.Some? {
        cache.InvalidateUser(owner.value, byUser);
      }
      r := if f.evict == Ok then Value(true) else Raised(Unavailable);
    }
  }
}

/** The endpoints that change something, as their handlers run them. */
module Api {
  import opened Prelude
  import opened Keys
  import opened World
  import opened Access
  import opened CacheService
  import opened Clients
  import opened Database
  import opened Services
  import Q = Requests
  import H = Handling
  import C = CacheAgreement
  import S = System
  import D = Demo

  class Routes {
    const servers: Servers
    const cache: CacheService

    constructor (servers: Servers, cache: CacheService)
      ensures this.servers == servers && this.cache == cache
    {
      this.servers := servers;
      this.cache := cache;
    }

    /** The caller's token resolved to a user row and checked by require_role: None to go on, or the status code. */
    method Guard(required: Role, actor: Uuid, o: Outcome) returns (refused: Option<nat>)
      ensures refused.None? <==>
        o == Ok && actor in servers.world.users && servers.world.users[actor] in {required, Admin}
      ensures refused.Some? ==>
        refused.value == if o != Ok then 500 else if actor !in servers.world.users then 401 else 403
    {
      if o != Ok { return Some(500); }
      if actor !in servers.world.users { return Some(401); }
      H.SoleRole(servers.world.users[actor], required);
      if !RequireRole(servers.world.users[actor], [required]) { return Some(403); }
      return None;
    }

    /** PATCH /predictions/{id} */
    method Relabel(pid: nat, u: PredictionUpdate, actor: Uuid, f: H.CallFaults, scans: Scans) returns (code: nat)
      requires cache.backend != null && pid < |servers.world.predictions| ==>
        AllScans(cache.backend.keys, servers.world.predictions[pid].batch, scans)
      modifies servers, cache.backend
      ensures var (w', r') := H.Handle(old(servers.world),
        Q.Request(Q.RelabelPrediction(pid, u), actor, Q.Guarding), f);
        servers.world == w' && r'.pc == Q.Closed(code)
      ensures code == 200 && cache.backend != null && QuietScans(scans) ==>
        && cache.backend.keys == Kept(old(cache.backend.keys))
        && C.Performed(old(servers.world), old(cache.backend.keys), C.RelabelPrediction(pid, u),
                       servers.world, cache.backend.keys)
      ensures code in {401, 403, 404} && cache.backend != null ==> cache.backend.keys == old(cache.backend.keys)
      ensures !(actor in old(servers.world.users) && old(servers.world.users)[actor] in {Reviewer, Admin}) ==>
        && servers.world == old(servers.world)
        && code == if f.guard != Ok then 500 else if actor in old(servers.world.users) then 403 else 401
      ensures code == 200 ==>
        && actor in old(servers.world.users) && old(servers.world.users)[actor] in {Reviewer, Admin}
        && pid < |old(servers.world.predictions)| && old(servers.world.predictions)[pid].confidence < 0.7
    {
      H.HandleOutcome(servers.world, Q.RelabelPrediction(pid, u), actor, f);
      ghost var kind := Q.RelabelPrediction(pid, u);
      H.HandleUnrolls(servers.world, Q.Request(kind, actor, Q.Guarding), f);
      H.GuardMeaning(servers.world, kind, actor);
      var refused := Guard(Reviewer, actor, f.guard);
      if refused.Some? { return refused.value; }
      H.HandleUnrolls(servers.world, Q.Request(kind, actor, Q.Reading), f);
      if f.read != Ok { return 500; }
      var session := new Session(servers);
      var service := new PredictionService(session, cache);
      var row := service.repo.Get(pid);
      if row.None? { return 404; }
      if row.value.confidence >= Q.CONFIDENCE_LIMIT { return 403; }
      var updated := service.RelabelPrediction(pid, u, actor, f, scans);
      return CodeOf(updated);
    }

    /** PATCH /batches/{id} */
    method PatchBatch(batch: Uuid, status: Field<BatchStatus>, actor: Uuid, f: H.CallFaults, scans: Scans,
                      byUser: seq<Tick>)
      returns (code: nat)
      requires cache.backend != null ==> BatchScans(cache.backend.keys, batch, scans)
      requires (cache.backend != null && batch in servers.world.batches && servers.world.batches[batch].owner.Some?) ==>
        ScanContract(Glob.UserPattern(servers.world.batches[batch].owner.value),
                     AfterBatchScans(cache.backend.keys, scans), byUser)
      modifies servers, cache.backend
      ensures var (w', r') := H.Handle(old(servers.world),
        Q.Request(Q.PatchBatch(batch, status), actor, Q.Guarding), f);
        servers.world == w' && r'.pc == Q.Closed(code)
      ensures (code == 200 && cache.backend != null
               && Quiet(scans.byBatch) && Quiet(scans.lists) && Quiet(byUser)) ==>
        C.Performed(old(servers.world), old(cache.backend.keys), C.UpdateBatch(batch, status),
                    servers.world, cache.backend.keys)
      ensures code in {401, 403, 404} && cache.backend != null ==> cache.backend.keys == old(cache.backend.keys)
      ensures !(actor in old(servers.world.users) && old(servers.world.users)[actor] in {Admin}) ==>
        && servers.world == old(servers.world)
        && code == if f.guard != Ok then 500 else if actor in old(servers.world.users) then 403 else 401
      ensures code == 200 ==>
        && actor in old(servers.world.users) && old(servers.world.users)[actor] in {Admin}
        && batch in old(servers.world.batches)
    {
      H.HandleOutcome(servers.world, Q.PatchBatch(batch, status), actor, f);
      H.HandleUnrolls(servers.world, Q.Request(Q.PatchBatch(batch, status), actor, Q.Guarding), f);
      H.GuardMeaning(servers.world, Q.PatchBatch(batch, status), actor);
      var refused := Guard(Admin, actor, f.guard);
      if refused.Some? { return refused.value; }
      var session := new Session(servers);
      var service := new BatchService(session, cache);
      var updated := service.UpdateBatch(batch, status, actor, f, scans, byUser);
      return CodeOf(updated);
    }

    /** POST /users/admin/{id}/role */
    method SetUserRole(user: Uuid, role: Role, actor: Uuid, f: H.CallFaults) returns (code: nat)
      modifies servers
      ensures var (w', r') := H.Handle(old(servers.world), Q.Request(Q.SetUserRole(user, role), actor, Q.Guarding), f);
        servers.world == w' && r'.pc == Q.Closed(code)
      ensures !(actor in old(servers.world.users) && old(servers.world.users)[actor] in {Admin}) ==>
        && servers.world == old(servers.world)
        && code == if f.guard != Ok then 500 else if actor in old(servers.world.users) then 403 else 401
      ensures code == 200 ==>
        && actor in old(servers.world.users) && old(servers.world.users)[actor] in {Admin}
        && user in old(servers.world.users) && user != actor
    {
      H.HandleOutcome(servers.world, Q.SetUserRole(user, role), actor, f);
      ghost var before, kind := servers.world, Q.SetUserRole(user, role);
      H.HandleUnrolls(before, Q.Request(kind, actor, Q.Guarding), f);
      H.GuardMeaning(before, kind, actor);
      var refused := Guard(Admin, actor, f.guard);
      if refused.Some? { return refused.value; }
      if user == actor { return 409; }
      H.HandleUnrolls(before, Q.Request(kind, actor, Q.Reading), f);
      ghost var seen := H.SeenBy(before, kind);
      H.HandleUnrolls(before, Q.Request(kind, actor, Q.Writing(seen)), f);
      var session := new Session(servers);
      var users := new UserRepository(session);
      var updated := users.UpdateRole(user, role, f.read, f.write);
      if updated.Raised? { return 500; }
      if !updated.value { return 404; }
      assert session.flushed == S.Change(kind, seen);
      code := RecordRoleChange(session, user, role, actor, seen, f);
    }

    /** The audit row in the same transaction, and the commit. */
    method RecordRoleChange(session: Session, user: Uuid, role: Role, actor: Uuid, ghost seen: Q.Seen, f: H.CallFaults)
      returns (code: nat)
      requires session.servers == servers && session.flushed == S.Change(Q.SetUserRole(user, role), seen)
      modifies servers, session
      ensures var (w', r') := H.Handle(old(servers.world),
          Q.Request(Q.SetUserRole(user, role), actor, Q.Auditing(seen, old(session.flushed))), f);
        servers.world == w' && r'.pc == Q.Closed(code)
    {
      ghost var before, kind := servers.world, Q.SetUserRole(user, role);
      H.HandleUnrolls(before, Q.Request(kind, actor, Q.Auditing(seen, session.flushed)), f);
      var audit := new AuditRepository(session);
      var entry := audit.Insert(AuditEntry(actor, RoleToggle, RoleTarget(user)), f.audit);
      if entry.Raised? { return 500; }
      H.HandleUnrolls(before, Q.Request(kind, actor, Q.Committing(seen, session.flushed)), f);
      var committed := session.CommitAll(f.commit);
      code := if committed.Value? then 200 else 500;
    }

    /** POST /demo/trigger: the object, then the batch, then the job; a failure leaves what came before it. */
    method TriggerDemo(tag: string, image: Bytes, user: Uuid, upload: Outcome, save: Outcome, enqueue: Outcome,
                       newId: Uuid)
      returns (r: Answer<Uuid>)
      requires IsDemoTag(tag)
      modifies servers
      ensures var (w1, pc1) := D.DemoStep(old(servers.world), D.Uploading(DemoName(tag), image, user), upload, newId);
        var (w2, pc2) := D.DemoStep(w1, pc1, save, newId);
        servers.world == D.DemoStep(w2, pc2, enqueue, newId).0
      ensures r.Value? <==> upload == Ok && save == Ok && enqueue == Ok
      ensures r.Value? ==> r.value == newId
      ensures var w, name := old(servers.world), "demo_" + tag + ".png";
        servers.world ==
          w.(bucket := if upload.Landed() then w.bucket[name := image] else w.bucket,
             batches := if upload == Ok && save.Landed()
                        then w.batches[newId := Batch("/demo/" + name, Some(user), Pending)] else w.batches,
             jobs := if upload == Ok && save == Ok && enqueue.Landed()
                     then w.jobs + [Job(newId, name, name)] else w.jobs)
    {
      var name := DemoName(tag);
      var blob := new BlobClient(servers);
      var _ :- blob.UploadFile(name, image, upload);
      CommitOne(servers.world, AddBatch(newId, Batch(DemoPath(name), Some(user), Pending)));
      var session := new Session(servers);
      var service := new BatchService(session, null);
      var batch :- service.CreatePendingBatch(DemoPath(name), Some(user), newId, save, Ok, []);
      var queue := new RqClient(servers);
      var _ :- queue.EnqueueJob(QUEUE_NAME, Payload(Some(INFERENCE_FUNC_PATH), Job(batch, name, name)), enqueue);
      return Value(batch);
    }
  }
}

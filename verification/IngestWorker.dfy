/**
 * The ingest worker in its own form: process_one and one turn of the poll loop, call by call over the adapters, proved
 * equal to the step machine that the interleaved runs are made of.
 */
module IngestWorker {
  import opened Prelude
  import opened Keys
  import opened World
  import opened Formats
  import opened Ingest
  import opened Clients
  import opened Database
  import opened Services
  import P = Polling
  import V = Decisions

  class Worker {
    const servers: Servers
    const sftp: SftpClient
    const blob: BlobClient
    const queue: RqClient

    predicate Valid()
      reads queue
    {
      sftp.servers == servers && blob.servers == servers && queue.servers == servers && queue.Valid()
    }

    constructor (sftp: SftpClient, blob: BlobClient, queue: RqClient)
      requires sftp.servers == blob.servers == queue.servers && queue.Valid()
      ensures Valid() && this.sftp == sftp
    {
      this.servers := sftp.servers;
      this.sftp := sftp;
      this.blob := blob;
      this.queue := queue;
    }

    /** Opens a session of its own; no cache is told. */
    method CreatePendingBatch(path: string, newId: Uuid, o: Outcome) returns (r: Answer<Uuid>)
      modifies servers
      ensures servers.world ==
        if o.Landed() then old(servers.world).(batches := old(servers.world.batches)[newId := NewBatch(path, None)])
        else old(servers.world)
      ensures r == if o == Ok then Value(newId) else Raised(Unavailable)
    {
      var session := new Session(servers);
      var service := new BatchService(session, null);
      r := service.CreatePendingBatch(path, None, newId, o, Ok, []);
    }

    /**
     * One listed entry. It raises, or takes exactly the disposition the table gives its name, size and bytes; either
     * way the stores end as the step machine leaves them.
     */
    method ProcessOne(raw: string, f: Faults, newId: Uuid) returns (r: Answer<Disposition>)
      requires Valid() && sftp.connected
      modifies servers, queue
      ensures Valid()
      ensures servers.world == Attempt(old(servers.world), Start(raw), f, newId)
      ensures r.Value? <==> Completes(old(servers.world), raw, f)
      ensures r.Value? ==>
        r.value == Triage(old(servers.world), raw) && servers.world == Dispose(old(servers.world), raw, newId)
      ensures r.Value? ==> V.Deserved(old(servers.world), raw, r.value)
    {
      ghost var before := servers.world;
      V.TriageDeserved(before, raw, Triage(before, raw));
      if Completes(before, raw, f) {
        AttemptRefinesTable(before, raw, f, newId);
      }
      var name := Basename(raw);
      if name != raw {
        if name == "" {
          return Value(Skipped);
        }
      }
      r := Examine(name, f, newId);
    }

    /** The size, the extension, and what follows from them. */
    method Examine(name: string, f: Faults, newId: Uuid) returns (r: Answer<Disposition>)
      requires Valid() && sftp.connected
      modifies servers, queue
      ensures Valid()
      ensures servers.world == Attempt(old(servers.world), Sizing(name), f, newId)
      ensures r.Value? <==> CompletesAs(old(servers.world), name, TriageFile(old(servers.world), name), f)
      ensures r.Value? ==> r.value == TriageFile(old(servers.world), name)
    {
      Advance(servers.world, Sizing(name), f, newId);
      var size := sftp.SizeOf(UploadPath(name), f.size);
      if size == Raised(FileNotFound) {
        return Value(Vanished);
      }
      var bytes :- size;

      if bytes == 0 {
        r := Remove(name, f, newId, DeletedEmpty);
      } else if bytes > MAX_FILE_SIZE_BYTES || !IsTiffName(name) {
        r := Remove(name, f, newId, Rejected);
      } else {
        r := Inspect(name, f, newId);
      }
    }

    method Remove(name: string, f: Faults, newId: Uuid, d: Disposition) returns (r: Answer<Disposition>)
      requires Valid() && sftp.connected
      modifies servers
      ensures servers.world == Attempt(old(servers.world), Removing(name), f, newId)
      ensures r.Value? <==> f.remove == Ok && UploadPath(name) in old(servers.world.files)
      ensures r.Value? ==> r.value == d
    {
      Advance(servers.world, Removing(name), f, newId);
      var _ :- sftp.DeleteFile(UploadPath(name), f.remove);
      return Value(d);
    }

    /** The magic-byte check and what follows it. */
    method Inspect(name: string, f: Faults, newId: Uuid) returns (r: Answer<Disposition>)
      requires Valid() && sftp.connected && UploadPath(name) in servers.world.files
      modifies servers, queue
      ensures Valid()
      ensures servers.world == Attempt(old(servers.world), Peeking(name), f, newId)
      ensures var genuine := TiffBytes(old(servers.world.files)[UploadPath(name)]);
        && (r.Value? <==>
              && f.head == Ok
              && (genuine ==> f.read == Ok && f.upload == Ok && f.save == Ok && f.enqueue == Ok && f.remove == Ok)
              && (!genuine ==> f.move == Ok && QuarantinePath(name) !in old(servers.world.files)))
        && (r.Value? ==> r.value == if genuine then Accepted else Quarantined)
    {
      var path := UploadPath(name);
      Advance(servers.world, Peeking(name), f, newId);
      var head :- sftp.ReadPartial(path, 4, f.head);
      assert head == Head(servers.world.files[path]);
      V.MagicSpelled(servers.world.files[path]);
      if !IsTiffMagic(head) {
        Advance(servers.world, Quarantining(name), f, newId);
        var _ :- sftp.MoveFile(path, QuarantinePath(name), f.move);
        return Value(Quarantined);
      }
      Advance(servers.world, Reading(name), f, newId);
      var data :- sftp.ReadFile(path, f.read);
      r := Store(name, data, f, newId);
    }

    /** The happy path once the bytes are read: upload, record, queue, and only then remove the source. */
    method Store(name: string, data: Bytes, f: Faults, newId: Uuid) returns (r: Answer<Disposition>)
      requires Valid() && sftp.connected
      modifies servers, queue
      ensures Valid()
      ensures servers.world == Attempt(old(servers.world), Uploading(name, data), f, newId)
      ensures r.Value? <==>
        && f.upload == Ok && f.save == Ok && f.enqueue == Ok && f.remove == Ok
        && UploadPath(name) in old(servers.world.files)
      ensures r.Value? ==> r.value == Accepted
    {
      Advance(servers.world, Uploading(name, data), f, newId);
      var uri :- blob.UploadFile(name, data, f.upload);

      ghost var stored := servers.world;
      CommitOne(stored, AddBatch(newId, NewBatch(UploadPath(name), None)));
      Advance(stored, Saving(name), f, newId);
      var batch :- CreatePendingBatch(UploadPath(name), newId, f.save);
      r := HandOver(name, batch, f, newId);
    }

    /** The job first, then the source. */
    method HandOver(name: string, batch: Uuid, f: Faults, newId: Uuid) returns (r: Answer<Disposition>)
      requires Valid() && sftp.connected
      modifies servers, queue
      ensures Valid()
      ensures servers.world == Attempt(old(servers.world), Enqueuing(name, batch), f, newId)
      ensures r.Value? <==> f.enqueue == Ok && f.remove == Ok && UploadPath(name) in old(servers.world.files)
      ensures r.Value? ==> r.value == Accepted
    {
      Advance(servers.world, Enqueuing(name, batch), f, newId);
      var _ :- queue.EnqueueJob(QUEUE_NAME, Payload(Some(INFERENCE_FUNC_PATH), JobFor(batch, name)), f.enqueue);

      Advance(servers.world, Finishing(name), f, newId);
      var _ :- sftp.DeleteFile(UploadPath(name), f.remove);
      return Value(Accepted);
    }

    /** Unrolls the step machine by the call about to be made. */
    static lemma Advance(w: World, pc: IngestPc, f: Faults, newId: Uuid)
      requires !pc.Idle?
      ensures var (w', pc') := IngestStep(w, pc, FaultAt(f, pc), newId);
        Attempt(w, pc, f, newId) == Attempt(w', pc', f, newId)
    {
    }

    /** Close, then connect again. */
    method Reconnect(o: Outcome) returns (r: Answer<()>)
      modifies sftp
      ensures sftp.connected == (o == Ok) && (r.Value? <==> o == Ok)
    {
      sftp.Close();
      r := sftp.Connect(true, o);
    }

    /**
     * One turn of the loop. The worker dies at the listing when it has no session; a failed listing changes no store;
     * otherwise every entry gets its own attempt, whatever became of the entries before it.
     */
    method PollOnce(t: P.Turn) returns (alive: bool)
      requires Valid()
      modifies servers, queue, sftp
      ensures Valid()
      ensures alive == old(sftp.connected)
      ensures sftp.connected == P.ConnectedAfter(old(sftp.connected), t)
      ensures servers.world == if old(sftp.connected) then P.TurnEffect(old(servers.world), t) else old(servers.world)
    {
      if !sftp.connected {
        return false;
      }
      match t {
      case ListingFailed(reconnect) =>
        var _ := Reconnect(reconnect);
      case DirectoryMissing =>
      case Listed(entries) =>
        ghost var before := servers.world;
        var i := 0;
        while i < |entries|
          invariant i <= |entries| && Valid() && sftp.connected
          invariant P.Sweep(servers.world, entries[i..]) == P.Sweep(before, entries)
        {
          var e := entries[i];
          assert entries[i..][0] == e && entries[i..][1..] == entries[i + 1..];
          var _ := ProcessOne(e.raw, e.faults, e.newId);
          i := i + 1;
        }
        assert entries[i..] == [];
      }
      return true;
    }

    /** The loop itself, for as many turns as the environment grants. */
    method Run(turns: seq<P.Turn>) returns (alive: bool)
      requires Valid()
      modifies servers, queue, sftp
      ensures Valid()
      ensures (servers.world, alive) == P.Loop(old(servers.world), old(sftp.connected), turns)
    {
      alive := true;
      var i := 0;
      while i < |turns|
        invariant i <= |turns| && Valid()
        invariant P.Loop(servers.world, sftp.connected, turns[i..]) ==
          P.Loop(old(servers.world), old(sftp.connected), turns)
      {
        assert turns[i..][0] == turns[i] && turns[i..][1..] == turns[i + 1..];
        alive := PollOnce(turns[i]);
        if !alive {
          return;
        }
        i := i + 1;
      }
      assert turns[i..] == [];
      alive := true;
    }
  }
}

/**
 * The adapters of app/infra as the processes use them. Each call is handed its outcome by the environment; a call
 * that does not come back as Ok raises.
 */
module Clients {
  import opened Prelude
  import opened Keys
  import opened World
  import I = Ingest

  datatype Error =
    | FileNotFound | NoSession | ConnectionLost | Unavailable | MissingFunc | NoSuchKey
    | Unstorable | Undecodable | NotInTaxonomy

  /** The result of a call that may raise. */
  datatype Answer<+T> = Value(value: T) | Raised(error: Error)
  {
    predicate IsFailure() { Raised? }

    function PropagateFailure<U>(): Answer<U>
      requires Raised?
    {
      Raised(error)
    }

    function Extract(): T
      requires Value?
    {
      value
    }
  }

  /** The servers behind the adapters: SFTP, object store, database and queue. */
  class Servers {
    var world: World

    constructor (world: World)
      ensures this.world == world
    {
      this.world := world;
    }
  }

  // ---------------------------------------------------------------- SFTP

  class SftpClient {
    const servers: Servers
    /** Is a session open? Closing the client or never connecting leaves none. */
    var connected: bool

    constructor (servers: Servers)
      ensures this.servers == servers && !connected
    {
      this.servers := servers;
      connected := false;
    }

    /** Idempotent while the transport is alive; a failed attempt leaves the client as it was. */
    method Connect(alive: bool, o: Outcome) returns (r: Answer<()>)
      modifies this
      ensures r.Value? <==> (old(connected) && alive) || o == Ok
      ensures connected == (old(connected) || o == Ok)
    {
      if connected && alive {
        return Value(());
      }
      if o != Ok {
        return Raised(ConnectionLost);
      }
      connected := true;
      return Value(());
    }

    method Close()
      modifies this
      ensures !connected
    {
      connected := false;
    }

    method SizeOf(path: string, o: Outcome) returns (r: Answer<nat>)
      ensures r.Value? <==> connected && o == Ok && path in servers.world.files
      ensures r.Value? ==> r.value == |servers.world.files[path]|
      ensures r == Raised(FileNotFound) <==> connected && o == Ok && path !in servers.world.files
    {
      if !connected { return Raised(NoSession); }
      if o != Ok { return Raised(ConnectionLost); }
      if path !in servers.world.files { return Raised(FileNotFound); }
      return Value(|servers.world.files[path]|);
    }

    /** The first `count` bytes. */
    method ReadPartial(path: string, count: nat, o: Outcome) returns (r: Answer<Bytes>)
      ensures r.Value? <==> connected && o == Ok && path in servers.world.files
      ensures r.Value? ==>
        && r.value <= servers.world.files[path]
        && |r.value| == if count <= |servers.world.files[path]| then count else |servers.world.files[path]|
    {
      var data :- ReadFile(path, o);
      return Value(if |data| <= count then data else data[..count]);
    }

    method ReadFile(path: string, o: Outcome) returns (r: Answer<Bytes>)
      ensures r.Value? <==> connected && o == Ok && path in servers.world.files
      ensures r.Value? ==> r.value == servers.world.files[path]
    {
      if !connected { return Raised(NoSession); }
      if o != Ok { return Raised(ConnectionLost); }
      if path !in servers.world.files { return Raised(FileNotFound); }
      return Value(servers.world.files[path]);
    }

    method DeleteFile(path: string, o: Outcome) returns (r: Answer<()>)
      modifies servers
      ensures servers.world == if connected then I.DeleteStep(old(servers.world), path, o) else old(servers.world)
      ensures r.Value? <==> connected && o == Ok && path in old(servers.world.files)
    {
      if !connected { return Raised(NoSession); }
      var found := path in servers.world.files;
      servers.world := I.DeleteStep(servers.world, path, o);
      if o != Ok { return Raised(ConnectionLost); }
      r := if found then Value(()) else Raised(FileNotFound);
    }

    /** SFTP rename: refused when the source is missing or the target exists. */
    method MoveFile(source: string, target: string, o: Outcome) returns (r: Answer<()>)
      modifies servers
      ensures r.Value? <==>
        connected && o == Ok && source in old(servers.world.files) && target !in old(servers.world.files)
      ensures servers.world ==
        if connected && o.Landed() && source in old(servers.world.files) && target !in old(servers.world.files) then
          old(servers.world).(files :=
            I.Without(old(servers.world.files), source)[target := old(servers.world.files[source])])
        else old(servers.world)
    {
      if !connected { return Raised(NoSession); }
      var files := servers.world.files;
      if o.Landed() && source in files && target !in files {
        servers.world := servers.world.(files := I.Without(files, source)[target := files[source]]);
      }
      if o != Ok { return Raised(ConnectionLost); }
      r := if source in files && target !in files then Value(()) else Raised(FileNotFound);
    }
  }

  // ---------------------------------------------------------------- object store

  class BlobClient {
    const servers: Servers

    constructor (servers: Servers)
      ensures this.servers == servers
    {
      this.servers := servers;
    }

    /** Overwrites; answers with the URI whose key part a download takes. */
    method UploadFile(key: string, data: Bytes, o: Outcome) returns (r: Answer<string>)
      modifies servers
      ensures servers.world ==
        if o.Landed() then old(servers.world).(bucket := old(servers.world.bucket)[key := data]) else old(servers.world)
      ensures r.Value? <==> o == Ok
      ensures r.Value? ==> KeyOfUri(r.value) == Some(key)
    {
      if o.Landed() {
        servers.world := servers.world.(bucket := servers.world.bucket[key := data]);
      }
      if o != Ok { return Raised(Unavailable); }
      UriRoundTrip(Uri(key), key);
      return Value(Uri(key));
    }

    method DownloadFile(key: string, o: Outcome) returns (r: Answer<Bytes>)
      ensures r.Value? <==> o == Ok && key in servers.world.bucket
      ensures r.Value? ==> r.value == servers.world.bucket[key]
    {
      if o != Ok { return Raised(Unavailable); }
      if key !in servers.world.bucket { return Raised(NoSuchKey); }
      return Value(servers.world.bucket[key]);
    }
  }

  // ---------------------------------------------------------------- job queue

  const QUEUE_NAME := "classification_queue"
  const INFERENCE_FUNC_PATH := "app.workers.inference.run_inference"

  datatype Payload = Payload(func: Option<string>, job: Job)

  /** A handle on one named queue. Only the classification queue is part of the world. */
  class JobQueue {
    const name: string
    const servers: Servers

    constructor (name: string, servers: Servers)
      ensures this.name == name && this.servers == servers
    {
      this.name := name;
      this.servers := servers;
    }

    method Enqueue(job: Job, o: Outcome) returns (r: Answer<()>)
      modifies servers
      ensures servers.world ==
        if o.Landed() && name == QUEUE_NAME then old(servers.world).(jobs := old(servers.world.jobs) + [job])
        else old(servers.world)
      ensures r.Value? <==> o == Ok
    {
      if o.Landed() && name == QUEUE_NAME {
        servers.world := servers.world.(jobs := servers.world.jobs + [job]);
      }
      r := if o == Ok then Value(()) else Raised(Unavailable);
    }
  }

  class RqClient {
    const servers: Servers
    /** Handles made so far, by queue name. */
    var queues: map<string, JobQueue>

    predicate Valid()
      reads this
    {
      forall name | name in queues :: queues[name].name == name && queues[name].servers == servers
    }

    constructor (servers: Servers)
      ensures this.servers == servers && queues == map[] && Valid()
    {
      this.servers := servers;
      queues := map[];
    }

    /** One handle per name for the life of the client. */
    method GetQueue(name: string) returns (queue: JobQueue)
      requires Valid()
      modifies this
      ensures Valid() && queue.name == name && queue.servers == servers
      ensures name in old(queues) ==> queue == old(queues)[name]
      ensures queues == old(queues)[name := queue]
    {
      if name in queues {
        queue := queues[name];
      } else {
        queue := new JobQueue(name, servers);
        queues := queues[name := queue];
      }
    }

    /** A payload without a function path is refused before anything else; no failure leaves a job in another queue. */
    method EnqueueJob(queueName: string, payload: Payload, o: Outcome) returns (r: Answer<()>)
      requires Valid()
      modifies this, servers
      ensures Valid()
      ensures forall name | name in old(queues) :: name in queues && queues[name] == old(queues)[name]
      ensures payload.func in {None, Some("")} ==>
        r == Raised(MissingFunc) && queues == old(queues) && servers.world == old(servers.world)
      ensures payload.func !in {None, Some("")} ==>
        && (r.Value? <==> o == Ok)
        && queues.Keys == old(queues).Keys + {queueName}
        && servers.world ==
             if o.Landed() && queueName == QUEUE_NAME
             then old(servers.world).(jobs := old(servers.world.jobs) + [payload.job])
             else old(servers.world)
    {
      if payload.func in {None, Some("")} {
        return Raised(MissingFunc);
      }
      var queue := GetQueue(queueName);
      r := queue.Enqueue(payload.job, o);
    }
  }
}

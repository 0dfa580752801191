/** The inference worker's entry point over the adapters, proved equal to the step machine of the interleaved runs. */
module InferenceWorker {
  import opened Prelude
  import opened Keys
  import opened World
  import opened CacheService
  import opened Clients
  import opened Database
  import opened Services
  import N = Inference

  class Worker {
    const servers: Servers
    const blob: BlobClient
    const cache: CacheService

    constructor (servers: Servers, cache: CacheService)
      ensures this.servers == servers && this.cache == cache && blob.servers == servers
    {
      this.servers := servers;
      this.cache := cache;
      blob := new BlobClient(servers);
    }

    /**
     * Download, classify, draw, persist. The label and the confidence are checked after the overlay is uploaded and
     * before anything is written to the database.
     */
    method RunInference(c: Classifier, job: Job, f: N.RunFaults, scans: Scans) returns (r: Answer<nat>)
      requires blob.servers == servers
      requires cache.backend != null ==> AllScans(cache.backend.keys, job.batch, scans)
      modifies servers, cache.backend
      ensures servers.world == N.Run(c, old(servers.world), job, N.Downloading, f).0
      ensures r.Value? <==>
        && f == N.NO_RUN_FAULTS && job.blobKey in old(servers.world.bucket) && job.batch in old(servers.world.batches)
        && var v := c(old(servers.world.bucket)[job.blobKey]);
           v.decodes && v.docLabel.Some? && 0.0 <= v.confidence <= 1.0
      ensures r.Value? && cache.backend != null && QuietScans(scans) ==>
        cache.backend.keys == Kept(old(cache.backend.keys))
    {
      ghost var before := servers.world;
      N.RunExactly(c, before, job, f);
      Unroll(c, before, job, N.Downloading, f);
      var data :- blob.DownloadFile(job.blobKey, f.download);
      var verdict := c(data);
      if !verdict.decodes {
        return Raised(Undecodable);
      }

      Unroll(c, before, job, N.Drawing(data), f);
      var uri :- blob.UploadFile(OverlayKey(job.batch, job.filename), verdict.overlay, f.upload);
      UriRoundTrip(uri, OverlayKey(job.batch, job.filename));

      ghost var drawn := servers.world;
      Unroll(c, drawn, job, N.Creating(data), f);
      if verdict.docLabel.None? || !(0.0 <= verdict.confidence <= 1.0) {
        return Raised(NotInTaxonomy);
      }
      var row := Prediction(job.batch, job.filename, verdict.docLabel.value, verdict.confidence, Some(uri));
      r := Persist(c, job, data, row, f, scans);
    }

    /** One session for the prediction and the status, which commit separately. */
    method Persist(ghost c: Classifier, ghost job: Job, ghost data: Bytes, row: Prediction, f: N.RunFaults,
                   scans: Scans)
      returns (r: Answer<nat>)
      requires WellFormed(c(data)) && row == PredictionOf(job, c(data))
      requires cache.backend != null ==> AllScans(cache.backend.keys, row.batch, scans)
      modifies servers, cache.backend
      ensures servers.world == N.Run(c, old(servers.world), job, N.Creating(data), f).0
      ensures r.Value? <==> N.Run(c, old(servers.world), job, N.Creating(data), f).1.Finished?
      ensures r.Value? && cache.backend != null && QuietScans(scans) ==>
        cache.backend.keys == Kept(old(cache.backend.keys))
    {
      ghost var before := servers.world;
      CommitOne(before, AddPrediction(row));
      ghost var created := before.(predictions := before.predictions + [row]);
      CommitOne(created, Write.UpdateStatus(row.batch, Done));
      Unroll(c, before, job, N.Creating(data), f);
      Unroll(c, created, job, N.Completing(|before.predictions|), f);
      var session := new Session(servers);
      var service := new PredictionService(session, cache);
      r := service.SavePredictionAndCompleteBatch(row, f.create, f.complete, f.evict, scans);
      Unroll(c, servers.world, job, N.Evicting(|before.predictions|), f);
    }

    static lemma Unroll(c: Classifier, w: World, job: Job, pc: N.RunPc, f: N.RunFaults)
      requires N.RunRank(pc) > 0
      ensures var (w', pc') := N.RunStep(c, w, job, pc, N.RunFaultAt(f, pc));
        N.Run(c, w, job, pc, f) == N.Run(c, w', job, pc', f)
    {
    }
  }
}

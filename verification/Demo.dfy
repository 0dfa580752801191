/** The demo endpoint: a second producer of documents, batches and jobs, one step per external call. */
module Demo {
  import opened Prelude
  import opened Keys
  import opened World

  datatype DemoPc =
    | Uploading(name: string, data: Bytes, user: Uuid)
    | Saving(name: string, user: Uuid)
    | Enqueuing(name: string, batch: Uuid)
    | Closed

  function DemoStep(w: World, pc: DemoPc, o: Outcome, newId: Uuid): (World, DemoPc) {
    match pc
    case Uploading(name, data, user) =>
      (if o.Landed() then w.(bucket := w.bucket[name := data]) else w,
       if o == Ok then Saving(name, user) else Closed)
    case Saving(name, user) =>
      (if o.Landed() then Commit(w, [AddBatch(newId, Batch(DemoPath(name), Some(user), Pending))]) else w,
       if o == Ok then Enqueuing(name, newId) else Closed)
    case Enqueuing(name, batch) =>
      (if o.Landed() then w.(jobs := w.jobs + [Job(batch, name, name)]) else w, Closed)
    case Closed => (w, Closed)
  }
}

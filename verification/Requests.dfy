/**
 * The API requests that change rows, one step per database call: relabel, batch status, user role.
 * Each works in its own session; what it read may be stale by the time it commits.
 */
module Requests {
  import opened Prelude
  import opened Keys
  import opened World
  import opened Access

  datatype Kind =
    | RelabelPrediction(pid: nat, update: PredictionUpdate)
    | PatchBatch(batch: Uuid, status: Field<BatchStatus>)
    | SetUserRole(user: Uuid, role: Role)

  /** What the request has read of the row it will change, as far as it uses it later. */
  datatype Seen = Unread | StatusRead(status: BatchStatus) | RoleRead(role: Role)

  datatype Pc =
    | Guarding                                            // about to load the caller's user row
    | Reading                                             // about to load the row to change
    | Writing(seen: Seen)                                 // about to flush the update
    | Auditing(seen: Seen, writes: seq<Write>)            // about to flush the audit row; `writes`: flushed so far
    | Committing(seen: Seen, writes: seq<Write>)
    | Evicting
    | Closed(code: nat)

  datatype Request = Request(kind: Kind, actor: Uuid, pc: Pc)

  const CONFIDENCE_LIMIT := 0.7

  function RequiredRole(kind: Kind): Role {
    match kind
    case RelabelPrediction(_, _) => Reviewer
    case PatchBatch(_, _) => Admin
    case SetUserRole(_, _) => Admin
  }

  function GuardStep(w: World, r: Request): Pc {
    if r.actor !in w.users then Closed(401)
    else if !RequireRole(w.users[r.actor], [RequiredRole(r.kind)]) then Closed(403)
    else if r.kind.SetUserRole? && r.kind.user == r.actor then Closed(409)
    else Reading
  }

  /** get_prediction and its confidence guard; the read of the old batch status; update_role's lookup. */
  function ReadStep(w: World, kind: Kind): Pc {
    match kind
    case RelabelPrediction(pid, _) =>
      if pid >= |w.predictions| then Closed(404)
      else if w.predictions[pid].confidence >= CONFIDENCE_LIMIT then Closed(403)
      else Writing(Unread)
    case PatchBatch(batch, _) =>
      if batch !in w.batches then Closed(404) else Writing(StatusRead(w.batches[batch].status))
    case SetUserRole(user, _) =>
      if user !in w.users then Closed(404) else Writing(RoleRead(w.users[user]))
  }

  /** Assigning the role a user was loaded with changes nothing, so there is no update to flush. */
  predicate RoleKept(kind: Kind, seen: Seen) {
    kind.SetUserRole? && seen == RoleRead(kind.role)
  }

  /** The flush of the update itself; a null in a non-nullable column raises here. */
  function WriteStep(w: World, kind: Kind, seen: Seen): Pc {
    match kind
    case RelabelPrediction(pid, u) =>
      if pid >= |w.predictions| then Closed(404)
      else if Empty(u) then Auditing(seen, [])
      else if !Storable(u) then Closed(500)
      else Auditing(seen, [UpdatePrediction(pid, u)])
    case PatchBatch(batch, status) =>
      if batch !in w.batches then Closed(404)
      else
        (match status
         case Unset => Auditing(seen, [])
         case Null => Closed(500)
         case Set(s) => Auditing(seen, [UpdateStatus(batch, s)]))
    case SetUserRole(user, role) => Auditing(seen, if RoleKept(kind, seen) then [] else [UpdateRole(user, role)])
  }

  /**
   * The audit row the service flushes, if any: a status change is recorded only when it differs from the status read.
   */
  function AuditRows(kind: Kind, actor: Uuid, seen: Seen): seq<Write> {
    match kind
    case RelabelPrediction(pid, _) => [AddAudit(AuditEntry(actor, Relabel, PredictionTarget(pid)))]
    case PatchBatch(batch, status) =>
      if status.Set? && StatusRead(status.value) != seen
      then [AddAudit(AuditEntry(actor, StatusChange(status.value), BatchTarget(batch)))]
      else []
    case SetUserRole(user, _) => [AddAudit(AuditEntry(actor, RoleToggle, RoleTarget(user)))]
  }

  function RequestStep(w: World, r: Request, o: Outcome): (World, Request) {
    match r.pc
    case Guarding => (w, r.(pc := if o == Ok then GuardStep(w, r) else Closed(500)))
    case Reading => (w, r.(pc := if o == Ok then ReadStep(w, r.kind) else Closed(500)))
    case Writing(seen) =>
      (w, r.(pc := if o == Ok || RoleKept(r.kind, seen) then WriteStep(w, r.kind, seen) else Closed(500)))
    case Auditing(seen, writes) =>
      var rows := AuditRows(r.kind, r.actor, seen);     // without a row there is no call that could fail
      (w, r.(pc := if o == Ok || rows == [] then Committing(seen, writes + rows) else Closed(500)))
    case Committing(_, writes) =>
      (if o.Landed() then Commit(w, writes) else w,
       r.(pc := if o != Ok then Closed(500) else if r.kind.SetUserRole? then Closed(200) else Evicting))
    case Evicting => (w, r.(pc := if o == Ok then Closed(200) else Closed(500)))
    case Closed(_) => (w, r)
  }

  /** How many calls a request can still make. */
  function CallsLeft(pc: Pc): nat {
    match pc
    case Guarding => 6
    case Reading => 5
    case Writing(_) => 4
    case Auditing(_, _) => 3
    case Committing(_, _) => 2
    case Evicting => 1
    case Closed(_) => 0
  }

  // ---------------------------------------------------------------- the overlay endpoint

  datatype OverlayResponse = NotFound | NotAvailable | NoSuchKey | Png(bytes: Bytes)

  function GetOverlay(w: World, pid: nat): OverlayResponse {
    if pid >= |w.predictions| then NotFound
    else
      match w.predictions[pid].overlay
      case None => NotAvailable
      case Some(uri) =>
        match KeyOfUri(uri)
        case None => NotAvailable
        case Some(key) => if key in w.bucket then Png(w.bucket[key]) else NoSuchKey
  }

  /** The whole answer: the object the stored path names, if there is such a row, such a path and such an object. */
  lemma OverlayAnswered(w: World, pid: nat)
    ensures GetOverlay(w, pid) == NotFound <==> pid >= |w.predictions|
    ensures GetOverlay(w, pid) == NotAvailable <==>
      && pid < |w.predictions|
      && (w.predictions[pid].overlay == None
          || forall key: string :: w.predictions[pid].overlay != Some("s3://documents/" + key))
    ensures forall key: string | pid < |w.predictions| && w.predictions[pid].overlay == Some("s3://documents/" + key) ::
      GetOverlay(w, pid) == if key in w.bucket then Png(w.bucket[key]) else NoSuchKey
  {
    if pid < |w.predictions| && w.predictions[pid].overlay.Some? {
      var uri := w.predictions[pid].overlay.value;
      forall key: string ensures KeyOfUri(uri) == Some(key) <==> uri == "s3://documents/" + key {
        UriRoundTrip(uri, key);
      }
      if KeyOfUri(uri).Some? {
        assert uri == "s3://documents/" + KeyOfUri(uri).value;
      }
    }
  }
}

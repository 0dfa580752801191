/**
 * One request from first call to last with nothing else in between: permitted or refused, and all or nothing.
 */
module Handling {
  import opened Prelude
  import opened Keys
  import opened World
  import opened Access
  import opened Requests
  import S = System

  /** How the calls of one request fare. */
  datatype CallFaults = CallFaults(
    guard: Outcome, read: Outcome, write: Outcome, audit: Outcome, commit: Outcome, evict: Outcome)

  const ALL_WELL := CallFaults(Ok, Ok, Ok, Ok, Ok, Ok)

  function CallFaultAt(f: CallFaults, pc: Pc): Outcome {
    match pc
    case Guarding => f.guard
    case Reading => f.read
    case Writing(_) => f.write
    case Auditing(_, _) => f.audit
    case Committing(_, _) => f.commit
    case Evicting => f.evict
    case Closed(_) => Ok
  }

  function Handle(w: World, r: Request, f: CallFaults): (World, Request)
    decreases CallsLeft(r.pc)
  {
    if r.pc.Closed? then (w, r)
    else
      var (w', r') := RequestStep(w, r, CallFaultAt(f, r.pc));
      Handle(w', r', f)
  }

  lemma HandleUnrolls(w: World, r: Request, f: CallFaults)
    requires !r.pc.Closed?
    ensures var (w', r') := RequestStep(w, r, CallFaultAt(f, r.pc)); Handle(w, r, f) == Handle(w', r', f)
  {
  }

  /** What the request reads of its row. */
  function SeenBy(w: World, kind: Kind): Seen {
    if kind.PatchBatch? && kind.batch in w.batches then StatusRead(w.batches[kind.batch].status)
    else if kind.SetUserRole? && kind.user in w.users then RoleRead(w.users[kind.user])
    else Unread
  }

  /** What the request asks for, with its audit row, committed together. */
  function Granted(w: World, kind: Kind, actor: Uuid): World {
    Commit(w, S.Change(kind, SeenBy(w, kind)) + AuditRows(kind, actor, SeenBy(w, kind)))
  }

  /** Who may ask for what: reviewers and admins relabel, only admins change batches and roles. */
  predicate Entitled(role: Role, kind: Kind) {
    match kind
    case RelabelPrediction(_, _) => role == Reviewer || role == Admin
    case PatchBatch(_, _) => role == Admin
    case SetUserRole(_, _) => role == Admin
  }

  /** Role, target, and the request's own rules. */
  predicate Permitted(w: World, kind: Kind, actor: Uuid) {
    && actor in w.users && Entitled(w.users[actor], kind)
    && match kind
       case RelabelPrediction(pid, u) =>
         pid < |w.predictions| && w.predictions[pid].confidence < 0.7 && !u.docLabel.Null?
       case PatchBatch(batch, status) => batch in w.batches && !status.Null?
       case SetUserRole(user, role) => user in w.users && user != actor
  }

  /** require_role with one role. */
  lemma SoleRole(role: Role, required: Role)
    ensures RequireRole(role, [required]) <==> role in {required, Admin}
  {
    EnforceTable(role, required);
    if Enforce(role, required) {
      assert Enforce(role, [required][0]);
    }
  }

  lemma GuardMeaning(w: World, kind: Kind, actor: Uuid)
    ensures var next := GuardStep(w, Request(kind, actor, Guarding));
      && (actor !in w.users ==> next == Closed(401))
      && (actor in w.users && !Entitled(w.users[actor], kind) ==> next == Closed(403))
      && (actor in w.users && Entitled(w.users[actor], kind) ==> next in {Reading, Closed(409)})
      && (next.Reading? <==>
            && actor in w.users && Entitled(w.users[actor], kind)
            && (kind.SetUserRole? ==> kind.user != actor))
  {
    if actor in w.users {
      SoleRole(w.users[actor], RequiredRole(kind));
    }
  }

  /** From the flush on: nothing is committed, or everything the request asked for. */
  lemma HandleFromWriting(w: World, kind: Kind, actor: Uuid, seen: Seen, f: CallFaults)
    requires kind.RelabelPrediction? ==> kind.pid < |w.predictions|
    requires kind.PatchBatch? ==> kind.batch in w.batches
    ensures var storable := match kind
                            case RelabelPrediction(_, u) => !u.docLabel.Null?
                            case PatchBatch(_, status) => !status.Null?
                            case SetUserRole(_, _) => true;
      var (w', r') := Handle(w, Request(kind, actor, Writing(seen)), f);
      && r'.pc.Closed?
      && (w' != w ==> storable && w' == Commit(w, S.Change(kind, seen) + AuditRows(kind, actor, seen)))
      && (r'.pc == Closed(200) ==> storable && w' == Commit(w, S.Change(kind, seen) + AuditRows(kind, actor, seen)))
      && (f == ALL_WELL && storable ==> r'.pc == Closed(200))
  {
    var writing := Request(kind, actor, Writing(seen));
    HandleUnrolls(w, writing, f);
    var next := RequestStep(w, writing, f.write).1;
    if next.pc.Auditing? {
      assert next.pc == Auditing(seen, S.Change(kind, seen));
      HandleFromAuditing(w, kind, actor, seen, f);
    }
  }

  lemma HandleFromAuditing(w: World, kind: Kind, actor: Uuid, seen: Seen, f: CallFaults)
    ensures var (w', r') := Handle(w, Request(kind, actor, Auditing(seen, S.Change(kind, seen))), f);
      var whole := Commit(w, S.Change(kind, seen) + AuditRows(kind, actor, seen));
      && r'.pc.Closed? && w' in {w, whole}
      && (r'.pc == Closed(200) ==> w' == whole)
      && (f == ALL_WELL ==> r'.pc == Closed(200))
  {
    var auditing := Request(kind, actor, Auditing(seen, S.Change(kind, seen)));
    HandleUnrolls(w, auditing, f);
    if f.audit == Ok || AuditRows(kind, actor, seen) == [] {
      var committing := auditing.(pc := Committing(seen, S.Change(kind, seen) + AuditRows(kind, actor, seen)));
      HandleUnrolls(w, committing, f);
      var (w', r') := RequestStep(w, committing, f.commit);
      if r'.pc.Evicting? {
        HandleUnrolls(w', r', f);
      }
    }
  }

  /**
   * All or nothing. Whatever fails, the request changes nothing, or it was permitted and its change and its audit row
   * are both committed; an answer of 200 means the latter, and every permitted request meets with it when all goes
   * well.
   */
  lemma HandleOutcome(w: World, kind: Kind, actor: Uuid, f: CallFaults)
    ensures var (w', r') := Handle(w, Request(kind, actor, Guarding), f);
      && r'.pc.Closed?
      && (w' != w ==> Permitted(w, kind, actor) && w' == Granted(w, kind, actor))
      && (r'.pc == Closed(200) ==> Permitted(w, kind, actor) && w' == Granted(w, kind, actor))
      && (f == ALL_WELL ==> (r'.pc == Closed(200) <==> Permitted(w, kind, actor)))
  {
    var start := Request(kind, actor, Guarding);
    HandleUnrolls(w, start, f);
    GuardMeaning(w, kind, actor);
    var read := RequestStep(w, start, f.guard).1;
    if read.pc.Reading? {
      HandleUnrolls(w, read, f);
      var writing := RequestStep(w, read, f.read).1;
      if writing.pc.Writing? {
        HandleFromWriting(w, kind, actor, SeenBy(w, kind), f);
      }
    }
  }

  /**
   * What a granted request leaves, column by column: the named columns of one row, one audit row under the caller's id
   * (for a batch only when the status differs), and nothing else.
   */
  lemma GrantedExactly(w: World, kind: Kind, actor: Uuid)
    requires Permitted(w, kind, actor)
    ensures var w' := Granted(w, kind, actor);
      && w' == w.(predictions := w'.predictions, batches := w'.batches, users := w'.users, audit := w'.audit)
      && |w'.predictions| == |w.predictions|
      && match kind
         case RelabelPrediction(pid, u) =>
           var p, p' := w.predictions[pid], w'.predictions[pid];
           && w'.predictions == w.predictions[pid := p'] && w'.batches == w.batches && w'.users == w.users
           && p' == p.(docLabel := p'.docLabel, overlay := p'.overlay)
           && p'.docLabel == (if u.docLabel.Set? then u.docLabel.value else p.docLabel)
           && (u.overlay.Unset? ==> p'.overlay == p.overlay) && (u.overlay.Null? ==> p'.overlay == None)
           && (u.overlay.Set? ==> p'.overlay == Some(u.overlay.value))
           && w'.audit == w.audit + [AuditEntry(actor, Relabel, PredictionTarget(pid))]
         case PatchBatch(batch, status) =>
           var before := w.batches[batch];
           && w'.predictions == w.predictions && w'.users == w.users
           && w'.batches == (if status.Set? then w.batches[batch := before.(status := status.value)] else w.batches)
           && w'.audit == (if status.Set? && status.value != before.status
                           then w.audit + [AuditEntry(actor, StatusChange(status.value), BatchTarget(batch))]
                           else w.audit)
         case SetUserRole(user, role) =>
           && w'.predictions == w.predictions && w'.batches == w.batches
           && w'.users == w.users[user := role]
           && w'.audit == w.audit + [AuditEntry(actor, RoleToggle, RoleTarget(user))]
  {
    match kind
    case RelabelPrediction(pid, u) => RelabelGranted(w, pid, u, actor);
    case PatchBatch(batch, status) => S.CommitAppendsAudit(w, kind, actor, SeenBy(w, kind));
    case SetUserRole(user, role) => RoleGranted(w, user, role, actor);
  }

  lemma RelabelGranted(w: World, pid: nat, u: PredictionUpdate, actor: Uuid)
    requires pid < |w.predictions|
    ensures Granted(w, RelabelPrediction(pid, u), actor)
      == w.(predictions := w.predictions[pid := Updated(w.predictions[pid], u)],
            audit := w.audit + [AuditEntry(actor, Relabel, PredictionTarget(pid))])
  {
    S.CommitAppendsAudit(w, RelabelPrediction(pid, u), actor, Unread);
    assert w.predictions == w.predictions[pid := w.predictions[pid]];
  }

  lemma RoleGranted(w: World, user: Uuid, role: Role, actor: Uuid)
    requires user in w.users
    ensures Granted(w, SetUserRole(user, role), actor)
      == w.(users := w.users[user := role], audit := w.audit + [AuditEntry(actor, RoleToggle, RoleTarget(user))])
  {
    S.CommitAppendsAudit(w, SetUserRole(user, role), actor, RoleRead(w.users[user]));
    assert w.users == w.users[user := w.users[user]];
  }

  /** The answer when nothing fails. */
  function CodeFor(w: World, kind: Kind, actor: Uuid): nat {
    if actor !in w.users then 401
    else if !Entitled(w.users[actor], kind) then 403
    else
      match kind
      case RelabelPrediction(pid, u) =>
        if pid >= |w.predictions| then 404
        else if w.predictions[pid].confidence >= 0.7 then 403
        else if u.docLabel.Null? then 500 else 200
      case PatchBatch(batch, status) =>
        if batch !in w.batches then 404 else if status.Null? then 500 else 200
      case SetUserRole(user, _) =>
        if user == actor then 409 else if user !in w.users then 404 else 200
  }

  lemma HandleCode(w: World, kind: Kind, actor: Uuid)
    ensures Handle(w, Request(kind, actor, Guarding), ALL_WELL).1.pc == Closed(CodeFor(w, kind, actor))
  {
    var start := Request(kind, actor, Guarding);
    HandleOutcome(w, kind, actor, ALL_WELL);
    HandleUnrolls(w, start, ALL_WELL);
    GuardMeaning(w, kind, actor);
    var read := RequestStep(w, start, Ok).1;
    if read.pc.Reading? && !Permitted(w, kind, actor) {
      HandleUnrolls(w, read, ALL_WELL);
      var writing := RequestStep(w, read, Ok).1;
      if writing.pc.Writing? {
        HandleUnrolls(w, writing, ALL_WELL);
      }
    }
  }

  /** Whatever fails, the answer is the one the request would get if nothing failed, or 500. */
  lemma FailuresAnswer500(w: World, kind: Kind, actor: Uuid, f: CallFaults)
    ensures Handle(w, Request(kind, actor, Guarding), f).1.pc in {Closed(CodeFor(w, kind, actor)), Closed(500)}
  {
    var start := Request(kind, actor, Guarding);
    HandleOutcome(w, kind, actor, f);
    HandleCode(w, kind, actor);
    HandleUnrolls(w, start, f);
    HandleUnrolls(w, start, ALL_WELL);
    GuardMeaning(w, kind, actor);
    var read := RequestStep(w, start, f.guard).1;
    if read.pc.Reading? {
      HandleUnrolls(w, read, f);
      HandleUnrolls(w, read, ALL_WELL);
      var writing := RequestStep(w, read, f.read).1;
      if writing.pc.Writing? {
        FromWriting500(w, kind, actor, SeenBy(w, kind), f);
      }
    }
  }

  lemma FromWriting500(w: World, kind: Kind, actor: Uuid, seen: Seen, f: CallFaults)
    requires kind.RelabelPrediction? ==> kind.pid < |w.predictions|
    requires kind.PatchBatch? ==> kind.batch in w.batches
    ensures Handle(w, Request(kind, actor, Writing(seen)), f).1.pc in {Closed(200), Closed(500)}
  {
    var writing := Request(kind, actor, Writing(seen));
    HandleUnrolls(w, writing, f);
    var next := RequestStep(w, writing, f.write).1;
    if next.pc.Auditing? {
      HandleUnrolls(w, next, f);
      var committing := RequestStep(w, next, f.audit).1;
      if committing.pc.Committing? {
        HandleUnrolls(w, committing, f);
        var (w', r') := RequestStep(w, committing, f.commit);
        if r'.pc.Evicting? {
          HandleUnrolls(w', r', f);
        }
      }
    }
  }

  /**
   * Who is served when nothing fails, role by role: the guard lets a relabel pass for reviewers and admins, the others
   * for admins alone; everyone else gets 401 or 403 and changes nothing.
   */
  lemma WhoIsServed(w: World, kind: Kind, actor: Uuid)
    ensures var start := Request(kind, actor, Guarding);
      var (w', r') := Handle(w, start, ALL_WELL);
      var passes := actor in w.users && match kind
                                        case RelabelPrediction(_, _) => w.users[actor] in {Reviewer, Admin}
                                        case PatchBatch(_, _) => w.users[actor] in {Admin}
                                        case SetUserRole(_, _) => w.users[actor] in {Admin};
      && (GuardStep(w, start) in {Reading, Closed(409)} <==> passes)
      && (!passes ==> w' == w && r'.pc == Closed(if actor in w.users then 403 else 401))
      && (passes ==> r'.pc != Closed(401) && (!kind.RelabelPrediction? ==> r'.pc != Closed(403)))
      && (r'.pc == Closed(200) ==> passes)
  {
    GuardMeaning(w, kind, actor);
    HandleCode(w, kind, actor);
    HandleOutcome(w, kind, actor, ALL_WELL);
  }
}

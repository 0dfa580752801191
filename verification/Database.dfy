/**
 * A database session and the repositories that write through it. What a session has flushed is seen by the session
 * alone until it commits; a session that raises is closed, and what it had flushed is gone.
 */
module Database {
  import opened Prelude
  import opened Keys
  import opened World
  import opened Clients

  class Session {
    const servers: Servers
    var flushed: seq<Write>

    constructor (servers: Servers)
      ensures this.servers == servers && flushed == []
    {
      this.servers := servers;
      flushed := [];
    }

    /** The tables as this session's own queries see them. */
    function View(): World
      reads this, servers
    {
      Commit(servers.world, flushed)
    }

    method Flush(x: Write)
      modifies this
      ensures flushed == old(flushed) + [x] && View() == ApplyWrite(old(View()), x)
    {
      CommitConcat(servers.world, flushed, [x]);
      CommitOne(View(), x);
      flushed := flushed + [x];
    }

    /** All of what was flushed becomes visible at once, or none of it. */
    method CommitAll(o: Outcome) returns (r: Answer<()>)
      modifies this, servers
      ensures flushed == []
      ensures servers.world == if o.Landed() then old(View()) else old(servers.world)
      ensures r.Value? <==> o == Ok
    {
      if o.Landed() {
        servers.world := View();
      }
      flushed := [];
      r := if o == Ok then Value(()) else Raised(Unavailable);
    }
  }

  class PredictionRepository {
    const session: Session

    constructor (session: Session)
      ensures this.session == session
    {
      this.session := session;
    }

    /** Adds the row and commits: whatever else the session had flushed is committed with it. */
    method Create(row: Prediction, o: Outcome) returns (r: Answer<nat>)
      modifies session, session.servers
      ensures var view := old(session.View());
        && session.servers.world ==
             (if o.Landed() && row.batch in view.batches then view.(predictions := view.predictions + [row])
              else old(session.servers.world))
        && session.flushed == (if row.batch in view.batches then [] else old(session.flushed))
        && (r.Value? <==> o == Ok && row.batch in view.batches)
        && (r.Value? ==> r.value == |view.predictions|)
    {
      if row.batch !in session.View().batches {
        return Raised(Unstorable);
      }
      var id := |session.View().predictions|;
      session.Flush(AddPrediction(row));
      var _ :- session.CommitAll(o);
      return Value(id);
    }

    method Get(id: nat) returns (r: Option<Prediction>)
      ensures r == if id < |session.View().predictions| then Some(session.View().predictions[id]) else None
    {
      r := if id < |session.View().predictions| then Some(session.View().predictions[id]) else None;
    }

    /** Flushes the named columns; None when there is no such row. */
    method Update(id: nat, u: PredictionUpdate, o: Outcome) returns (r: Answer<Option<Prediction>>)
      modifies session
      ensures var found := id < |old(session.View()).predictions|;
        if o == Ok && !found then r == Value(None) && session.flushed == old(session.flushed)
        else if o == Ok && u.docLabel.Unset? && u.overlay.Unset? then
          r == Value(Some(old(session.View()).predictions[id])) && session.flushed == old(session.flushed)
        else if o == Ok && !u.docLabel.Null? then
          r == Value(Some(Updated(old(session.View()).predictions[id], u)))
          && session.flushed == old(session.flushed) + [UpdatePrediction(id, u)]
        else r.Raised?
    {
      if o != Ok { return Raised(Unavailable); }
      if Empty(u) {
        var row := Get(id);
        return Value(row);
      }
      if id >= |session.View().predictions| { return Value(None); }
      if !Storable(u) { return Raised(Unstorable); }
      session.Flush(UpdatePrediction(id, u));
      return Value(Some(session.View().predictions[id]));
    }
  }

  class BatchRepository {
    const session: Session

    constructor (session: Session)
      ensures this.session == session
    {
      this.session := session;
    }

    /** Flushed, not committed. `newId` is the id the row is given. */
    method CreateBatch(path: string, owner: Option<Uuid>, newId: Uuid) returns (r: Uuid)
      modifies session
      ensures r == newId
      ensures session.flushed == old(session.flushed) + [AddBatch(newId, Batch(path, owner, Pending))]
    {
      session.Flush(AddBatch(newId, Batch(path, owner, Pending)));
      return newId;
    }

    method Get(id: Uuid) returns (r: Option<Batch>)
      ensures r == if id in session.View().batches then Some(session.View().batches[id]) else None
    {
      r := if id in session.View().batches then Some(session.View().batches[id]) else None;
    }

    method UpdateStatus(id: Uuid, status: BatchStatus)
      modifies session
      ensures session.flushed == old(session.flushed) + [Write.UpdateStatus(id, status)]
    {
      session.Flush(Write.UpdateStatus(id, status));
    }

    /** Flushes the status if the request names one; None when there is no such row, an error for a null status. */
    method Update(id: Uuid, status: Field<BatchStatus>, o: Outcome) returns (r: Answer<Option<Batch>>)
      modifies session
      ensures var found := id in old(session.View()).batches;
        if o == Ok && !found then r == Value(None) && session.flushed == old(session.flushed)
        else if o == Ok && status.Unset? then
          r == Value(Some(old(session.View()).batches[id])) && session.flushed == old(session.flushed)
        else if o == Ok && status.Set? then
          r == Value(Some(old(session.View()).batches[id].(status := status.value)))
          && session.flushed == old(session.flushed) + [Write.UpdateStatus(id, status.value)]
        else r.Raised?
    {
      if o != Ok { return Raised(Unavailable); }
      var row := Get(id);
      if row.None? || status.Unset? { return Value(row); }
      if status.Null? { return Raised(Unstorable); }
      session.Flush(Write.UpdateStatus(id, status.value));
      return Value(Some(session.View().batches[id]));
    }
  }

  class UserRepository {
    const session: Session

    constructor (session: Session)
      ensures this.session == session
    {
      this.session := session;
    }

    /** Looks the user up, then flushes the new role if it differs from the one just loaded. */
    method UpdateRole(user: Uuid, role: Role, lookup: Outcome, o: Outcome) returns (r: Answer<bool>)
      modifies session
      ensures var found := user in old(session.View()).users;
        if lookup == Ok && !found then r == Value(false) && session.flushed == old(session.flushed)
        else if lookup == Ok && old(session.View()).users[user] == role then
          r == Value(true) && session.flushed == old(session.flushed)
        else if lookup == Ok && o == Ok then
          r == Value(true) && session.flushed == old(session.flushed) + [Write.UpdateRole(user, role)]
        else r.Raised?
    {
      if lookup != Ok { return Raised(Unavailable); }
      if user !in session.View().users { return Value(false); }
      if session.View().users[user] == role { return Value(true); }
      if o != Ok { return Raised(Unavailable); }
      session.Flush(Write.UpdateRole(user, role));
      return Value(true);
    }
  }

  class AuditRepository {
    const session: Session

    constructor (session: Session)
      ensures this.session == session
    {
      this.session := session;
    }

    /** Flushed; the caller commits. */
    method Insert(entry: AuditEntry, o: Outcome) returns (r: Answer<()>)
      modifies session
      ensures r.Value? <==> o == Ok
      ensures r.Value? ==> session.flushed == old(session.flushed) + [AddAudit(entry)]
    {
      if o != Ok { return Raised(Unavailable); }
      session.Flush(AddAudit(entry));
      return Value(());
    }
  }
}

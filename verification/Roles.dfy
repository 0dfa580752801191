/**
 * Role changes: an admin survives any series of requests handled one after another, every committed change is on
 * record, and what interleaving can do to the first of these.
 */
module Roles {
  import opened Prelude
  import opened Keys
  import opened World
  import opened Requests
  import opened Handling
  import opened System
  import A = Accountability
  import R = Refinement
  import Safety

  predicate SomeAdmin(users: map<Uuid, Role>) {
    exists u :: u in users && users[u] == Admin
  }

  datatype Asked = Asked(kind: Kind, actor: Uuid, faults: CallFaults)

  /** Requests of any kind, each from first call to last before the next begins. */
  function InTurn(w: World, asked: seq<Asked>): World
    decreases |asked|
  {
    if asked == [] then w
    else InTurn(Handle(w, Request(asked[0].kind, asked[0].actor, Guarding), asked[0].faults).0, asked[1..])
  }

  /** The committed role changes among them. */
  function RoleCommits(w: World, asked: seq<Asked>): nat
    decreases |asked|
  {
    if asked == [] then 0
    else
      var w' := Handle(w, Request(asked[0].kind, asked[0].actor, Guarding), asked[0].faults).0;
      (if asked[0].kind.SetUserRole? && w' != w then 1 else 0) + RoleCommits(w', asked[1..])
  }

  /** What a granted request does to the users and to the trail of role changes. */
  lemma GrantedUsers(w: World, kind: Kind, actor: Uuid)
    requires Permitted(w, kind, actor)
    ensures var w' := Granted(w, kind, actor);
      && w'.users == (if kind.SetUserRole? then w.users[kind.user := kind.role] else w.users)
      && A.RoleToggles(w'.audit) == A.RoleToggles(w.audit) + (if kind.SetUserRole? then 1 else 0)
      && (kind.SetUserRole? ==> w' != w)
  {
    var w' := Granted(w, kind, actor);
    GrantedExactly(w, kind, actor);
    if w'.audit != w.audit {
      var entry := w'.audit[|w.audit|];
      assert w'.audit == w.audit + [entry];
      A.TogglesAppended(w.audit, entry);
    }
  }

  lemma OneRequest(w: World, a: Asked, w': World)
    requires w' == Handle(w, Request(a.kind, a.actor, Guarding), a.faults).0
    ensures SomeAdmin(w.users) ==> SomeAdmin(w'.users)
    ensures A.RoleToggles(w'.audit) == A.RoleToggles(w.audit) + (if a.kind.SetUserRole? && w' != w then 1 else 0)
  {
    HandleOutcome(w, a.kind, a.actor, a.faults);
    if w' != w {
      GrantedUsers(w, a.kind, a.actor);
      if a.kind.SetUserRole? {
        assert a.actor in w'.users && w'.users[a.actor] == Admin;
      }
    }
  }

  /** One at a time, whatever fails: if there was an admin there still is one, and the trail counts the role changes. */
  lemma {:induction false} AdminSurvives(w: World, asked: seq<Asked>)
    ensures SomeAdmin(w.users) ==> SomeAdmin(InTurn(w, asked).users)
    ensures A.RoleToggles(InTurn(w, asked).audit) == A.RoleToggles(w.audit) + RoleCommits(w, asked)
    decreases |asked|
  {
    if asked != [] {
      var w' := Handle(w, Request(asked[0].kind, asked[0].actor, Guarding), asked[0].faults).0;
      OneRequest(w, asked[0], w');
      AdminSurvives(w', asked[1..]);
    }
  }

  // ---------------------------------------------------------------- interleaved

  lemma CheckedChange(w: World, user: Uuid, role: Role, actor: Uuid)
    requires user in w.users
    ensures Handle(w, Request(SetUserRole(user, role), actor, Reading), ALL_WELL).0
      == w.(users := w.users[user := role], audit := w.audit + [AuditEntry(actor, RoleToggle, RoleTarget(user))])
  {
    var kind := SetUserRole(user, role);
    HandleUnrolls(w, Request(kind, actor, Reading), ALL_WELL);
    var seen := RoleRead(w.users[user]);
    HandleUnrolls(w, Request(kind, actor, Writing(seen)), ALL_WELL);
    assert WriteStep(w, kind, seen) == Auditing(seen, Change(kind, seen));
    RecordedChange(w, user, role, actor);
  }

  lemma RecordedChange(w: World, user: Uuid, role: Role, actor: Uuid)
    requires user in w.users
    ensures Handle(w, Request(SetUserRole(user, role), actor,
                             Auditing(RoleRead(w.users[user]),
                               Change(SetUserRole(user, role), RoleRead(w.users[user])))),
                   ALL_WELL).0
      == w.(users := w.users[user := role], audit := w.audit + [AuditEntry(actor, RoleToggle, RoleTarget(user))])
  {
    var kind := SetUserRole(user, role);
    var seen := RoleRead(w.users[user]);
    var writes := Change(kind, seen) + AuditRows(kind, actor, seen);
    HandleUnrolls(w, Request(kind, actor, Auditing(seen, Change(kind, seen))), ALL_WELL);
    HandleUnrolls(w, Request(kind, actor, Committing(seen, writes)), ALL_WELL);
    CommitAppendsAudit(w, kind, actor, seen);
    assert w.users == w.users[user := w.users[user]];
  }

  /** Both requests are past their checks before either has written anything. */
  lemma BothChecked(c: Classifier, users: map<Uuid, Role>, a: Uuid, b: Uuid) returns (s: State)
    requires a != b && a in users && b in users && users[a] == users[b] == Admin
    ensures R.Leads(c, Init(users), s) && s.w == Init(users).w
    ensures s.requests == [Request(SetUserRole(b, Reviewer), a, Reading), Request(SetUserRole(a, Reviewer), b, Reading)]
  {
    var s0 := Init(users);
    var k0, k1 := SetUserRole(b, Reviewer), SetUserRole(a, Reviewer);
    var s1 := Apply(c, s0, Submit(k0, a));
    var s2 := Apply(c, s1, Submit(k1, b));
    var s3 := Apply(c, s2, RequestCall(0, Ok));
    s := Apply(c, s3, RequestCall(1, Ok));
    GuardMeaning(s0.w, k0, a);
    GuardMeaning(s0.w, k1, b);
    R.Stay(c, s);
    R.Step(c, s3, RequestCall(1, Ok), s, s);
    R.Step(c, s2, RequestCall(0, Ok), s3, s);
    R.Step(c, s1, Submit(k1, b), s2, s);
    R.Step(c, s0, Submit(k0, a), s1, s);
  }

  /** The only two admins, demoting each other at the same time, both pass the check: no admin is left. */
  lemma AdminsCanVanish(c: Classifier, users: map<Uuid, Role>, a: Uuid, b: Uuid) returns (s: State)
    requires a != b && a in users && b in users && users[a] == users[b] == Admin
    requires forall u | u in users && users[u] == Admin :: u == a || u == b
    ensures Safety.Reachable(c, s) && !SomeAdmin(s.w.users)
  {
    var checked := BothChecked(c, users, a, b);
    s := BothDemote(c, checked, a, b);
    R.Compose(c, Init(users), checked, s);
    StartReachable(c, users);
    R.ReachOn(c, Init(users), s);
  }

  lemma BothDemote(c: Classifier, s: State, a: Uuid, b: Uuid) returns (s': State)
    requires a in s.w.users && b in s.w.users
    requires s.requests ==
      [Request(SetUserRole(b, Reviewer), a, Reading), Request(SetUserRole(a, Reviewer), b, Reading)]
    ensures R.Leads(c, s, s') && s'.w.users == s.w.users[b := Reviewer][a := Reviewer]
  {
    var s1 := R.HandleLeads(c, s, 0, ALL_WELL);
    CheckedChange(s.w, b, Reviewer, a);
    s' := R.HandleLeads(c, s1, 1, ALL_WELL);
    CheckedChange(s1.w, a, Reviewer, b);
    R.Compose(c, s, s1, s');
  }

  lemma StartReachable(c: Classifier, users: map<Uuid, Role>)
    ensures Safety.Reachable(c, Init(users))
  {
    assert Legal(c, Init(users), []) && Init(users) == Exec(c, Init(users), []);
  }

  // ---------------------------------------------------------------- how it can happen at all

  /** Past its guard, a role change is never aimed at its own actor. */
  predicate NoSelfChange(requests: seq<Request>) {
    forall q | 0 <= q < |requests| ::
      requests[q].kind.SetUserRole? && !requests[q].pc.Guarding? && !requests[q].pc.Closed? ==>
        requests[q].kind.user != requests[q].actor
  }

  lemma StepKeepsNoSelfChange(c: Classifier, s: State, a: Action)
    requires Enabled(s, a) && NoSelfChange(s.requests)
    ensures NoSelfChange(Apply(c, s, a).requests)
  {
  }

  lemma {:induction false} RunKeepsNoSelfChange(c: Classifier, s: State, acts: seq<Action>)
    requires Legal(c, s, acts) && NoSelfChange(s.requests)
    ensures NoSelfChange(Exec(c, s, acts).requests)
    decreases |acts|
  {
    if acts != [] {
      StepKeepsNoSelfChange(c, s, acts[0]);
      RunKeepsNoSelfChange(c, Apply(c, s, acts[0]), acts[1..]);
    }
  }

  /** The step's actor passed the check for its role change but is an admin no more. */
  predicate StaleChange(s: State, a: Action)
    requires Enabled(s, a)
  {
    && a.RequestCall? && s.requests[a.q].kind.SetUserRole? && s.requests[a.q].pc.Committing?
    && !(s.requests[a.q].actor in s.w.users && s.w.users[s.requests[a.q].actor] == Admin)
  }

  /** The step commits another role for the one admin there is. */
  predicate DemotesLastAdmin(s: State, a: Action)
    requires Enabled(s, a)
  {
    && a.RequestCall? && a.o.Landed() && s.requests[a.q].pc.Committing?
    && s.requests[a.q].kind.SetUserRole? && s.requests[a.q].kind.role != Admin
    && !RoleKept(s.requests[a.q].kind, s.requests[a.q].pc.seen)
    && forall u | u in s.w.users && s.w.users[u] == Admin :: u == s.requests[a.q].kind.user
  }

  /**
   * Under any interleaving a step takes the last admin away if and only if it commits another role for the only admin
   * left; and then its actor, who is somebody else, has lost the role since the check.
   */
  lemma AdminsEndExactly(c: Classifier, s: State, a: Action, s': State)
    requires Safety.Reachable(c, s) && Enabled(s, a) && s' == Apply(c, s, a) && SomeAdmin(s.w.users)
    ensures !SomeAdmin(s'.w.users) <==> DemotesLastAdmin(s, a)
    ensures DemotesLastAdmin(s, a) ==> StaleChange(s, a)
  {
    ReachableChecks(c, s);
    UsersAfter(c, s, a, s');
    if CommitsRole(s, a) {
      var kind := s.requests[a.q].kind;
      assert kind.user != s.requests[a.q].actor;
      if kind.user in s.w.users {
        RoleAssigned(s.w.users, kind.user, kind.role);
      }
    }
  }

  lemma RoleAssigned(users: map<Uuid, Role>, user: Uuid, role: Role)
    requires user in users && SomeAdmin(users)
    ensures !SomeAdmin(users[user := role]) <==>
      role != Admin && forall u | u in users && users[u] == Admin :: u == user
  {
    var users' := users[user := role];
    assert users'[user] == role;
    forall u | u in users && users[u] == Admin && u != user ensures SomeAdmin(users') {
      assert users'[u] == Admin;
    }
    assert forall u | u in users' && u != user :: users'[u] == users[u];
  }

  lemma ReachableChecks(c: Classifier, s: State)
    requires Safety.Reachable(c, s)
    ensures SessionsShaped(s) && NoSelfChange(s.requests)
  {
    Safety.ReachableInv(c, s);
    var users, acts :| Legal(c, Init(users), acts) && s == Exec(c, Init(users), acts);
    RunKeepsNoSelfChange(c, Init(users), acts);
  }

  predicate CommitsRole(s: State, a: Action)
    requires Enabled(s, a)
  {
    && a.RequestCall? && a.o.Landed() && s.requests[a.q].pc.Committing?
    && s.requests[a.q].kind.SetUserRole? && !RoleKept(s.requests[a.q].kind, s.requests[a.q].pc.seen)
  }

  lemma UsersAfter(c: Classifier, s: State, a: Action, s': State)
    requires SessionsShaped(s) && Enabled(s, a) && s' == Apply(c, s, a)
    ensures s'.w.users ==
      if CommitsRole(s, a) && s.requests[a.q].kind.user in s.w.users
      then s.w.users[s.requests[a.q].kind.user := s.requests[a.q].kind.role] else s.w.users
  {
    Summarised(c, s, a, s');
    if a.RequestCall? && s.requests[a.q].pc.Committing? {
      var r := s.requests[a.q];
      assert SessionShape(r);
      CommitAppendsAudit(s.w, r.kind, r.actor, r.pc.seen);
    }
  }
}

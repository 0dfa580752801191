/** Role checks: the Casbin model and policy files behind require_role. */
module Access {
  import opened World

  /** The `g` lines: (child, parent). */
  const INHERITANCE := {(Admin, Reviewer), (Admin, Auditor)}
  /** The `p` lines: (role, required role). */
  const POLICIES := {(Admin, Admin), (Reviewer, Reviewer), (Auditor, Auditor)}

  /** g(sub, role) of the model: the reflexive closure along at most `depth` inheritance lines. */
  predicate Inherits(sub: Role, role: Role, depth: nat)
    decreases depth
  {
    sub == role ||
    (depth > 0 && exists mid :: (sub, mid) in INHERITANCE && Inherits(mid, role, depth - 1))
  }

  /** The matcher: some policy line names the required role and a role the subject inherits. */
  predicate Enforce(sub: Role, required: Role) {
    exists p :: p in POLICIES && p.1 == required && Inherits(sub, p.0, 2)
  }

  predicate RequireRole(sub: Role, roles: seq<Role>) {
    exists i :: 0 <= i < |roles| && Enforce(sub, roles[i])
  }

  /**
   * The whole decision table: a role passes its own guard, an admin passes every guard, nobody else passes another's.
   */
  lemma EnforceTable(sub: Role, required: Role)
    ensures Enforce(sub, required) <==> sub == required || sub == Admin
  {
  }
}

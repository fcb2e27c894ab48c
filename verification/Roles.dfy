/**
 Role assignments in their three places: the SQL rows with their history, the Casbin role links that
 decide permissions, and the audit log. The functions say what one operation does to all three.
 */
module Roles {
  import opened Common
  import opened Audit

  type Time = int

  datatype RoleRow = RoleRow(user: UserId, role: string, assignedBy: UserId, assignedAt: Time, revokedAt: Option<Time>)

  const VALID_ROLES: set<string> := {"admin", "reviewer", "auditor"}

  type Policy = (string, string, string)

  const BASELINE_POLICIES: set<Policy> := {
    ("admin", "users", "manage"), ("admin", "roles", "manage"), ("admin", "audit_logs", "read"),
    ("admin", "batches", "read"), ("admin", "predictions", "read"), ("admin", "predictions", "relabel"),
    ("reviewer", "batches", "read"), ("reviewer", "predictions", "read"), ("reviewer", "predictions", "relabel"),
    ("auditor", "batches", "read"), ("auditor", "predictions", "read"), ("auditor", "audit_logs", "read")
  }

  /** Casbin's grouping rules: the subject on the left has the role on the right. */
  type Link = (string, string)

  function LinkOf(u: UserId, role: string): Link { (u, role) }

  datatype RoleState = RoleState(rows: seq<RoleRow>, links: set<Link>, policies: set<Policy>, log: seq<Event>)

  // ---- queries ----

  predicate ActiveRow(r: RoleRow, u: UserId, role: string) {
    r.user == u && r.role == role && r.revokedAt.None?
  }

  predicate HasActive(rows: seq<RoleRow>, u: UserId, role: string) {
    exists i :: 0 <= i < |rows| && ActiveRow(rows[i], u, role)
  }

  /** The positions of the active rows of one user and role: what `has_active_role` selects. */
  function ActivePositions(rows: seq<RoleRow>, u: UserId, role: string): set<int> {
    set i | 0 <= i < |rows| && ActiveRow(rows[i], u, role)
  }

  function ActiveRoles(rows: seq<RoleRow>, u: UserId): set<string> {
    set i | 0 <= i < |rows| && rows[i].user == u && rows[i].revokedAt.None? :: rows[i].role
  }

  function RoleNames(roles: seq<string>): set<string> {
    set r | r in roles
  }

  const MAX_HIERARCHY: nat := 10

  /** Casbin's `g`: equal names, or a chain of at most `depth` links. */
  predicate Linked(links: set<Link>, a: string, b: string, depth: nat)
    decreases depth
  {
    a == b || (depth > 0 && exists l :: l in links && l.0 == a && Linked(links, l.1, b, depth - 1))
  }

  /** The matcher `g(r.sub, p.sub) && r.obj == p.obj && r.act == p.act` over all policies. */
  predicate Can(s: RoleState, u: UserId, resource: string, action: string) {
    exists p :: p in s.policies && Linked(s.links, u, p.0, MAX_HIERARCHY) && resource == p.1 && action == p.2
  }

  // ---- operations ----

  datatype Op =
    | Assign(target: UserId, role: string, actor: UserId, now: Time)
    | Revoke(target: UserId, role: string, actor: UserId, now: Time)
    | Replace(target: UserId, newRoles: seq<string>, actor: UserId, now: Time, stamps: seq<Time>)

  datatype Outcome = Done | NoChange | Denied | InvalidRole | NotActive | ManyRows | Raised

  /** One clock reading for each new row of a replacement. */
  predicate WellFormed(op: Op) {
    op.Replace? ==> |op.stamps| == |op.newRoles|
  }

  function RevokeAt(rows: seq<RoleRow>, i: nat, now: Time): seq<RoleRow>
    requires i < |rows|
  {
    rows[i := rows[i].(revokedAt := Some(now))]
  }

  /** The first active row of the user and role, in table order. */
  function FirstActive(rows: seq<RoleRow>, u: UserId, role: string): (i: nat)
    requires HasActive(rows, u, role)
    ensures i < |rows| && ActiveRow(rows[i], u, role)
    ensures forall k :: 0 <= k < i ==> !ActiveRow(rows[k], u, role)
  {
    if ActiveRow(rows[0], u, role) then 0
    else
      assert HasActive(rows[1..], u, role) by {
        var k :| 0 <= k < |rows| && ActiveRow(rows[k], u, role);
        assert rows[1..][k - 1] == rows[k];
      }
      FirstActive(rows[1..], u, role) + 1
  }

  function RevokeAll(rows: seq<RoleRow>, u: UserId, now: Time): (r: seq<RoleRow>)
    ensures |r| == |rows|
    ensures forall i :: 0 <= i < |rows| ==>
      r[i] == if rows[i].user == u && rows[i].revokedAt.None? then rows[i].(revokedAt := Some(now)) else rows[i]
  {
    seq(|rows|, i requires 0 <= i < |rows| =>
      if rows[i].user == u && rows[i].revokedAt.None? then rows[i].(revokedAt := Some(now)) else rows[i])
  }

  function NewRows(u: UserId, roles: seq<string>, actor: UserId, stamps: seq<Time>): (r: seq<RoleRow>)
    requires |stamps| == |roles|
    ensures |r| == |roles|
    ensures forall i :: 0 <= i < |roles| ==> r[i] == RoleRow(u, roles[i], actor, stamps[i], None)
  {
    seq(|roles|, i requires 0 <= i < |roles| => RoleRow(u, roles[i], actor, stamps[i], None))
  }

  function NewLinks(u: UserId, roles: seq<string>): set<Link> {
    set i | 0 <= i < |roles| :: LinkOf(u, roles[i])
  }

  function WithoutUser(links: set<Link>, u: UserId): set<Link> {
    set l | l in links && l.0 != u
  }

  function AssignRole(s: RoleState, op: Op): (RoleState, Outcome)
    requires op.Assign?
  {
    if !Can(s, op.actor, "roles", "manage") then (s, Denied)
    else if op.role !in VALID_ROLES then (s, InvalidRole)
    else
      var active := ActivePositions(s.rows, op.target, op.role);
      var linked := s.(links := s.links + {LinkOf(op.target, op.role)});
      if active == {} then
        (linked.(rows := s.rows + [RoleRow(op.target, op.role, op.actor, op.now, None)],
                 log := s.log + [RoleAssigned(op.actor, op.target, op.role)]), Done)
      else if exists i :: i in active && active == {i} then (linked, NoChange)
      else (s, Outcome.ManyRows)
  }

  function RevokeRole(s: RoleState, op: Op): (RoleState, Outcome)
    requires op.Revoke?
  {
    if !Can(s, op.actor, "roles", "manage") then (s, Denied)
    else if op.role !in VALID_ROLES then (s, InvalidRole)
    else if !HasActive(s.rows, op.target, op.role) then (s, NotActive)
    else
      (s.(rows := RevokeAt(s.rows, FirstActive(s.rows, op.target, op.role), op.now),
          links := s.links - {LinkOf(op.target, op.role)},
          log := s.log + [RoleRevoked(op.actor, op.target, op.role)]), Done)
  }

  function ReplaceRoles(s: RoleState, op: Op): (RoleState, Outcome)
    requires op.Replace? && WellFormed(op)
  {
    if !Can(s, op.actor, "roles", "manage") then (s, Denied)
    else if exists i :: 0 <= i < |op.newRoles| && op.newRoles[i] !in VALID_ROLES then (s, InvalidRole)
    else
      (s.(rows := RevokeAll(s.rows, op.target, op.now) + NewRows(op.target, op.newRoles, op.actor, op.stamps),
          links := WithoutUser(s.links, op.target) + NewLinks(op.target, op.newRoles),
          log := s.log + [RoleReplaced(op.actor, op.target, op.newRoles)]), Done)
  }

  function Apply(s: RoleState, op: Op): (RoleState, Outcome)
    requires WellFormed(op)
  {
    match op
    case Assign(_, _, _, _) => AssignRole(s, op)
    case Revoke(_, _, _, _) => RevokeRole(s, op)
    case Replace(_, _, _, _, _) => ReplaceRoles(s, op)
  }

  // ---- operations that fail, and runs ----

  /** An operation commits, or an exception follows so many of its Casbin writes: each of those commits on its own. */
  datatype Ending = Commits | FailsAfter(writes: nat)

  datatype Attempt = Attempt(op: Op, ending: Ending)

  predicate Reaches(s: RoleState, op: Op)
    requires WellFormed(op)
  {
    Apply(s, op).1.Done? || Apply(s, op).1.NoChange?
  }

  /** The links when an operation that gets past its guards has made the first `writes` of its Casbin writes. */
  function LinksAfter(s: RoleState, op: Op, writes: nat): set<Link>
    requires WellFormed(op)
  {
    if writes == 0 || !Reaches(s, op) then s.links
    else match op
      case Assign(target, role, _, _) => s.links + {LinkOf(target, role)}
      case Revoke(target, role, _, _) => s.links - {LinkOf(target, role)}
      case Replace(target, newRoles, _, _, _) =>
        WithoutUser(s.links, target) + NewLinks(target, FirstRoles(newRoles, writes - 1))
  }

  function FirstRoles(roles: seq<string>, n: nat): seq<string> {
    if n < |roles| then roles[..n] else roles
  }

  /** The session is closed without a commit: rows and audit events are rolled back, Casbin's links stay. */
  function Aborted(s: RoleState, op: Op, writes: nat): RoleState
    requires WellFormed(op)
  {
    s.(links := LinksAfter(s, op, writes))
  }

  function Do(s: RoleState, a: Attempt): (RoleState, Outcome)
    requires WellFormed(a.op)
  {
    match a.ending
    case Commits => Apply(s, a.op)
    case FailsAfter(writes) =>
      var outcome := Apply(s, a.op).1;
      (Aborted(s, a.op, writes), if outcome.Done? || (outcome.NoChange? && writes == 0) then Raised else outcome)
  }

  function RunAttempts(s: RoleState, run: seq<Attempt>): RoleState
    requires forall k :: 0 <= k < |run| ==> WellFormed(run[k].op)
  {
    if run == [] then s else Do(RunAttempts(s, run[..|run| - 1]), run[|run| - 1]).0
  }
}

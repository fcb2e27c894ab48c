/** Where every role row and every role event comes from: which attempt wrote it, when, and who acted. */
module RoleSources {
  import opened Common
  import opened Audit
  import opened Roles
  import opened RoleTheorems
  import opened RoleHistory

  /** Attempt `k` got past its guards and committed. */
  predicate Succeeded(s: RoleState, run: seq<Attempt>, k: nat)
    requires forall i :: 0 <= i < |run| ==> WellFormed(run[i].op)
  {
    k < |run| && run[k].ending.Commits? && Apply(RunAttempts(s, run[..k]), run[k].op).1.Done?
  }

  // ---- rows ----

  /** The operation adds this row: the target's, in the actor's name, at the reading of its own clock. */
  predicate Adds(op: Op, row: RoleRow) {
    && row.user == op.target && row.assignedBy == op.actor
    && match op
       case Assign(_, role, _, now) => row.role == role && row.assignedAt == now
       case Revoke(_, _, _, _) => false
       case Replace(_, newRoles, _, _, stamps) =>
         exists i :: 0 <= i < |newRoles| && i < |stamps| && newRoles[i] == row.role && stamps[i] == row.assignedAt
  }

  /** The operation ends this row. */
  predicate Ends(op: Op, row: RoleRow, t: Time) {
    && row.user == op.target && t == op.now
    && match op
       case Assign(_, _, _, _) => false
       case Revoke(_, role, _, _) => row.role == role
       case Replace(_, _, _, _, _) => true
  }

  predicate SameRow(a: RoleRow, b: RoleRow) {
    a.user == b.user && a.role == b.role && a.assignedBy == b.assignedBy && a.assignedAt == b.assignedAt
  }

  lemma RowStep(s: RoleState, op: Op, i: nat)
    requires WellFormed(op) && i < |Apply(s, op).0.rows|
    ensures var row := Apply(s, op).0.rows[i];
            if i < |s.rows| then
              SameRow(row, s.rows[i])
              && (row.revokedAt == s.rows[i].revokedAt
                  || (Apply(s, op).1.Done? && row.revokedAt.Some? && Ends(op, row, row.revokedAt.value)))
            else Apply(s, op).1.Done? && Adds(op, row) && row.revokedAt.None?
    ensures |s.rows| <= |Apply(s, op).0.rows|
  {
    hide Can;
    if op.Replace? && i >= |s.rows| && Apply(s, op).1.Done? {
      assert op.newRoles[i - |s.rows|] == Apply(s, op).0.rows[i].role;
    }
  }

  ghost predicate RowFrom(s: RoleState, run: seq<Attempt>, row: RoleRow)
    requires AllWellFormed(run)
  {
    exists k :: 0 <= k < |run| && Succeeded(s, run, k) && Adds(run[k].op, row)
                && LinkOf(run[k].op.actor, "admin") in RunAttempts(s, run[..k]).links
  }

  ghost predicate EndFrom(s: RoleState, run: seq<Attempt>, row: RoleRow, t: Time)
    requires AllWellFormed(run)
  {
    exists k :: 0 <= k < |run| && Succeeded(s, run, k) && Ends(run[k].op, row, t)
                && LinkOf(run[k].op.actor, "admin") in RunAttempts(s, run[..k]).links
  }

  lemma EarlierStays(s: RoleState, run: seq<Attempt>, row: RoleRow, t: Time)
    requires AllWellFormed(run) && run != []
    ensures RowFrom(s, run[..|run| - 1], row) ==> RowFrom(s, run, row)
    ensures EndFrom(s, run[..|run| - 1], row, t) ==> EndFrom(s, run, row, t)
  {
    hide Adds, Ends, Apply, RunAttempts;
    var front := run[..|run| - 1];
    assert forall k :: 0 <= k < |front| ==> front[..k] == run[..k] && front[k] == run[k];
    if RowFrom(s, front, row) {
      var k :| 0 <= k < |front| && Succeeded(s, front, k) && Adds(front[k].op, row)
               && LinkOf(front[k].op.actor, "admin") in RunAttempts(s, front[..k]).links;
      assert Succeeded(s, run, k) && run[..k] == front[..k];
    }
    if EndFrom(s, front, row, t) {
      var k :| 0 <= k < |front| && Succeeded(s, front, k) && Ends(front[k].op, row, t)
               && LinkOf(front[k].op.actor, "admin") in RunAttempts(s, front[..k]).links;
      assert Succeeded(s, run, k) && run[..k] == front[..k];
    }
  }

  lemma LastSucceeds(s: RoleState, run: seq<Attempt>)
    requires AllWellFormed(run) && run != [] && Seeded(s)
    requires run[|run| - 1].ending.Commits? && Apply(RunAttempts(s, run[..|run| - 1]), run[|run| - 1].op).1.Done?
    ensures Succeeded(s, run, |run| - 1)
    ensures LinkOf(run[|run| - 1].op.actor, "admin") in RunAttempts(s, run[..|run| - 1]).links
  {
    var front, a := run[..|run| - 1], run[|run| - 1];
    LinksRun(s, front);
    EventStep(RunAttempts(s, front), a.op);
    hide Apply, RunAttempts, LinksOk;
    OnlyLinkedAdminsAct(RunAttempts(s, front), a);
  }

  /**
   Every row of a run names who made it so: a row added since the start was added by a successful assignment or
   replacement of its user, in the name and at the clock reading of that operation, whose actor Casbin had as admin
   at that moment; and the end of a row is the clock reading of the operation that ended it.
   */
  lemma {:induction false} RowsHaveSources(s: RoleState, run: seq<Attempt>, i: nat)
    requires AllWellFormed(run) && Seeded(s) && i < |RunAttempts(s, run).rows|
    ensures var row := RunAttempts(s, run).rows[i];
            && |s.rows| <= |RunAttempts(s, run).rows|
            && (if i < |s.rows| then SameRow(row, s.rows[i]) else RowFrom(s, run, row))
            && (row.revokedAt.Some? ==>
                  (i < |s.rows| && s.rows[i].revokedAt == row.revokedAt) || EndFrom(s, run, row, row.revokedAt.value))
    decreases |run|
  {
    hide Adds, Ends, RowFrom, EndFrom, Apply, Seeded;
    if run != [] {
      var front, a := run[..|run| - 1], run[|run| - 1];
      var m, n := RunAttempts(s, front), RunAttempts(s, run);
      var row := n.rows[i];
      if i < |m.rows| { RowsHaveSources(s, front, i); } else if |m.rows| > 0 { RowsHaveSources(s, front, 0); }
      FrontRows(s, front);
      EarlierStays(s, run, row, if row.revokedAt.Some? then row.revokedAt.value else 0);
      if i < |m.rows| && row.revokedAt.Some? {
        SameSource(s, front, m.rows[i], row, row.revokedAt.value);
      } else if i < |m.rows| {
        SameSource(s, front, m.rows[i], row, 0);
      }
      if a.ending.Commits? {
        RowStep(m, a.op, i);
        if Apply(m, a.op).1.Done? {
          LastSucceeds(s, run);
          FromLast(s, run, row);
        }
      }
    }
  }

  lemma SameSource(s: RoleState, run: seq<Attempt>, a: RoleRow, b: RoleRow, t: Time)
    requires AllWellFormed(run)
    ensures SameRow(a, b) ==> (RowFrom(s, run, a) <==> RowFrom(s, run, b))
    ensures SameRow(a, b) ==> (EndFrom(s, run, a, t) <==> EndFrom(s, run, b, t))
  {
    hide Succeeded, RunAttempts;
    assert SameRow(a, b) ==> forall op :: Adds(op, a) <==> Adds(op, b);
    assert SameRow(a, b) ==> forall op :: Ends(op, a, t) <==> Ends(op, b, t);
    hide Adds, Ends;
  }

  lemma FromLast(s: RoleState, run: seq<Attempt>, row: RoleRow)
    requires AllWellFormed(run) && run != [] && Succeeded(s, run, |run| - 1)
    requires LinkOf(run[|run| - 1].op.actor, "admin") in RunAttempts(s, run[..|run| - 1]).links
    ensures Adds(run[|run| - 1].op, row) ==> RowFrom(s, run, row)
    ensures row.revokedAt.Some? && Ends(run[|run| - 1].op, row, row.revokedAt.value) ==>
      EndFrom(s, run, row, row.revokedAt.value)
  {
    hide Adds, Ends, Succeeded, RunAttempts;
  }

  lemma {:induction false} FrontRows(s: RoleState, run: seq<Attempt>)
    requires AllWellFormed(run)
    ensures |s.rows| <= |RunAttempts(s, run).rows|
  {
    hide Can;
    if run != [] { FrontRows(s, run[..|run| - 1]); }
  }

  // ---- events ----

  /** What the audit log says about a successful operation. */
  function EventOf(op: Op): Event {
    match op
    case Assign(target, role, actor, _) => RoleAssigned(actor, target, role)
    case Revoke(target, role, actor, _) => RoleRevoked(actor, target, role)
    case Replace(target, newRoles, actor, _, _) => RoleReplaced(actor, target, newRoles)
  }

  lemma EventStep(s: RoleState, op: Op)
    requires WellFormed(op)
    ensures Apply(s, op).0.log == if Apply(s, op).1.Done? then s.log + [EventOf(op)] else s.log
  {
    hide Can;
  }

  /** One event for each attempt that succeeded, in order. */
  function EventsOf(s: RoleState, run: seq<Attempt>): seq<Event>
    requires forall k :: 0 <= k < |run| ==> WellFormed(run[k].op)
  {
    if run == [] then []
    else
      EventsOf(s, run[..|run| - 1])
      + (if Succeeded(s, run, |run| - 1) then [EventOf(run[|run| - 1].op)] else [])
  }

  /** The audit log has these and no other events, each with the actor, the target and the roles of its operation. */
  lemma {:induction false} EventsHaveSources(s: RoleState, run: seq<Attempt>)
    requires AllWellFormed(run)
    ensures RunAttempts(s, run).log == s.log + EventsOf(s, run)
  {
    hide Apply, EventOf;
    if run == [] {
      assert s.log + [] == s.log;
    } else {
      var front, a := run[..|run| - 1], run[|run| - 1];
      EventsHaveSources(s, front);
      EventStep(RunAttempts(s, front), a.op);
    }
  }

  // ---- which outcome is reported ----

  /** How an operation ends is decided by its actor, its role names and the rows of its target. */
  lemma OutcomeIff(s: RoleState, op: Op)
    requires WellFormed(op) && Seeded(s)
    ensures var admin := LinkOf(op.actor, "admin") in s.links;
            var known := forall r :: r in Named(op) ==> r == "admin" || r == "reviewer" || r == "auditor";
            var outcome := Apply(s, op).1;
            && (outcome.Denied? <==> !admin)
            && (outcome.InvalidRole? <==> admin && !known)
            && (outcome.NotActive? <==> admin && known && op.Revoke? && !HasActive(s.rows, op.target, op.role))
            && (outcome.ManyRows? <==> admin && known && op.Assign? && SeveralActive(s.rows, op.target, op.role))
            && (outcome.NoChange? <==> admin && known && op.Assign? && HasActive(s.rows, op.target, op.role)
                                       && !SeveralActive(s.rows, op.target, op.role))
            && !outcome.Raised?
  {
    hide Can, LinksOk, HasActive, SeveralActive, ActivePositions;
    MayManage(s, op.actor);
    KnownRoles(op);
    match op {
      case Assign(target, role, _, _) => AssignOutcome(s.rows, target, role);
      case Revoke(_, _, _, _) =>
      case Replace(_, _, _, _, _) =>
    }
  }

  lemma KnownRoles(op: Op)
    ensures (forall r :: r in Named(op) ==> r == "admin" || r == "reviewer" || r == "auditor")
      <==> match op
           case Assign(_, role, _, _) => role in VALID_ROLES
           case Revoke(_, role, _, _) => role in VALID_ROLES
           case Replace(_, newRoles, _, _, _) => !exists i :: 0 <= i < |newRoles| && newRoles[i] !in VALID_ROLES
  {
    match op
    case Assign(_, role, _, _) => assert role in Named(op);
    case Revoke(_, role, _, _) => assert role in Named(op);
    case Replace(_, newRoles, _, _, _) =>
      assert forall i :: 0 <= i < |newRoles| ==> newRoles[i] in Named(op);
  }

  /** The role names an operation is called with. */
  function Named(op: Op): seq<string> {
    match op
    case Assign(_, role, _, _) => [role]
    case Revoke(_, role, _, _) => [role]
    case Replace(_, newRoles, _, _, _) => newRoles
  }

  lemma AssignOutcome(rows: seq<RoleRow>, u: UserId, role: string)
    ensures var found := ActivePositions(rows, u, role);
            && (found == {} <==> !HasActive(rows, u, role))
            && ((exists i :: i in found && found == {i}) <==> HasActive(rows, u, role) && !SeveralActive(rows, u, role))
            && (SeveralActive(rows, u, role) ==> HasActive(rows, u, role))
  {
    PositionsOf(rows, u, role);
    var found := ActivePositions(rows, u, role);
    if HasActive(rows, u, role) && !SeveralActive(rows, u, role) {
      var i :| i in found;
      assert forall k :: k in found ==> ActiveRow(rows[k], u, role);
      assert found == {i};
    }
    if SeveralActive(rows, u, role) {
      var i, k :| 0 <= i < k < |rows| && ActiveRow(rows[i], u, role) && ActiveRow(rows[k], u, role);
      assert i in found && k in found;
    }
  }

  // ---- the permission table ----

  /** Over whole runs: what each active role lets a user do, permission by permission, and nothing else. */
  lemma PermissionTable(s: RoleState, run: seq<Attempt>, u: UserId, resource: string, action: string)
    requires AllWellFormed(run) && NeverBreaks(s, run) && Seeded(s) && Agree(s)
    ensures var n := RunAttempts(s, run);
            var admin, reviewer, auditor :=
              HasActive(n.rows, u, "admin"), HasActive(n.rows, u, "reviewer"), HasActive(n.rows, u, "auditor");
            Can(n, u, resource, action) <==>
              match (resource, action)
              case ("users", "manage") => admin
              case ("roles", "manage") => admin
              case ("audit_logs", "read") => admin || auditor
              case ("batches", "read") => admin || reviewer || auditor
              case ("predictions", "read") => admin || reviewer || auditor
              case ("predictions", "relabel") => admin || reviewer
              case _ => false
  {
    hide Can, HasActive, RunAttempts, NeverBreaks;
    PermissionsFollowRows(s, run, u, resource, action);
  }
}

/** Agreement, replay and history of role assignments, over all runs. */
module RoleTheorems {
  import opened Common
  import opened Audit
  import opened Roles

  ghost predicate AllWellFormed(run: seq<Attempt>) {
    forall k :: 0 <= k < |run| ==> WellFormed(run[k].op)
  }

  /** What the admin page sends: no role twice. */
  predicate DuplicateFree(op: Op) {
    op.Replace? ==> Distinct(op.newRoles)
  }

  ghost predicate Legal(run: seq<Attempt>) {
    forall k :: 0 <= k < |run| ==> WellFormed(run[k].op) && DuplicateFree(run[k].op)
  }

  /** At most one active row for each user and role. */
  ghost predicate NoDuplicates(rows: seq<RoleRow>) {
    forall i, k | 0 <= i < k < |rows| && rows[i].revokedAt.None? && rows[k].revokedAt.None? ::
      rows[i].user == rows[k].user ==> rows[i].role != rows[k].role
  }

  /** Links lead from users to roles, and are the active rows. */
  ghost predicate LinksOk(links: set<Link>) {
    forall l :: l in links ==> |l.0| == 36 && l.1 in VALID_ROLES
  }

  ghost predicate Agree(s: RoleState) {
    forall u: UserId, r: string :: LinkOf(u, r) in s.links <==> HasActive(s.rows, u, r)
  }

  /** Casbin's policies are the seeded ones, and its links lead from users to roles. */
  ghost predicate Seeded(s: RoleState) {
    s.policies == BASELINE_POLICIES && LinksOk(s.links)
  }

  ghost predicate Good(s: RoleState) {
    Seeded(s) && NoDuplicates(s.rows) && Agree(s)
  }

  // ---- the transitive role relation collapses ----

  lemma RolesHaveNoLinks(links: set<Link>, a: string, b: string, depth: nat)
    requires LinksOk(links) && a in VALID_ROLES
    ensures Linked(links, a, b, depth) <==> a == b
  {}

  lemma {:induction false} LinkIsDirect(links: set<Link>, u: UserId, role: string, depth: nat)
    requires LinksOk(links) && depth > 0 && role in VALID_ROLES
    ensures Linked(links, u, role, depth) <==> LinkOf(u, role) in links
  {
    forall l | l in links && l.0 == u ensures Linked(links, l.1, role, depth - 1) <==> l.1 == role {
      RolesHaveNoLinks(links, l.1, role, depth - 1);
    }
    if LinkOf(u, role) in links {
      var l := LinkOf(u, role);
      assert l in links && l.0 == u && Linked(links, l.1, role, depth - 1);
    }
  }

  lemma CanIsDirect(s: RoleState, u: UserId, resource: string, action: string)
    requires Seeded(s)
    ensures Can(s, u, resource, action)
      <==> exists r :: LinkOf(u, r) in s.links && (r, resource, action) in BASELINE_POLICIES
  {
    forall p | p in s.policies ensures Linked(s.links, u, p.0, MAX_HIERARCHY) <==> LinkOf(u, p.0) in s.links {
      LinkIsDirect(s.links, u, p.0, MAX_HIERARCHY);
    }
    if r :| LinkOf(u, r) in s.links && (r, resource, action) in BASELINE_POLICIES {
      assert (r, resource, action) in s.policies;
    }
  }

  lemma MayManage(s: RoleState, u: UserId)
    requires Seeded(s)
    ensures Can(s, u, "roles", "manage") <==> LinkOf(u, "admin") in s.links
  {
    CanIsDirect(s, u, "roles", "manage");
    assert ("admin", "roles", "manage") in BASELINE_POLICIES;
  }

  // ---- which roles are active after one operation ----

  lemma ActiveRolesAre(rows: seq<RoleRow>, u: UserId, r: string)
    ensures r in ActiveRoles(rows, u) <==> HasActive(rows, u, r)
  {}

  lemma ActiveAfterAppend(rows: seq<RoleRow>, more: seq<RoleRow>, u: UserId, r: string)
    ensures HasActive(rows + more, u, r) <==> HasActive(rows, u, r) || HasActive(more, u, r)
  {
    if HasActive(rows, u, r) {
      var i :| 0 <= i < |rows| && ActiveRow(rows[i], u, r);
      assert (rows + more)[i] == rows[i];
    }
    if HasActive(more, u, r) {
      var i :| 0 <= i < |more| && ActiveRow(more[i], u, r);
      assert (rows + more)[|rows| + i] == more[i];
    }
  }

  lemma ActiveAfterRevoke(rows: seq<RoleRow>, i: nat, now: Time, u: UserId, r: string)
    requires i < |rows| && rows[i].revokedAt.None?
    requires forall k :: 0 <= k < |rows| && k != i ==> !ActiveRow(rows[k], rows[i].user, rows[i].role)
    ensures HasActive(RevokeAt(rows, i, now), u, r)
      <==> HasActive(rows, u, r) && !(rows[i].user == u && rows[i].role == r)
  {
    if HasActive(rows, u, r) && !(rows[i].user == u && rows[i].role == r) {
      var k :| 0 <= k < |rows| && ActiveRow(rows[k], u, r);
      assert RevokeAt(rows, i, now)[k] == rows[k];
    }
  }

  lemma ActiveAfterRevokeAll(rows: seq<RoleRow>, v: UserId, now: Time, u: UserId, r: string)
    ensures HasActive(RevokeAll(rows, v, now), u, r) <==> HasActive(rows, u, r) && u != v
  {
    if HasActive(rows, u, r) && u != v {
      var k :| 0 <= k < |rows| && ActiveRow(rows[k], u, r);
      assert RevokeAll(rows, v, now)[k] == rows[k];
    }
  }

  lemma ActiveOfNew(v: UserId, roles: seq<string>, actor: UserId, stamps: seq<Time>, u: UserId, r: string)
    requires |stamps| == |roles|
    ensures HasActive(NewRows(v, roles, actor, stamps), u, r) <==> u == v && r in roles
  {
    if u == v && r in roles {
      var k :| 0 <= k < |roles| && roles[k] == r;
      assert ActiveRow(NewRows(v, roles, actor, stamps)[k], u, r);
    }
  }

  /** The whole effect of one operation on who has which role. */
  function ActiveNext(s: RoleState, op: Op, u: UserId, r: string): bool
    requires WellFormed(op)
  {
    if !Apply(s, op).1.Done? || u != op.target then HasActive(s.rows, u, r)
    else match op
      case Assign(_, role, _, _) => HasActive(s.rows, u, r) || r == role
      case Revoke(_, role, _, _) => HasActive(s.rows, u, r) && r != role
      case Replace(_, newRoles, _, _, _) => r in newRoles
  }

  /** A permitted revocation that finds several active rows: it ends the first and removes the only link. */
  predicate RevokesOneOfSeveral(s: RoleState, op: Op) {
    && op.Revoke? && Can(s, op.actor, "roles", "manage") && op.role in VALID_ROLES
    && SeveralActive(s.rows, op.target, op.role)
  }

  predicate SeveralActive(rows: seq<RoleRow>, u: UserId, role: string) {
    exists i, k :: 0 <= i < k < |rows| && ActiveRow(rows[i], u, role) && ActiveRow(rows[k], u, role)
  }

  lemma ActiveStep(s: RoleState, op: Op, u: UserId, r: string)
    requires WellFormed(op) && !RevokesOneOfSeveral(s, op)
    ensures HasActive(Apply(s, op).0.rows, u, r) <==> ActiveNext(s, op, u, r)
  {
    if Apply(s, op).1.Done? {
      match op
      case Assign(target, role, actor, now) =>
        var row := RoleRow(target, role, actor, now, None);
        ActiveAfterAppend(s.rows, [row], u, r);
        assert HasActive([row], u, r) <==> ActiveRow([row][0], u, r);
      case Revoke(target, role, actor, now) =>
        var first := FirstActive(s.rows, target, role);
        forall k | 0 <= k < |s.rows| && k != first ensures !ActiveRow(s.rows[k], target, role) {
          assert ActiveRow(s.rows[first], target, role);
        }
        hide Can;
        ActiveAfterRevoke(s.rows, first, now, u, r);
      case Replace(target, newRoles, actor, now, stamps) =>
        ActiveAfterAppend(RevokeAll(s.rows, target, now), NewRows(target, newRoles, actor, stamps), u, r);
        ActiveAfterRevokeAll(s.rows, target, now, u, r);
        ActiveOfNew(target, newRoles, actor, stamps, u, r);
    }
  }

  // ---- single active rows ----

  /** A successful replacement by a list that repeats a name. */
  predicate Doubles(s: RoleState, a: Attempt) {
    && a.ending.Commits? && a.op.Replace? && Can(s, a.op.actor, "roles", "manage")
    && (forall i :: 0 <= i < |a.op.newRoles| ==> a.op.newRoles[i] in VALID_ROLES) && !Distinct(a.op.newRoles)
  }

  lemma NoDuplicatesStep(s: RoleState, op: Op)
    requires WellFormed(op) && DuplicateFree(op) && NoDuplicates(s.rows)
    ensures NoDuplicates(Apply(s, op).0.rows)
  {
    if op.Assign? && Apply(s, op).1.Done? {
      PositionsOf(s.rows, op.target, op.role);
    }
  }

  lemma PositionsOf(rows: seq<RoleRow>, u: UserId, role: string)
    ensures HasActive(rows, u, role) <==> ActivePositions(rows, u, role) != {}
    ensures forall i :: 0 <= i < |rows| && ActiveRow(rows[i], u, role) ==> i in ActivePositions(rows, u, role)
  {
    if HasActive(rows, u, role) {
      var i :| 0 <= i < |rows| && ActiveRow(rows[i], u, role);
      assert i in ActivePositions(rows, u, role);
    }
    if ActivePositions(rows, u, role) != {} {
      var i :| i in ActivePositions(rows, u, role);
    }
  }

  /** A replacement leaves one active row per role exactly when its list has no repetition. */
  lemma RepeatedNamesDuplicateRows(s: RoleState, op: Op)
    requires op.Replace? && WellFormed(op) && Apply(s, op).1.Done? && NoDuplicates(s.rows)
    ensures NoDuplicates(Apply(s, op).0.rows) <==> Distinct(op.newRoles)
  {
    hide Can;
    var n := Apply(s, op).0;
    if Distinct(op.newRoles) {
      NoDuplicatesStep(s, op);
    } else {
      var i, k :| 0 <= i < k < |op.newRoles| && op.newRoles[i] == op.newRoles[k];
      assert n.rows[|s.rows| + i].role == n.rows[|s.rows| + k].role;
    }
  }

  lemma NoDuplicatesStepIff(s: RoleState, a: Attempt)
    requires WellFormed(a.op) && NoDuplicates(s.rows)
    ensures NoDuplicates(Do(s, a).0.rows) <==> !Doubles(s, a)
  {
    hide Can, NoDuplicates, Distinct;
    if a.ending.Commits? {
      if a.op.Replace? && Apply(s, a.op).1.Done? {
        RepeatedNamesDuplicateRows(s, a.op);
      } else if !a.op.Replace? {
        NoDuplicatesStep(s, a.op);
      }
    }
  }

  /** Each single-row lookup of roles finds at most one row. */
  ghost predicate LookupsSafe(rows: seq<RoleRow>) {
    forall u: UserId, r: string :: !ScalarOneOrNone(ActivePositions(rows, u, r)).ManyRows?
  }

  lemma LookupsSafeIff(rows: seq<RoleRow>)
    ensures LookupsSafe(rows) <==> NoDuplicates(rows)
  {
    if NoDuplicates(rows) {
      forall u: UserId, r: string ensures !ScalarOneOrNone(ActivePositions(rows, u, r)).ManyRows? {
        var found := ActivePositions(rows, u, r);
        if found != {} {
          var i :| i in found;
          assert found == {i};
        }
      }
    }
    if LookupsSafe(rows) {
      forall i, k | 0 <= i < k < |rows| && rows[i].revokedAt.None? && rows[k].revokedAt.None?
          && rows[i].user == rows[k].user
        ensures rows[i].role != rows[k].role
      {
        var found := ActivePositions(rows, rows[i].user, rows[i].role);
        assert !ScalarOneOrNone(found).ManyRows? && i in found;
        var x :| found == {x};
        assert rows[i].role == rows[k].role ==> k in found;
      }
    }
  }

  ghost predicate NeverDoubles(s: RoleState, run: seq<Attempt>)
    requires AllWellFormed(run)
  {
    forall k :: 0 <= k < |run| ==> !Doubles(RunAttempts(s, run[..k]), run[k])
  }

  ghost predicate SingleThroughout(s: RoleState, run: seq<Attempt>)
    requires AllWellFormed(run)
  {
    forall k :: 0 <= k <= |run| ==> NoDuplicates(RunAttempts(s, run[..k]).rows)
  }

  lemma {:induction false} SingleIff(s: RoleState, run: seq<Attempt>)
    requires AllWellFormed(run) && NoDuplicates(s.rows)
    ensures SingleThroughout(s, run) <==> NeverDoubles(s, run)
  {
    hide NoDuplicates, Doubles, Do;
    Prefixes(s, run);
    if run != [] {
      var front := run[..|run| - 1];
      SingleIff(s, front);
      if SingleThroughout(s, front) {
        assert NoDuplicates(RunAttempts(s, front[..|front|]).rows);
        NoDuplicatesStepIff(RunAttempts(s, front), run[|run| - 1]);
      }
    }
  }

  /** The prefixes of a run are those of the run without its last attempt, and the run itself. */
  lemma Prefixes(s: RoleState, run: seq<Attempt>)
    requires AllWellFormed(run)
    ensures run[..|run|] == run && run[..0] == [] && RunAttempts(s, run[..0]) == s
    ensures run != [] ==>
      var front := run[..|run| - 1];
      front[..|front|] == front && forall k :: 0 <= k <= |front| ==> front[..k] == run[..k]
  {}

  /**
   `has_active_role` never raises MultipleResultsFound, at any point of any run, if and only if no list with a
   repeated name got through.
   */
  lemma RoleLookupIsSafeIff(s: RoleState, run: seq<Attempt>)
    requires AllWellFormed(run) && NoDuplicates(s.rows)
    ensures (forall k :: 0 <= k <= |run| ==> LookupsSafe(RunAttempts(s, run[..k]).rows)) <==> NeverDoubles(s, run)
  {
    hide LookupsSafe, NoDuplicates, RunAttempts, NeverDoubles;
    SingleIff(s, run);
    forall k | 0 <= k <= |run|
      ensures LookupsSafe(RunAttempts(s, run[..k]).rows) <==> NoDuplicates(RunAttempts(s, run[..k]).rows)
    {
      LookupsSafeIff(RunAttempts(s, run[..k]).rows);
    }
  }

  lemma LegalNeverDoubles(s: RoleState, run: seq<Attempt>)
    requires Legal(run)
    ensures NeverDoubles(s, run)
  {
    hide RunAttempts, Can;
  }

  // ---- SQL and Casbin agree ----

  lemma LinkStep(s: RoleState, op: Op, u: UserId, r: string)
    requires WellFormed(op) && Agree(s)
    ensures LinkOf(u, r) in Apply(s, op).0.links <==> ActiveNext(s, op, u, r)
  {
    assert LinkOf(u, r) in s.links <==> HasActive(s.rows, u, r);
    if op.Replace? && Apply(s, op).1.Done? {
      assert LinkOf(u, r) in NewLinks(op.target, op.newRoles) <==> u == op.target && r in op.newRoles;
    }
    if op.Assign? && Apply(s, op).1.NoChange? {
      var i :| i in ActivePositions(s.rows, op.target, op.role);
      assert HasActive(s.rows, op.target, op.role);
    }
  }

  lemma LinksStep(s: RoleState, a: Attempt)
    requires WellFormed(a.op) && LinksOk(s.links)
    ensures LinksOk(Do(s, a).0.links) && Do(s, a).0.policies == s.policies
  {
    hide Can;
  }

  lemma NoDuplicatesNoSplit(s: RoleState, op: Op)
    requires NoDuplicates(s.rows)
    ensures !RevokesOneOfSeveral(s, op)
  {}

  /**
   Exactly when one committed operation breaks the agreement of SQL and Casbin, whatever lists were sent before:
   when it revokes a role of which the user has several active rows.
   */
  lemma AgreementStepIff(s: RoleState, op: Op)
    requires WellFormed(op) && Agree(s)
    ensures Agree(Apply(s, op).0) <==> !RevokesOneOfSeveral(s, op)
  {
    hide Can;
    var n := Apply(s, op).0;
    if RevokesOneOfSeveral(s, op) {
      LinkStep(s, op, op.target, op.role);
      var i, k :| 0 <= i < k < |s.rows| && ActiveRow(s.rows[i], op.target, op.role)
                  && ActiveRow(s.rows[k], op.target, op.role);
      assert FirstActive(s.rows, op.target, op.role) <= i && n.rows[k] == s.rows[k];
      assert HasActive(n.rows, op.target, op.role) && LinkOf(op.target, op.role) !in n.links;
    } else {
      forall u: UserId, r: string ensures LinkOf(u, r) in n.links <==> HasActive(n.rows, u, r) {
        ActiveStep(s, op, u, r);
        LinkStep(s, op, u, r);
      }
    }
  }

  /**
   What a caller can see before the call: the first `writes` Casbin writes leave the target's links as the rows have
   them.
   */
  predicate LinksSettled(s: RoleState, op: Op, writes: nat) {
    writes == 0 || !Can(s, op.actor, "roles", "manage")
    || match op
       case Assign(target, role, _, _) => role !in VALID_ROLES || HasActive(s.rows, target, role)
       case Revoke(target, role, _, _) => role !in VALID_ROLES || !HasActive(s.rows, target, role)
       case Replace(target, newRoles, _, _, _) =>
         || (exists i :: 0 <= i < |newRoles| && newRoles[i] !in VALID_ROLES)
         || ActiveRoles(s.rows, target) == RoleNames(FirstRoles(newRoles, writes - 1))
  }

  /**
   The Casbin adapter commits on its own: an operation that fails keeps agreement exactly when it has changed no
   link.
   */
  lemma AbortKeepsAgreementIff(s: RoleState, op: Op, writes: nat)
    requires WellFormed(op) && Agree(s)
    ensures Agree(Aborted(s, op, writes)) <==> LinksSettled(s, op, writes)
  {
    hide Can, Agree;
    match op
    case Assign(target, role, _, _) => AbortedAssign(s, op, writes);
    case Revoke(target, role, _, _) => AbortedRevoke(s, op, writes);
    case Replace(target, newRoles, _, _, _) => AbortedReplace(s, op, writes);
  }

  lemma AbortedAssign(s: RoleState, op: Op, writes: nat)
    requires op.Assign? && Agree(s)
    ensures Agree(Aborted(s, op, writes)) <==> LinksSettled(s, op, writes)
  {
    hide Can;
    PositionsOf(s.rows, op.target, op.role);
    var link := LinkOf(op.target, op.role);
    assert link in s.links <==> HasActive(s.rows, op.target, op.role);
    var n := Aborted(s, op, writes);
    assert link in s.links ==> s.links + {link} == s.links;
    if n.links == s.links {
      assert n == s;
    } else {
      assert link in n.links && !HasActive(n.rows, op.target, op.role);
    }
  }

  lemma AbortedRevoke(s: RoleState, op: Op, writes: nat)
    requires op.Revoke? && Agree(s)
    ensures Agree(Aborted(s, op, writes)) <==> LinksSettled(s, op, writes)
  {
    hide Can;
    var link := LinkOf(op.target, op.role);
    assert link in s.links <==> HasActive(s.rows, op.target, op.role);
    var n := Aborted(s, op, writes);
    if n.links == s.links {
      assert n == s;
    } else {
      assert link !in n.links && HasActive(n.rows, op.target, op.role);
    }
  }

  lemma AbortedReplace(s: RoleState, op: Op, writes: nat)
    requires op.Replace? && WellFormed(op) && Agree(s)
    ensures Agree(Aborted(s, op, writes)) <==> LinksSettled(s, op, writes)
  {
    hide Can;
    var n := Aborted(s, op, writes);
    if writes == 0 || !Reaches(s, op) {
      assert n == s;
    } else {
      var made := FirstRoles(op.newRoles, writes - 1);
      forall u: UserId, r: string
        ensures LinkOf(u, r) in n.links <==> if u == op.target then r in made else HasActive(s.rows, u, r)
      {
        assert LinkOf(u, r) in s.links <==> HasActive(s.rows, u, r);
        assert LinkOf(u, r) in NewLinks(op.target, made) <==> u == op.target && r in made;
      }
      forall r ensures r in ActiveRoles(s.rows, op.target) <==> HasActive(s.rows, op.target, r) {
        ActiveRolesAre(s.rows, op.target, r);
      }
      if !LinksSettled(s, op, writes) {
        var r :| (r in made) != (r in ActiveRoles(s.rows, op.target));
        assert LinkOf(op.target, r) in n.links <==> r in made;
      }
    }
  }

  /** The two ways in which an attempt parts SQL and Casbin. */
  predicate Breaks(s: RoleState, a: Attempt) {
    match a.ending
    case Commits => RevokesOneOfSeveral(s, a.op)
    case FailsAfter(writes) => !LinksSettled(s, a.op, writes)
  }

  lemma AttemptBreaksIff(s: RoleState, a: Attempt)
    requires WellFormed(a.op) && Agree(s)
    ensures Agree(Do(s, a).0) <==> !Breaks(s, a)
  {
    hide Agree, RevokesOneOfSeveral, LinksSettled, Aborted, Apply;
    match a.ending
    case Commits => AgreementStepIff(s, a.op);
    case FailsAfter(writes) => AbortKeepsAgreementIff(s, a.op, writes);
  }

  ghost predicate NeverBreaks(s: RoleState, run: seq<Attempt>)
    requires AllWellFormed(run)
  {
    forall k :: 0 <= k < |run| ==> !Breaks(RunAttempts(s, run[..k]), run[k])
  }

  ghost predicate AgreesThroughout(s: RoleState, run: seq<Attempt>)
    requires AllWellFormed(run)
  {
    forall k :: 0 <= k <= |run| ==> Agree(RunAttempts(s, run[..k]))
  }

  /**
   Over whole runs of any well-formed attempts: SQL and Casbin agree at every point if and only if no attempt breaks.
   */
  lemma {:induction false} AgreementIff(s: RoleState, run: seq<Attempt>)
    requires AllWellFormed(run) && Agree(s)
    ensures AgreesThroughout(s, run) <==> NeverBreaks(s, run)
  {
    hide Agree, Breaks, Do;
    Prefixes(s, run);
    if run != [] {
      var front := run[..|run| - 1];
      AgreementIff(s, front);
      if AgreesThroughout(s, front) {
        assert Agree(RunAttempts(s, front[..|front|]));
        AttemptBreaksIff(RunAttempts(s, front), run[|run| - 1]);
      }
    }
  }

  lemma {:induction false} LinksRun(s: RoleState, run: seq<Attempt>)
    requires AllWellFormed(run) && LinksOk(s.links)
    ensures LinksOk(RunAttempts(s, run).links) && RunAttempts(s, run).policies == s.policies
  {
    hide LinksOk, Do;
    if run != [] {
      LinksRun(s, run[..|run| - 1]);
      LinksStep(RunAttempts(s, run[..|run| - 1]), run[|run| - 1]);
    }
  }

  /**
   Everything at once, for lists without repetition: it holds at every point exactly when no failing attempt has
   changed a link.
   */
  lemma GoodRun(s: RoleState, run: seq<Attempt>)
    requires Legal(run) && Good(s)
    ensures (forall k :: 0 <= k <= |run| ==> Good(RunAttempts(s, run[..k])))
      <==> (forall k :: 0 <= k < |run| && run[k].ending.FailsAfter? ==>
              LinksSettled(RunAttempts(s, run[..k]), run[k].op, run[k].ending.writes))
  {
    hide RunAttempts, LinksOk, Agree, LinksSettled, RevokesOneOfSeveral, Do;
    forall k | 0 <= k <= |run|
      ensures Good(RunAttempts(s, run[..k])) <==> Agree(RunAttempts(s, run[..k]))
      ensures NoDuplicates(RunAttempts(s, run[..k]).rows)
    {
      LinksRun(s, run[..k]);
      LegalNeverDoubles(s, run);
      SingleIff(s, run);
      hide NoDuplicates, NeverDoubles;
    }
    hide Good, NoDuplicates;
    AgreementIff(s, run);
    forall k | 0 <= k < |run| ensures !RevokesOneOfSeveral(RunAttempts(s, run[..k]), run[k].op) {
      NoDuplicatesNoSplit(RunAttempts(s, run[..k]), run[k].op);
    }
  }

  /**
   After every run that never broke the agreement, a permission check answers from the SQL rows: it never sees a
   stale or a missing link.
   */
  lemma PermissionsFollowRows(s: RoleState, run: seq<Attempt>, u: UserId, resource: string, action: string)
    requires AllWellFormed(run) && NeverBreaks(s, run)
    requires Seeded(s) && Agree(s)
    ensures var n := RunAttempts(s, run);
            Can(n, u, resource, action)
            <==> exists r :: HasActive(n.rows, u, r) && (r, resource, action) in BASELINE_POLICIES
  {
    hide Can, LinksOk, NeverBreaks, RunAttempts;
    LinksRun(s, run);
    AgreementIff(s, run);
    var n := RunAttempts(s, run);
    assert run[..|run|] == run && Agree(n);
    hide AgreesThroughout;
    CanIsDirect(n, u, resource, action);
    if r :| HasActive(n.rows, u, r) && (r, resource, action) in BASELINE_POLICIES {
      assert LinkOf(u, r) in n.links;
    }
  }

  // ---- the audit log is enough ----

  /** What the next event makes of a set of roles. */
  function ReplayEvent(e: Event, u: UserId, before: set<string>): set<string> {
    match e
    case RoleAssigned(_, target, role) => if target == u then before + {role} else before
    case RoleRevoked(_, target, role) => if target == u then before - {role} else before
    case RoleReplaced(_, target, newRoles) => if target == u then RoleNames(newRoles) else before
    case _ => before
  }

  function Replay(log: seq<Event>, u: UserId, base: set<string>): set<string> {
    if log == [] then base else ReplayEvent(log[|log| - 1], u, Replay(log[..|log| - 1], u, base))
  }

  lemma ReplaySnoc(log: seq<Event>, e: Event, u: UserId, base: set<string>)
    ensures Replay(log + [e], u, base) == ReplayEvent(e, u, Replay(log, u, base))
  {
    assert (log + [e])[..|log|] == log;
  }

  /** No committed attempt is a revocation that finds several active rows. */
  ghost predicate NeverSplits(s: RoleState, run: seq<Attempt>)
    requires AllWellFormed(run)
  {
    forall k :: 0 <= k < |run| && run[k].ending.Commits? ==> !RevokesOneOfSeveral(RunAttempts(s, run[..k]), run[k].op)
  }

  /** Lists without repetition never lead to one, whatever fails. */
  lemma LegalNeverSplits(s: RoleState, run: seq<Attempt>)
    requires Legal(run) && NoDuplicates(s.rows)
    ensures NeverSplits(s, run)
  {
    hide NoDuplicates, RevokesOneOfSeveral, RunAttempts, NeverDoubles;
    LegalNeverDoubles(s, run);
    SingleIff(s, run);
    forall k | 0 <= k < |run| ensures !RevokesOneOfSeveral(RunAttempts(s, run[..k]), run[k].op) {
      NoDuplicatesNoSplit(RunAttempts(s, run[..k]), run[k].op);
    }
  }

  lemma ReplayStep(s: RoleState, op: Op, u: UserId)
    requires WellFormed(op) && !RevokesOneOfSeveral(s, op)
    ensures var n := Apply(s, op).0;
            if Apply(s, op).1.Done? then n.log == s.log + [n.log[|s.log|]]
              && ActiveRoles(n.rows, u) == ReplayEvent(n.log[|s.log|], u, ActiveRoles(s.rows, u))
            else n.log == s.log && ActiveRoles(n.rows, u) == ActiveRoles(s.rows, u)
  {
    var n := Apply(s, op).0;
    forall r ensures r in ActiveRoles(n.rows, u) <==> ActiveNext(s, op, u, r) {
      ActiveRolesAre(n.rows, u, r);
      ActiveStep(s, op, u, r);
    }
    forall r ensures r in ActiveRoles(s.rows, u) <==> HasActive(s.rows, u, r) {
      ActiveRolesAre(s.rows, u, r);
    }
    hide ActiveRoles, HasActive;
  }

  /**
   Replaying the role events written since `s` over the roles a user had in `s` gives the roles the
   user has now; with empty tables at the start, the whole log replayed from nothing. Attempts that fail
   do not disturb it, and runs without repeated lists are runs of this kind.
   */
  lemma {:induction false} ReplayGivesRoles(s: RoleState, run: seq<Attempt>, u: UserId)
    requires AllWellFormed(run) && NeverSplits(s, run)
    ensures var n := RunAttempts(s, run);
            s.log <= n.log && ActiveRoles(n.rows, u) == Replay(n.log[|s.log|..], u, ActiveRoles(s.rows, u))
  {
    hide ActiveRoles, RevokesOneOfSeveral, ReplayEvent, Apply;
    if run == [] {
      assert s.log[|s.log|..] == [];
    } else {
      var front, a := run[..|run| - 1], run[|run| - 1];
      Prefixes(s, run);
      ReplayGivesRoles(s, front, u);
      var m := RunAttempts(s, front);
      hide NeverSplits, RunAttempts;
      if a.ending.Commits? {
        ReplayStep(m, a.op, u);
        var n := Apply(m, a.op).0;
        if Apply(m, a.op).1.Done? {
          assert n.log[|s.log|..] == m.log[|s.log|..] + [n.log[|m.log|]];
          ReplaySnoc(m.log[|s.log|..], n.log[|m.log|], u, ActiveRoles(s.rows, u));
        }
      }
    }
  }
}

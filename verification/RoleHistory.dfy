/** The row history, who may change it, what repairs it and what breaks it. */
module RoleHistory {
  import opened Common
  import opened Audit
  import opened Roles
  import opened RoleTheorems

  // ---- point in time ----

  predicate ActiveRowAt(row: RoleRow, u: UserId, r: string, t: Time) {
    row.user == u && row.role == r && row.assignedAt <= t && (row.revokedAt.None? || t < row.revokedAt.value)
  }

  /** The roles a reader of all rows reconstructs for an instant. */
  predicate ActiveAt(rows: seq<RoleRow>, u: UserId, r: string, t: Time) {
    exists i :: 0 <= i < |rows| && ActiveRowAt(rows[i], u, r, t)
  }

  predicate ReadingsAfter(op: Op, t: Time) {
    t < op.now && (op.Replace? ==> forall k :: 0 <= k < |op.stamps| ==> t < op.stamps[k])
  }

  predicate ReadingsUpTo(op: Op, t: Time) {
    op.now <= t && (op.Replace? ==> forall k :: 0 <= k < |op.stamps| ==> op.stamps[k] <= t)
  }

  predicate StampsUpTo(rows: seq<RoleRow>, t: Time) {
    forall i :: 0 <= i < |rows|
        ==> rows[i].assignedAt <= t && (rows[i].revokedAt.Some? ==> rows[i].revokedAt.value <= t)
  }

  lemma StampsStep(s: RoleState, a: Attempt, t: Time)
    requires WellFormed(a.op) && StampsUpTo(s.rows, t) && ReadingsUpTo(a.op, t)
    ensures StampsUpTo(Do(s, a).0.rows, t)
  {
    hide Can;
  }

  lemma {:induction false} StampsRun(s: RoleState, run: seq<Attempt>, t: Time)
    requires AllWellFormed(run) && StampsUpTo(s.rows, t)
    requires forall k :: 0 <= k < |run| ==> ReadingsUpTo(run[k].op, t)
    ensures StampsUpTo(RunAttempts(s, run).rows, t)
  {
    hide Do, StampsUpTo;
    if run != [] {
      StampsRun(s, run[..|run| - 1], t);
      StampsStep(RunAttempts(s, run[..|run| - 1]), run[|run| - 1], t);
    }
  }

  lemma NowIsActive(rows: seq<RoleRow>, u: UserId, r: string, t: Time)
    requires StampsUpTo(rows, t)
    ensures ActiveAt(rows, u, r, t) <==> HasActive(rows, u, r)
  {
    forall i | 0 <= i < |rows| ensures ActiveRowAt(rows[i], u, r, t) <==> ActiveRow(rows[i], u, r) {}
  }

  /** An operation whose clock readings come after `t` does not change what the rows say about `t`. */
  lemma PastIsFixed(s: RoleState, a: Attempt, u: UserId, r: string, t: Time)
    requires WellFormed(a.op) && ReadingsAfter(a.op, t)
    ensures ActiveAt(Do(s, a).0.rows, u, r, t) <==> ActiveAt(s.rows, u, r, t)
  {
    hide Can;
    var n := Do(s, a).0;
    assert |n.rows| >= |s.rows|;
    forall i | 0 <= i < |s.rows| ensures ActiveRowAt(n.rows[i], u, r, t) <==> ActiveRowAt(s.rows[i], u, r, t) {}
    forall i | |s.rows| <= i < |n.rows| ensures !ActiveRowAt(n.rows[i], u, r, t) {}
  }

  /**
   For every run, failing attempts and repeated lists included, and every instant between two of its attempts:
   the rows as they are at the end say about that instant exactly what was active after the earlier attempt.
   */
  lemma {:induction false} PointInTime(s: RoleState, run: seq<Attempt>, k: nat, t: Time, u: UserId, r: string)
    requires AllWellFormed(run) && k <= |run| && StampsUpTo(s.rows, t)
    requires forall i :: 0 <= i < k ==> ReadingsUpTo(run[i].op, t)
    requires forall i :: k <= i < |run| ==> ReadingsAfter(run[i].op, t)
    ensures ActiveAt(RunAttempts(s, run).rows, u, r, t) <==> HasActive(RunAttempts(s, run[..k]).rows, u, r)
    decreases |run|
  {
    hide Do, StampsUpTo, ActiveAt, HasActive;
    if k == |run| {
      assert run[..k] == run;
      StampsRun(s, run, t);
      NowIsActive(RunAttempts(s, run).rows, u, r, t);
    } else {
      var front := run[..|run| - 1];
      assert front[..k] == run[..k];
      PointInTime(s, front, k, t, u, r);
      PastIsFixed(RunAttempts(s, front), run[|run| - 1], u, r, t);
    }
  }

  // ---- intervals do not overlap ----

  /** A later row of the same user and role begins after the earlier one has ended. */
  ghost predicate Intervals(rows: seq<RoleRow>) {
    && (forall i :: 0 <= i < |rows| && rows[i].revokedAt.Some? ==> rows[i].assignedAt <= rows[i].revokedAt.value)
    && (forall i, k | 0 <= i < k < |rows| && rows[i].user == rows[k].user && rows[i].role == rows[k].role ::
          rows[i].revokedAt.Some? && rows[i].revokedAt.value <= rows[k].assignedAt)
  }

  /** The clock advances: readings of an operation come after `from`, in the order they are taken. */
  predicate Clocked(op: Op, from: Time) {
    from < op.now && (op.Replace? ==> forall k :: 0 <= k < |op.stamps| ==> op.now <= op.stamps[k])
  }

  function MaxTime(a: Time, b: Time): Time { if a < b then b else a }

  function LastStamp(stamps: seq<Time>, from: Time): Time {
    if stamps == [] then from else MaxTime(stamps[|stamps| - 1], LastStamp(stamps[..|stamps| - 1], from))
  }

  /** The latest reading of a run. */
  function Latest(run: seq<Attempt>, from: Time): Time {
    if run == [] then from
    else var op := run[|run| - 1].op;
      MaxTime(Latest(run[..|run| - 1], from), if op.Replace? then LastStamp(op.stamps, op.now) else op.now)
  }

  ghost predicate ClockAdvances(run: seq<Attempt>, from: Time) {
    forall k :: 0 <= k < |run| ==> Clocked(run[k].op, Latest(run[..k], from))
  }

  lemma {:induction false} LastStampBounds(stamps: seq<Time>, from: Time)
    ensures from <= LastStamp(stamps, from) && forall k :: 0 <= k < |stamps| ==> stamps[k] <= LastStamp(stamps, from)
  {
    if stamps != [] { LastStampBounds(stamps[..|stamps| - 1], from); }
  }

  lemma IntervalsStep(s: RoleState, op: Op, t: Time)
    requires WellFormed(op) && DuplicateFree(op) && Intervals(s.rows) && StampsUpTo(s.rows, t) && Clocked(op, t)
    ensures Intervals(Apply(s, op).0.rows)
  {
    hide Can;
    if op.Assign? && Apply(s, op).1.Done? {
      PositionsOf(s.rows, op.target, op.role);
    } else if op.Revoke? {
      hide ReplaceRoles, AssignRole;
    } else {
      hide RevokeRole, AssignRole;
    }
  }

  lemma IntervalsStepIff(s: RoleState, a: Attempt, t: Time)
    requires WellFormed(a.op) && Intervals(s.rows) && StampsUpTo(s.rows, t) && Clocked(a.op, t)
    ensures Intervals(Do(s, a).0.rows) <==> !Doubles(s, a)
  {
    hide Can, Intervals, StampsUpTo;
    if a.ending.Commits? {
      if DuplicateFree(a.op) {
        IntervalsStep(s, a.op, t);
      } else if Apply(s, a.op).1.Done? {
        DoubledInterval(s, a.op);
      }
    }
  }

  lemma DoubledInterval(s: RoleState, op: Op)
    requires op.Replace? && WellFormed(op) && Apply(s, op).1.Done? && !Distinct(op.newRoles)
    ensures !Intervals(Apply(s, op).0.rows)
  {
    hide Can;
    var n := Apply(s, op).0;
    var i, k :| 0 <= i < k < |op.newRoles| && op.newRoles[i] == op.newRoles[k];
    assert n.rows[|s.rows| + i].role == n.rows[|s.rows| + k].role && n.rows[|s.rows| + i].revokedAt.None?;
  }

  ghost predicate IntervalsThroughout(s: RoleState, run: seq<Attempt>)
    requires AllWellFormed(run)
  {
    forall k :: 0 <= k <= |run| ==> Intervals(RunAttempts(s, run[..k]).rows)
  }

  lemma {:induction false} StampsAtEnd(s: RoleState, run: seq<Attempt>, from: Time)
    requires AllWellFormed(run) && ClockAdvances(run, from) && StampsUpTo(s.rows, from)
    ensures StampsUpTo(RunAttempts(s, run).rows, Latest(run, from))
  {
    hide Do;
    if run != [] {
      var front, a := run[..|run| - 1], run[|run| - 1];
      Prefixes(s, run);
      StampsAtEnd(s, front, from);
      if a.op.Replace? { LastStampBounds(a.op.stamps, a.op.now); }
      assert ReadingsUpTo(a.op, Latest(run, from));
      StampsStep(RunAttempts(s, front), a, Latest(run, from));
    }
  }

  /**
   With a clock that advances: the validity intervals of one user and role are disjoint, and in table order,
   at every point of a run if and only if no list with a repeated name got through.
   */
  lemma {:induction false} IntervalsIff(s: RoleState, run: seq<Attempt>, from: Time)
    requires AllWellFormed(run) && ClockAdvances(run, from) && Intervals(s.rows) && StampsUpTo(s.rows, from)
    ensures IntervalsThroughout(s, run) <==> NeverDoubles(s, run)
  {
    hide Intervals, StampsUpTo, Doubles, Do, Clocked, Latest;
    Prefixes(s, run);
    if run != [] {
      var front := run[..|run| - 1];
      IntervalsIff(s, front, from);
      if IntervalsThroughout(s, front) {
        assert Intervals(RunAttempts(s, front[..|front|]).rows);
        StampsAtEnd(s, front, from);
        IntervalsStepIff(RunAttempts(s, front), run[|run| - 1], Latest(front, from));
      }
    }
  }

  // ---- only admins change anything ----

  /** Casbin knows an administrator. */
  ghost predicate SomeAdminLinked(s: RoleState) {
    exists u: UserId :: LinkOf(u, "admin") in s.links
  }

  lemma OnlyLinkedAdminsAct(s: RoleState, a: Attempt)
    requires WellFormed(a.op) && Seeded(s) && Do(s, a).0 != s
    ensures LinkOf(a.op.actor, "admin") in s.links
  {
    CanIsDirect(s, a.op.actor, "roles", "manage");
    var r :| LinkOf(a.op.actor, r) in s.links && (r, "roles", "manage") in BASELINE_POLICIES;
  }

  /**
   At any point of any run, an attempt that changes anything was made by a user whom Casbin has as admin; and who
   has an active admin row, if no earlier attempt has parted the two.
   */
  lemma OnlyAdminsChangeRoles(s: RoleState, run: seq<Attempt>, k: nat)
    requires AllWellFormed(run) && k < |run|
    requires Seeded(s) && Agree(s)
    requires Do(RunAttempts(s, run[..k]), run[k]).0 != RunAttempts(s, run[..k])
    ensures var before := RunAttempts(s, run[..k]);
            && LinkOf(run[k].op.actor, "admin") in before.links
            && (NeverBreaks(s, run[..k]) ==> HasActive(before.rows, run[k].op.actor, "admin"))
  {
    hide RunAttempts, Do, NeverBreaks, HasActive;
    LinksRun(s, run[..k]);
    OnlyLinkedAdminsAct(RunAttempts(s, run[..k]), run[k]);
    AgreementIff(s, run[..k]);
    assert run[..k][..k] == run[..k];
    assert NeverBreaks(s, run[..k]) ==> Agree(RunAttempts(s, run[..k]));
  }

  lemma {:induction false} FrozenWithoutLink(s: RoleState, run: seq<Attempt>)
    requires AllWellFormed(run) && Seeded(s) && !SomeAdminLinked(s)
    ensures RunAttempts(s, run) == s
  {
    hide Do;
    if run != [] {
      FrozenWithoutLink(s, run[..|run| - 1]);
      if Do(s, run[|run| - 1]).0 != s { OnlyLinkedAdminsAct(s, run[|run| - 1]); }
    }
  }

  /**
   Nothing ever changes again, no row, no link, no event, exactly when Casbin knows no administrator:
   in any state, SQL and Casbin out of step included, and whatever is tried and fails.
   */
  lemma FrozenIff(s: RoleState)
    requires Seeded(s)
    ensures (forall run | AllWellFormed(run) :: RunAttempts(s, run) == s) <==> !SomeAdminLinked(s)
  {
    if SomeAdminLinked(s) {
      var u: UserId :| LinkOf(u, "admin") in s.links;
      var a := Attempt(Replace(u, [], u, 0, []), Commits);
      CanManage(s, u);
      assert Do(s, a).0.log == s.log + [RoleReplaced(u, u, [])];
      assert [a][..0] == [] && RunAttempts(s, [a]) == Do(s, a).0;
      assert AllWellFormed([a]) && RunAttempts(s, [a]) != s;
    } else {
      forall run | AllWellFormed(run) ensures RunAttempts(s, run) == s { FrozenWithoutLink(s, run); }
    }
  }

  /** Where SQL and Casbin agree: without an active admin row. */
  lemma FrozenWithoutAdmin(s: RoleState, run: seq<Attempt>)
    requires AllWellFormed(run) && Seeded(s) && Agree(s)
    requires forall u: UserId :: !HasActive(s.rows, u, "admin")
    ensures RunAttempts(s, run) == s
  {
    assert forall u: UserId :: LinkOf(u, "admin") in s.links ==> HasActive(s.rows, u, "admin");
    FrozenWithoutLink(s, run);
  }

  /**
   The lockout: a revocation of the last administrator that fails after its Casbin write. The rows still show an
   active administrator, and nobody can ever change a role again.
   */
  lemma LockedOutAfterAbort(s: RoleState, op: Op, writes: nat, run: seq<Attempt>)
    requires Seeded(s) && Agree(s) && AllWellFormed(run)
    requires op.Revoke? && op.role == "admin" && Apply(s, op).1.Done? && writes > 0
    requires forall u: UserId :: HasActive(s.rows, u, "admin") ==> u == op.target
    ensures var n := Aborted(s, op, writes);
            HasActive(n.rows, op.target, "admin") && RunAttempts(n, run) == n
  {
    hide Can;
    var n := Aborted(s, op, writes);
    forall u: UserId ensures LinkOf(u, "admin") !in n.links {
      assert LinkOf(u, "admin") in s.links ==> HasActive(s.rows, u, "admin");
    }
    FrozenWithoutLink(n, run);
  }

  // ---- replace heals ----

  function LinkedRoles(links: set<Link>, u: UserId): set<string> {
    set l | l in links && l.0 == u :: l.1
  }

  /**
   From any state at all: duplicates, stale or missing links. The rows it adds, which it returns, carry the list's
   names in order.
   */
  lemma ReplaceHeals(s: RoleState, op: Op, v: UserId)
    requires op.Replace? && WellFormed(op) && Apply(s, op).1.Done?
    ensures var n := Apply(s, op).0;
            var names := RoleNames(op.newRoles);
            && ActiveRoles(n.rows, op.target) == names && LinkedRoles(n.links, op.target) == names
            && (v != op.target ==>
                  && ActiveRoles(n.rows, v) == ActiveRoles(s.rows, v)
                  && LinkedRoles(n.links, v) == LinkedRoles(s.links, v))
    ensures var n := Apply(s, op).0;
            && |n.rows| == |s.rows| + |op.newRoles|
            && (forall i :: 0 <= i < |s.rows| && s.rows[i].user != op.target ==> n.rows[i] == s.rows[i])
            && (forall i :: |s.rows| <= i < |n.rows| ==> n.rows[i].role == op.newRoles[i - |s.rows|])
  {
    HealedRows(s, op, op.target);
    HealedRows(s, op, v);
    HealedLinks(s.links, op.target, op.newRoles, v);
    hide ActiveRoles, LinkedRoles;
  }

  lemma HealedRows(s: RoleState, op: Op, v: UserId)
    requires op.Replace? && WellFormed(op) && Apply(s, op).1.Done?
    ensures ActiveRoles(Apply(s, op).0.rows, v) == if v == op.target then RoleNames(op.newRoles)
              else ActiveRoles(s.rows, v)
  {
    forall r ensures r in ActiveRoles(Apply(s, op).0.rows, v) <==> ActiveNext(s, op, v, r) {
      ActiveRolesAre(Apply(s, op).0.rows, v, r);
      ActiveStep(s, op, v, r);
    }
    forall r ensures r in ActiveRoles(s.rows, v) <==> HasActive(s.rows, v, r) {
      ActiveRolesAre(s.rows, v, r);
    }
    hide ActiveRoles, HasActive;
  }

  lemma HealedLinks(links: set<Link>, u: UserId, roles: seq<string>, v: UserId)
    ensures var n := WithoutUser(links, u) + NewLinks(u, roles);
            && LinkedRoles(n, u) == RoleNames(roles)
            && (v != u ==> LinkedRoles(n, v) == LinkedRoles(links, v))
  {
    var n := WithoutUser(links, u) + NewLinks(u, roles);
    forall r | r in roles ensures r in LinkedRoles(n, u) {
      assert LinkOf(u, r) in n;
    }
    if v != u {
      forall r | r in LinkedRoles(links, v) ensures r in LinkedRoles(n, v) {
        assert LinkOf(v, r) in n;
      }
      forall r | r in LinkedRoles(n, v) ensures r in LinkedRoles(links, v) {
        assert LinkOf(v, r) in links;
      }
    }
  }

  // ---- what repeated names break ----

  /** After a repeated name, one revocation removes the only link and one of two rows: SQL and Casbin part. */
  lemma RepeatedNameThenRevoke(s: RoleState, admin: UserId, u: UserId, t: Time)
    requires Good(s) && HasActive(s.rows, admin, "admin") && admin != u
    ensures var a := Apply(s, Replace(u, ["auditor", "auditor"], admin, t, [t, t]));
            var b := Apply(a.0, Revoke(u, "auditor", admin, t + 1));
            && a.1.Done? && b.1.Done?
            && HasActive(b.0.rows, u, "auditor") && LinkOf(u, "auditor") !in b.0.links
  {
    var op := Replace(u, ["auditor", "auditor"], admin, t, [t, t]);
    CanManage(s, admin);
    var a := Apply(s, op).0;
    assert LinkOf(admin, "admin") in a.links;
    CanManage(a, admin);
    ActiveStep(s, op, u, "auditor");
    var i := FirstActive(a.rows, u, "auditor");
    var n := |s.rows|;
    assert ActiveRow(a.rows[n], u, "auditor") && ActiveRow(a.rows[n + 1], u, "auditor");
    var b := RevokeAt(a.rows, i, t + 1);
    assert ActiveRow(b[n], u, "auditor") || ActiveRow(b[n + 1], u, "auditor");
  }

  lemma CanManage(s: RoleState, admin: UserId)
    requires s.policies == BASELINE_POLICIES
    requires (LinkOf(admin, "admin") in s.links || (Agree(s) && HasActive(s.rows, admin, "admin")))
    ensures Can(s, admin, "roles", "manage")
  {
    var p: Policy := ("admin", "roles", "manage");
    assert p in s.policies;
    var l := LinkOf(admin, "admin");
    assert l in s.links && Linked(s.links, l.1, p.0, MAX_HIERARCHY - 1);
    assert Linked(s.links, admin, p.0, MAX_HIERARCHY);
  }

  // ---- lookups in good states ----

  lemma NeverManyRows(s: RoleState, op: Op)
    requires WellFormed(op) && NoDuplicates(s.rows)
    ensures !Apply(s, op).1.ManyRows?
    ensures op.Assign? && Can(s, op.actor, "roles", "manage") && op.role in VALID_ROLES ==>
      (Apply(s, op).1.Done? <==> !HasActive(s.rows, op.target, op.role))
  {
    if op.Assign? {
      var active := ActivePositions(s.rows, op.target, op.role);
      if active != {} {
        var i :| i in active;
        assert active == {i};
      }
      assert forall i :: 0 <= i < |s.rows| && ActiveRow(s.rows[i], op.target, op.role) ==> i in active;
    }
  }
}

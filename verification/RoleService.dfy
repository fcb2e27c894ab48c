/** The objects behind role management: repository, Casbin enforcer, audit log and the service over them. */
module RoleService {
  import opened Common
  import opened Audit
  import opened Roles

  /** The positions of a user's active rows, in table order: what `get_active_roles` returns. */
  function ActiveList(rows: seq<RoleRow>, u: UserId): (r: seq<nat>)
    ensures forall k :: 0 <= k < |r| ==> r[k] < |rows| && rows[r[k]].user == u && rows[r[k]].revokedAt.None?
    ensures forall j, k :: 0 <= j < k < |r| ==> r[j] < r[k]
    ensures forall i: nat :: i < |rows| && rows[i].user == u && rows[i].revokedAt.None? ==> i in r
  {
    if rows == [] then []
    else
      var front, last := rows[..|rows| - 1], rows[|rows| - 1];
      var before := ActiveList(front, u);
      if last.user == u && last.revokedAt.None? then before + [|front|] else before
  }

  class RoleRepository {
    var rows: seq<RoleRow>

    constructor (rows: seq<RoleRow>)
      ensures this.rows == rows
    {
      this.rows := rows;
    }

    method HasActiveRole(u: UserId, role: string) returns (found: Single<int>)
      ensures found == ScalarOneOrNone(ActivePositions(rows, u, role))
    {
      var matches := ActivePositions(rows, u, role);
      if matches == {} {
        found := NoRow;
      } else {
        var i :| i in matches;
        found := if matches == {i} then OneRow(i) else Single.ManyRows;
        assert matches != {i} ==> !(matches <= {i});
      }
    }

    method Create(row: RoleRow)
      modifies this
      ensures rows == old(rows) + [row]
    {
      rows := rows + [row];
    }

    /** The row with its end time, or nothing for an id without a row. */
    method Revoke(i: nat, now: Time) returns (revoked: Option<RoleRow>)
      modifies this
      ensures revoked.Some? <==> i < |old(rows)|
      ensures rows == if revoked.Some? then RevokeAt(old(rows), i, now) else old(rows)
      ensures revoked.Some? ==> revoked.value == rows[i]
    {
      if i >= |rows| {
        return None;
      }
      rows := rows[i := rows[i].(revokedAt := Some(now))];
      revoked := Some(rows[i]);
    }

    /** `revoked_at` is set on each active row of the user, one row after the other. */
    method RevokeAllForUser(u: UserId, now: Time)
      modifies this
      ensures rows == RevokeAll(old(rows), u, now)
    {
      var active := ActiveList(rows, u);
      for k := 0 to |active|
        invariant |rows| == |old(rows)|
        invariant forall i: nat :: i < |rows| ==>
          rows[i] == if i in active[..k] then old(rows)[i].(revokedAt := Some(now)) else old(rows)[i]
      {
        assert active[..k + 1] == active[..k] + [active[k]];
        var _ := Revoke(active[k], now);
      }
      assert active[..|active|] == active;
    }
  }

  class Enforcer {
    var policies: set<Policy>
    var links: set<Link>

    constructor (policies: set<Policy>, links: set<Link>)
      ensures this.policies == policies && this.links == links
    {
      this.policies, this.links := policies, links;
    }

    method AssignRole(u: UserId, role: string) returns (added: bool)
      modifies `links
      ensures added <==> LinkOf(u, role) !in old(links)
      ensures links == old(links) + {LinkOf(u, role)}
    {
      added := LinkOf(u, role) !in links;
      links := links + {LinkOf(u, role)};
    }

    method RemoveRole(u: UserId, role: string) returns (removed: bool)
      modifies `links
      ensures removed <==> LinkOf(u, role) in old(links)
      ensures links == old(links) - {LinkOf(u, role)}
    {
      removed := LinkOf(u, role) in links;
      links := links - {LinkOf(u, role)};
    }

    method RemoveRolesForUser(u: UserId) returns (removed: bool)
      modifies `links
      ensures links == WithoutUser(old(links), u)
      ensures removed <==> links != old(links)
    {
      removed := links != WithoutUser(links, u);
      links := WithoutUser(links, u);
    }

    /** Adds the baseline permissions that are missing and counts them: a second call adds none. */
    method SeedBaselinePolicies() returns (added: nat)
      modifies `policies
      ensures policies == old(policies) + BASELINE_POLICIES
      ensures added == |BASELINE_POLICIES - old(policies)|
    {
      added := SeedPolicies(BASELINE_POLICIES);
    }

    method SeedPolicies(baseline: set<Policy>) returns (added: nat)
      modifies `policies
      ensures policies == old(policies) + baseline
      ensures added == |baseline - old(policies)|
    {
      added := 0;
      var left := baseline;
      ghost var done: set<Policy> := {};
      while left != {}
        invariant done !! left && done + left == baseline
        invariant policies == old(policies) + done
        invariant added == |done - old(policies)|
      {
        var p :| p in left;
        OneMore(old(policies), done, p);
        if p !in policies {
          policies := policies + {p};
          added := added + 1;
        }
        done, left := done + {p}, left - {p};
      }
    }
  }

  lemma OneMore(before: set<Policy>, done: set<Policy>, p: Policy)
    requires p !in done
    ensures |done + {p} - before| == |done - before| + if p in before then 0 else 1
    ensures before + (done + {p}) == if p in before then before + done else before + done + {p}
  {
    if p in before {
      assert done + {p} - before == done - before;
    } else {
      assert done + {p} - before == (done - before) + {p};
    }
  }

  class AuditLog {
    var events: seq<Event>

    constructor (events: seq<Event>)
      ensures this.events == events
    {
      this.events := events;
    }

    method Record(e: Event)
      modifies this
      ensures events == old(events) + [e]
    {
      events := events + [e];
    }
  }

  class RoleManagementService {
    const roles: RoleRepository
    const enforcer: Enforcer
    const audit: AuditLog

    constructor (roles: RoleRepository, enforcer: Enforcer, audit: AuditLog)
      ensures this.roles == roles && this.enforcer == enforcer && this.audit == audit
    {
      this.roles, this.enforcer, this.audit := roles, enforcer, audit;
    }

    function State(): RoleState
      reads roles, enforcer, audit
    {
      RoleState(roles.rows, enforcer.links, enforcer.policies, audit.events)
    }

    /** The exception closes the session: rows and events are as they were, Casbin is not asked. */
    method RollBack(rows: seq<RoleRow>, events: seq<Event>)
      modifies roles, audit
      ensures roles.rows == rows && audit.events == events
    {
      roles.rows := rows;
      audit.events := events;
    }

    method AssignRole(target: UserId, role: string, actor: UserId, now: Time, ending: Ending) returns (outcome: Outcome)
      modifies roles, enforcer`links, audit
      ensures (State(), outcome) == Do(old(State()), Attempt(Assign(target, role, actor, now), ending))
    {
      hide Can, Roles.RevokeRole, Roles.ReplaceRoles;
      if !Can(State(), actor, "roles", "manage") {
        return Denied;
      }
      if role !in VALID_ROLES {
        return InvalidRole;
      }
      var active := roles.HasActiveRole(target, role);
      if active.ManyRows? {
        return Outcome.ManyRows;
      }
      var rows, events := roles.rows, audit.events;
      if active.OneRow? {
        if ending == FailsAfter(0) {
          return Raised;
        }
        var _ := enforcer.AssignRole(target, role);
        return NoChange;
      }
      roles.Create(RoleRow(target, role, actor, now, None));
      if ending == FailsAfter(0) {
        RollBack(rows, events);
        return Raised;
      }
      var _ := enforcer.AssignRole(target, role);
      audit.Record(RoleAssigned(actor, target, role));
      if ending.FailsAfter? {
        RollBack(rows, events);
        return Raised;
      }
      return Done;
    }

    method RevokeRole(target: UserId, role: string, actor: UserId, now: Time, ending: Ending) returns (outcome: Outcome)
      modifies roles, enforcer`links, audit
      ensures (State(), outcome) == Do(old(State()), Attempt(Revoke(target, role, actor, now), ending))
    {
      hide Can, ActiveList, FirstActive, RevokeAt, Roles.AssignRole, Roles.ReplaceRoles;
      if !Can(State(), actor, "roles", "manage") {
        return Denied;
      }
      if role !in VALID_ROLES {
        return InvalidRole;
      }
      var rows, events := roles.rows, audit.events;
      var active := ActiveList(rows, target);
      var k := 0;
      while k < |active| && rows[active[k]].role != role
        invariant k <= |active|
        invariant forall i :: 0 <= i < k ==> rows[active[i]].role != role
      {
        k := k + 1;
      }
      FoundIsFirst(rows, target, role, active, k);
      if k == |active| {
        return NotActive;
      }
      var _ := roles.Revoke(active[k], now);
      if ending == FailsAfter(0) {
        RollBack(rows, events);
        return Raised;
      }
      var _ := enforcer.RemoveRole(target, role);
      audit.Record(RoleRevoked(actor, target, role));
      if ending.FailsAfter? {
        RollBack(rows, events);
        return Raised;
      }
      return Done;
    }

    method ReplaceRoles(target: UserId, newRoles: seq<string>, actor: UserId, now: Time, stamps: seq<Time>,
        ending: Ending)
      returns (outcome: Outcome, assignments: seq<RoleRow>)
      requires |stamps| == |newRoles|
      modifies roles, enforcer`links, audit
      ensures (State(), outcome) == Do(old(State()), Attempt(Replace(target, newRoles, actor, now, stamps), ending))
      ensures assignments == if outcome.Done? then NewRows(target, newRoles, actor, stamps) else []
    {
      hide Can, Roles.AssignRole, Roles.RevokeRole, RevokeAll, NewRows, NewLinks, WithoutUser;
      NoLinks(target);
      if !Can(State(), actor, "roles", "manage") {
        return Denied, [];
      }
      for k := 0 to |newRoles|
        invariant forall i :: 0 <= i < k ==> newRoles[i] in VALID_ROLES
      {
        if newRoles[k] !in VALID_ROLES {
          return InvalidRole, [];
        }
      }
      var rows, events := roles.rows, audit.events;
      roles.RevokeAllForUser(target, now);
      if ending == FailsAfter(0) {
        RollBack(rows, events);
        return Raised, [];
      }
      var _ := enforcer.RemoveRolesForUser(target);
      assignments := [];
      for k := 0 to |newRoles|
        invariant ending.FailsAfter? ==> ending.writes > k
        invariant assignments == NewRows(target, newRoles, actor, stamps)[..k]
        invariant roles.rows == RevokeAll(rows, target, now) + assignments
        invariant enforcer.links == WithoutUser(old(enforcer.links), target) + NewLinks(target, newRoles[..k])
        invariant audit.events == events && enforcer.policies == old(enforcer.policies)
      {
        var assignment := RoleRow(target, newRoles[k], actor, stamps[k], None);
        roles.Create(assignment);
        if ending == FailsAfter(k + 1) {
          RollBack(rows, events);
          return Raised, [];
        }
        var _ := enforcer.AssignRole(target, newRoles[k]);
        assignments := assignments + [assignment];
        MoreLinks(target, newRoles, k);
      }
      assert newRoles[..|newRoles|] == newRoles;
      assert assignments == NewRows(target, newRoles, actor, stamps);
      audit.Record(RoleReplaced(actor, target, newRoles));
      if ending.FailsAfter? {
        RollBack(rows, events);
        return Raised, [];
      }
      outcome := Done;
    }

    /** The role names `get_active_roles` lists are the active ones. */
    method GetActiveRoles(u: UserId) returns (names: seq<string>)
      ensures forall r :: r in names <==> HasActive(roles.rows, u, r)
    {
      var rows := roles.rows;
      var active := ActiveList(rows, u);
      names := seq(|active|, k requires 0 <= k < |active| => rows[active[k]].role);
      forall r | HasActive(roles.rows, u, r) ensures r in names {
        var i :| 0 <= i < |roles.rows| && ActiveRow(roles.rows[i], u, r);
        var k :| 0 <= k < |active| && active[k] == i;
        assert names[k] == r;
      }
      forall r | r in names ensures HasActive(roles.rows, u, r) {
        var k :| 0 <= k < |names| && names[k] == r;
        assert ActiveRow(roles.rows[active[k]], u, r);
      }
    }
  }

  lemma FoundIsFirst(rows: seq<RoleRow>, u: UserId, role: string, active: seq<nat>, k: nat)
    requires active == ActiveList(rows, u) && k <= |active|
    requires forall i :: 0 <= i < k ==> rows[active[i]].role != role
    requires k < |active| ==> rows[active[k]].role == role
    ensures HasActive(rows, u, role) <==> k < |active|
    ensures k < |active| ==> FirstActive(rows, u, role) == active[k]
  {
    hide ActiveList;
    if k < |active| {
      assert ActiveRow(rows[active[k]], u, role);
    }
    if HasActive(rows, u, role) {
      var first := FirstActive(rows, u, role);
      hide FirstActive;
      var j :| 0 <= j < |active| && active[j] == first;
      assert k <= j;
    }
  }

  lemma NoLinks(u: UserId)
    ensures NewLinks(u, []) == {}
  {}

  lemma MoreLinks(u: UserId, roles: seq<string>, k: nat)
    requires k < |roles|
    ensures NewLinks(u, roles[..k + 1]) == NewLinks(u, roles[..k]) + {LinkOf(u, roles[k])}
  {
    forall l | l in NewLinks(u, roles[..k]) ensures l in NewLinks(u, roles[..k + 1]) {
      var i :| 0 <= i < k && l == LinkOf(u, roles[..k][i]);
      assert roles[..k + 1][i] == roles[..k][i];
    }
    assert roles[..k + 1][k] == roles[k];
  }
}

/** The object behind relabelling, and which texts it takes for which class. */
module ReviewService {
  import opened Common
  import opened Audit
  import opened Store
  import opened Roles
  import opened RoleService
  import opened Review

  class PredictionReviewService {
    var predictions: map<Id, Prediction>
    const roles: RoleRepository
    const enforcer: Enforcer
    const audit: AuditLog

    constructor (predictions: map<Id, Prediction>, roles: RoleRepository, enforcer: Enforcer, audit: AuditLog)
      ensures this.predictions == predictions && this.roles == roles && this.enforcer == enforcer && this.audit == audit
    {
      this.predictions, this.roles, this.enforcer, this.audit := predictions, roles, enforcer, audit;
    }

    function State(): ReviewState
      reads this, roles, enforcer, audit
    {
      ReviewState(predictions, RoleState(roles.rows, enforcer.links, enforcer.policies, audit.events))
    }

    /** The guards in their order, then the row, the event and the commit; a failed commit rolls both back. */
    method Relabel(id: Id, text: string, reviewer: UserId, now: Time, commits: bool) returns (outcome: ReviewOutcome)
      modifies this, audit
      ensures var r := Review.Relabel(old(State()), id, text, reviewer, now);
              outcome == r.1 && State() == if commits then r.0 else old(State())
    {
      if id !in predictions {
        return NotFound;
      }
      ghost var before := State();
      var prediction, authz := predictions[id], RoleState(roles.rows, enforcer.links, enforcer.policies, audit.events);
      if !Can(authz, reviewer, "predictions", "relabel") {
        return PermissionDenied;
      }
      var canBypassConfidence := Can(authz, reviewer, "roles", "manage");
      if !canBypassConfidence && !prediction.eligible {
        return NotEligible;
      }
      var normalized := Normalize(text);
      if normalized !in RVL_CDIP_CLASSES {
        return InvalidLabel;
      }
      var rows, events := predictions, audit.events;
      predictions := predictions[id := prediction.(reviewLabel := Some(normalized), reviewer := Some(reviewer),
          reviewedAt := Some(now))];
      audit.Record(PredictionRelabeled(reviewer, id, prediction.predictedClass, normalized, prediction.confidence));
      if !commits {
        predictions, audit.events := rows, events;
      }
      outcome := Relabeled;
    }
  }

  // ---- which texts name a class ----

  ghost predicate AllSpace(s: string) {
    forall k :: 0 <= k < |s| ==> IsSpace(s[k])
  }

  /** `text` is `name` up to letter case and surrounding white space. */
  ghost predicate Spells(text: string, name: string) {
    exists i, j :: 0 <= i <= j <= |text| && SpelledAt(text, name, i, j)
  }

  ghost predicate SpelledAt(text: string, name: string, i: nat, j: nat)
    requires i <= j <= |text|
  {
    AllSpace(text[..i]) && AllSpace(text[j..]) && Lower(text[i..j]) == name
  }

  /** The service reads a text as a class exactly when it spells that class; so it spells at most one. */
  lemma ReadAsIffSpelt(text: string, name: string)
    requires name in RVL_CDIP_CLASSES
    ensures Normalize(text) == name <==> Spells(text, name)
  {
    if Normalize(text) == name {
      NormalizeSpells(text);
    }
    if Spells(text, name) {
      var i, j :| 0 <= i <= j <= |text| && SpelledAt(text, name, i, j);
      LettersAtEnds(name);
      SpeltIsRead(text, name, i, j);
    }
  }

  lemma LettersAtEnds(name: string)
    requires name in RVL_CDIP_CLASSES
    ensures |name| > 0 && 'a' <= name[0] <= 'z' && 'a' <= name[|name| - 1] <= 'z'
  {}

  lemma NormalizeSpells(text: string)
    ensures Spells(text, Normalize(text))
  {
    var i := LeftEnd(text);
    RightEnd(text[i..]);
    var j := i + |StripRight(text[i..])|;
    assert text[i..j] == text[i..][..j - i] && text[j..] == text[i..][j - i..];
    assert SpelledAt(text, Normalize(text), i, j);
  }

  lemma SpeltIsRead(text: string, name: string, i: nat, j: nat)
    requires |name| > 0 && 'a' <= name[0] <= 'z' && 'a' <= name[|name| - 1] <= 'z'
    requires i <= j <= |text| && SpelledAt(text, name, i, j)
    ensures Normalize(text) == name
  {
    var core, after := text[i..j], text[j..];
    assert text == text[..i] + (core + after);
    SkipsSpace(text[..i], core + after);
    DropsSpace(core, after);
  }

  lemma LeftEnd(s: string) returns (i: nat)
    ensures i <= |s| && AllSpace(s[..i]) && StripLeft(s) == s[i..]
  {
    i := 0;
    if s != "" && IsSpace(s[0]) {
      var j := LeftEnd(s[1..]);
      i := j + 1;
      assert s[..i] == [s[0]] + s[1..][..j];
    }
  }

  lemma RightEnd(s: string)
    ensures |StripRight(s)| <= |s| && StripRight(s) == s[..|StripRight(s)|] && AllSpace(s[|StripRight(s)|..])
  {
    if s != "" && IsSpace(s[|s| - 1]) {
      var front := s[..|s| - 1];
      RightEnd(front);
      var n := |StripRight(front)|;
      assert s[n..] == front[n..] + [s[|s| - 1]];
    }
  }

  lemma SkipsSpace(spaces: string, rest: string)
    requires AllSpace(spaces) && rest != "" && !IsSpace(rest[0])
    ensures StripLeft(spaces + rest) == rest
  {
    if spaces == "" {
      assert spaces + rest == rest;
    } else {
      assert (spaces + rest)[1..] == spaces[1..] + rest;
      SkipsSpace(spaces[1..], rest);
    }
  }

  lemma DropsSpace(core: string, spaces: string)
    requires AllSpace(spaces) && core != "" && !IsSpace(core[|core| - 1])
    ensures StripRight(core + spaces) == core
  {
    if spaces == "" {
      assert core + spaces == core;
    } else {
      assert (core + spaces)[..|core + spaces| - 1] == core + spaces[..|spaces| - 1];
      DropsSpace(core, spaces[..|spaces| - 1]);
    }
  }
}

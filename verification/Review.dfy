/** Predictions after they are stored: who may relabel them, and what a relabelling leaves alone. */
module Review {
  import opened Common
  import opened Audit
  import opened Store
  import opened Classifier
  import opened Roles
  import opened RoleTheorems

  const RVL_CDIP_CLASSES: set<string> := {
    "letter", "form", "email", "handwritten", "advertisement", "scientific report", "scientific publication",
    "specification", "file folder", "news article", "budget", "invoice", "presentation", "questionnaire",
    "resume", "memo"}

  /** What Python's `str.strip` removes. */
  predicate IsSpace(c: char) {
    var n := c as int;
    9 <= n <= 13 || 28 <= n <= 32 || n == 0x85 || n == 0xA0 || n == 0x1680 || 0x2000 <= n <= 0x200A
    || n == 0x2028 || n == 0x2029 || n == 0x202F || n == 0x205F || n == 0x3000
  }

  function StripLeft(s: string): string {
    if s != "" && IsSpace(s[0]) then StripLeft(s[1..]) else s
  }

  function StripRight(s: string): string {
    if s != "" && IsSpace(s[|s| - 1]) then StripRight(s[..|s| - 1]) else s
  }

  function Lower(s: string): (r: string)
    ensures |r| == |s| && forall i :: 0 <= i < |s| ==> r[i] == LowerChar(s[i])
  {
    seq(|s|, i requires 0 <= i < |s| => LowerChar(s[i]))
  }

  /** `review_label.strip().lower()`. */
  function Normalize(s: string): string { Lower(StripRight(StripLeft(s))) }

  /** Predictions next to the role state; its log is the one audit log of the program. */
  datatype ReviewState = ReviewState(predictions: map<Id, Prediction>, roles: RoleState)

  datatype ReviewOutcome = Relabeled | NotFound | PermissionDenied | NotEligible | InvalidLabel

  function Relabel(s: ReviewState, id: Id, text: string, reviewer: UserId, now: Time): (ReviewState, ReviewOutcome) {
    if id !in s.predictions then (s, NotFound)
    else if !Can(s.roles, reviewer, "predictions", "relabel") then (s, PermissionDenied)
    else if !Can(s.roles, reviewer, "roles", "manage") && !s.predictions[id].eligible then (s, NotEligible)
    else
      var normalized := Normalize(text);
      if normalized !in RVL_CDIP_CLASSES then (s, InvalidLabel)
      else
        var p := s.predictions[id];
        (s.(predictions := s.predictions[id := p.(reviewLabel := Some(normalized), reviewer := Some(reviewer),
            reviewedAt := Some(now))],
            roles := s.roles.(log := s.roles.log
                + [PredictionRelabeled(reviewer, id, p.predictedClass, normalized, p.confidence)])),
         Relabeled)
  }

  /** `persist_result` seen from here; a key is never drawn twice. */
  function Persist(s: ReviewState, id: Id, d: Id, meta: Id, r: Inference): ReviewState {
    if id in s.predictions then s
    else
      var p := NewPrediction(d, meta, r);
      s.(predictions := s.predictions[id := p],
         roles := s.roles.(log := s.roles.log
             + [DocumentClassified(id, d, r.predictedClass, r.confidence, p.eligible)]))
  }

  /** A relabelling whose commit fails is rolled back whole. */
  datatype Action =
    | PersistResult(id: Id, documentId: Id, meta: Id, result: Inference)
    | RelabelPrediction(id: Id, text: string, reviewer: UserId, now: Time, commits: bool)
    | ChangeRoles(attempt: Attempt)

  predicate LegalAction(a: Action) {
    a.ChangeRoles? ==> WellFormed(a.attempt.op)
  }

  function Act(s: ReviewState, a: Action): ReviewState
    requires LegalAction(a)
  {
    match a
    case PersistResult(id, d, meta, r) => Persist(s, id, d, meta, r)
    case RelabelPrediction(id, text, reviewer, now, commits) =>
      if commits then Relabel(s, id, text, reviewer, now).0 else s
    case ChangeRoles(attempt) => s.(roles := Do(s.roles, attempt).0)
  }

  ghost predicate LegalActions(acts: seq<Action>) {
    forall k :: 0 <= k < |acts| ==> LegalAction(acts[k])
  }

  function RunActions(s: ReviewState, acts: seq<Action>): ReviewState
    requires forall k :: 0 <= k < |acts| ==> LegalAction(acts[k])
  {
    if acts == [] then s else Act(RunActions(s, acts[..|acts| - 1]), acts[|acts| - 1])
  }

  // ---- what every run keeps ----

  /** The event of the last relabelling of a prediction in the log. */
  function LastRelabel(log: seq<Event>, id: Id): Option<Event> {
    if log == [] then None
    else
      var e := log[|log| - 1];
      if e.PredictionRelabeled? && e.predictionId == id then Some(e) else LastRelabel(log[..|log| - 1], id)
  }

  /** All review fields are set or none is, and the last event agrees with them and with what the model said. */
  ghost predicate ReviewFieldsOk(p: Prediction, last: Option<Event>) {
    && (p.eligible <==> p.confidence < REVIEW_CONFIDENCE_THRESHOLD)
    && (p.reviewedAt.Some? <==> p.reviewLabel.Some?)
    && (p.reviewLabel.Some? ==> p.reviewLabel.value in RVL_CDIP_CLASSES)
    && match last
       case None => p.reviewLabel.None? && p.reviewer.None?
       case Some(e) =>
         && e.PredictionRelabeled? && p.reviewer == Some(e.actor) && p.reviewLabel == Some(e.reviewLabel)
         && e.originalClass == p.predictedClass && e.confidence == p.confidence
  }

  ghost predicate ReviewOk(s: ReviewState) {
    && (forall id :: id in s.predictions ==> ReviewFieldsOk(s.predictions[id], LastRelabel(s.roles.log, id)))
    && (forall id :: id !in s.predictions ==> LastRelabel(s.roles.log, id).None?)
  }

  /** What one more event makes of the last relabelling. */
  function Relabelled(last: Option<Event>, e: Event, id: Id): Option<Event> {
    if e.PredictionRelabeled? && e.predictionId == id then Some(e) else last
  }

  lemma LastRelabelSnoc(log: seq<Event>, e: Event)
    ensures forall id :: LastRelabel(log + [e], id) == Relabelled(LastRelabel(log, id), e, id)
  {
    assert (log + [e])[..|log|] == log;
  }

  lemma ActKeeps(s: ReviewState, a: Action)
    requires LegalAction(a) && ReviewOk(s)
    ensures ReviewOk(Act(s, a))
  {
    hide ReviewOk, Persist, Relabel, Do;
    match a
    case PersistResult(id, d, meta, r) => PersistKeeps(s, id, d, meta, r);
    case RelabelPrediction(id, text, reviewer, now, _) => RelabelKeeps(s, id, text, reviewer, now);
    case ChangeRoles(attempt) => ChangeKeeps(s, attempt);
  }

  lemma PersistKeeps(s: ReviewState, id: Id, d: Id, meta: Id, r: Inference)
    requires ReviewOk(s)
    ensures ReviewOk(Persist(s, id, d, meta, r))
  {
    hide LastRelabel;
    var n := Persist(s, id, d, meta, r);
    if n != s {
      LastRelabelSnoc(s.roles.log,
          DocumentClassified(id, d, r.predictedClass, r.confidence, n.predictions[id].eligible));
    }
  }

  lemma RelabelKeeps(s: ReviewState, id: Id, text: string, reviewer: UserId, now: Time)
    requires ReviewOk(s)
    ensures ReviewOk(Relabel(s, id, text, reviewer, now).0)
  {
    hide LastRelabel, Can, Normalize;
    var n := Relabel(s, id, text, reviewer, now).0;
    if n != s {
      var p := s.predictions[id];
      LastRelabelSnoc(s.roles.log, PredictionRelabeled(reviewer, id, p.predictedClass, Normalize(text), p.confidence));
    }
  }

  lemma ChangeKeeps(s: ReviewState, attempt: Attempt)
    requires ReviewOk(s) && WellFormed(attempt.op)
    ensures ReviewOk(s.(roles := Do(s.roles, attempt).0))
  {
    OneRoleEvent(s.roles, attempt);
    hide LastRelabel, Do;
    var log := Do(s.roles, attempt).0.log;
    if log != s.roles.log {
      var e: Event :| !e.PredictionRelabeled? && log == s.roles.log + [e];
      LastRelabelSnoc(s.roles.log, e);
    }
  }

  lemma OneRoleEvent(s: RoleState, a: Attempt)
    requires WellFormed(a.op)
    ensures var log := Do(s, a).0.log;
            log == s.log || exists e: Event :: !e.PredictionRelabeled? && log == s.log + [e]
  {
    hide Can;
  }

  /** The review fields of every prediction are all set or all unset, valid, and what the audit log says last. */
  lemma {:induction false} ReviewFieldsFollowLog(s: ReviewState, acts: seq<Action>)
    requires LegalActions(acts) && ReviewOk(s)
    ensures ReviewOk(RunActions(s, acts))
  {
    hide ReviewOk, Act;
    if acts != [] {
      ReviewFieldsFollowLog(s, acts[..|acts| - 1]);
      ActKeeps(RunActions(s, acts[..|acts| - 1]), acts[|acts| - 1]);
    }
  }

  ghost predicate SameReview(p: Prediction, q: Prediction) {
    p.reviewLabel == q.reviewLabel && p.reviewer == q.reviewer && p.reviewedAt == q.reviewedAt
  }

  /** One of the actions is a committed relabelling of this prediction by that person, to that label, at that time. */
  ghost predicate ReviewFrom(acts: seq<Action>, id: Id, p: Prediction) {
    exists k :: 0 <= k < |acts| && Made(acts[k], id, p)
  }

  ghost predicate Made(a: Action, id: Id, p: Prediction) {
    && a.RelabelPrediction? && a.commits && a.id == id && p.reviewer == Some(a.reviewer)
    && p.reviewedAt == Some(a.now) && p.reviewLabel == Some(Normalize(a.text))
  }

  /** The review of a prediction is the one from before the run, none, or what one relabelling of the run asked for. */
  lemma {:induction false} ReviewHasSource(s: ReviewState, acts: seq<Action>, id: Id)
    requires LegalActions(acts) && id in RunActions(s, acts).predictions
    ensures var p := RunActions(s, acts).predictions[id];
            || (id in s.predictions && SameReview(p, s.predictions[id]))
            || (id !in s.predictions && p.reviewLabel.None? && p.reviewer.None? && p.reviewedAt.None?)
            || ReviewFrom(acts, id, p)
  {
    hide Act, Normalize, Made;
    if acts != [] {
      var front, a := acts[..|acts| - 1], acts[|acts| - 1];
      var m, n := RunActions(s, front), RunActions(s, acts);
      ReviewStep(m, a, id);
      if Made(a, id, n.predictions[id]) {
        assert Made(acts[|acts| - 1], id, n.predictions[id]);
      } else if id in m.predictions {
        ReviewHasSource(s, front, id);
        SameMaker(front, acts, id, m.predictions[id], n.predictions[id]);
      } else {
        NeverLost(s, front, id);
      }
    }
  }

  lemma ReviewStep(s: ReviewState, a: Action, id: Id)
    requires LegalAction(a) && id in Act(s, a).predictions
    ensures var p := Act(s, a).predictions[id];
            || Made(a, id, p)
            || (id in s.predictions && SameReview(p, s.predictions[id]))
            || (id !in s.predictions && p.reviewLabel.None? && p.reviewer.None? && p.reviewedAt.None?)
    ensures id in s.predictions ==> id in Act(s, a).predictions
  {
    hide Can, Normalize, Do;
  }

  lemma SameMaker(front: seq<Action>, acts: seq<Action>, id: Id, p: Prediction, q: Prediction)
    requires front <= acts && SameReview(p, q)
    ensures ReviewFrom(front, id, p) ==> ReviewFrom(acts, id, q)
  {
    if ReviewFrom(front, id, p) {
      var k :| 0 <= k < |front| && Made(front[k], id, p);
      assert Made(acts[k], id, q);
    }
  }

  lemma {:induction false} NeverLost(s: ReviewState, acts: seq<Action>, id: Id)
    requires LegalActions(acts)
    ensures id in s.predictions ==> id in RunActions(s, acts).predictions
  {
    hide Can, Normalize, Do;
    if acts != [] { NeverLost(s, acts[..|acts| - 1], id); }
  }

  /** What the model said is never touched again. */
  lemma {:induction false} ModelOutputIsImmutable(s: ReviewState, acts: seq<Action>, id: Id)
    requires LegalActions(acts) && id in s.predictions
    ensures var n := RunActions(s, acts);
            id in n.predictions && n.predictions[id].(reviewLabel := s.predictions[id].reviewLabel,
              reviewer := s.predictions[id].reviewer, reviewedAt := s.predictions[id].reviewedAt) == s.predictions[id]
  {
    hide Can, Normalize, Apply;
    if acts != [] {
      ModelOutputIsImmutable(s, acts[..|acts| - 1], id);
    }
  }

  /** A relabelling succeeds exactly under these conditions; in every other case nothing changes. */
  lemma RelabelSucceedsIff(s: ReviewState, id: Id, text: string, reviewer: UserId, now: Time)
    requires Seeded(s.roles)
    ensures var admin := LinkOf(reviewer, "admin") in s.roles.links;
            var plain := LinkOf(reviewer, "reviewer") in s.roles.links;
            var r := Relabel(s, id, text, reviewer, now);
            && (r.1.Relabeled? <==> id in s.predictions && (admin || (plain && s.predictions[id].eligible))
                                    && Normalize(text) in RVL_CDIP_CLASSES)
            && (r.1.NotFound? <==> id !in s.predictions)
            && (r.1.PermissionDenied? <==> id in s.predictions && !admin && !plain)
            && (r.1.NotEligible? <==> id in s.predictions && !admin && plain && !s.predictions[id].eligible)
            && (!r.1.Relabeled? ==> r.0 == s)
            && r.0.roles == s.roles.(log := r.0.roles.log)
            && |r.0.roles.log| == |s.roles.log| + (if r.1.Relabeled? then 1 else 0)
            && r.0.predictions.Keys == s.predictions.Keys
            && (forall i :: i in s.predictions && i != id ==> r.0.predictions[i] == s.predictions[i])
    ensures Agree(s.roles) ==>
      && (LinkOf(reviewer, "admin") in s.roles.links <==> HasActive(s.roles.rows, reviewer, "admin"))
      && (LinkOf(reviewer, "reviewer") in s.roles.links <==> HasActive(s.roles.rows, reviewer, "reviewer"))
  {
    hide Can, Seeded, HasActive, Normalize;
    MayManage(s.roles, reviewer);
    MayRelabel(s.roles, reviewer);
  }

  lemma MayRelabel(s: RoleState, u: UserId)
    requires Seeded(s)
    ensures Can(s, u, "predictions", "relabel") <==> LinkOf(u, "admin") in s.links || LinkOf(u, "reviewer") in s.links
  {
    CanIsDirect(s, u, "predictions", "relabel");
    assert ("admin", "predictions", "relabel") in BASELINE_POLICIES;
    assert ("reviewer", "predictions", "relabel") in BASELINE_POLICIES;
  }

  /** No attempt of the actions has parted SQL and Casbin. */
  ghost predicate NoneBreaks(s: ReviewState, acts: seq<Action>)
    requires LegalActions(acts)
  {
    forall k :: 0 <= k < |acts| && acts[k].ChangeRoles? ==> !Breaks(RunActions(s, acts[..k]).roles, acts[k].attempt)
  }

  lemma ActRoles(s: ReviewState, a: Action)
    requires LegalAction(a)
    ensures Seeded(s.roles) ==> Seeded(Act(s, a).roles)
    ensures Agree(s.roles) && (a.ChangeRoles? ==> !Breaks(s.roles, a.attempt)) ==> Agree(Act(s, a).roles)
  {
    hide Can, Normalize, Do, Breaks, Agree, LinksOk;
    if a.ChangeRoles? {
      if LinksOk(s.roles.links) { LinksStep(s.roles, a.attempt); }
      if Agree(s.roles) { AttemptBreaksIff(s.roles, a.attempt); }
    } else {
      var n := Act(s, a).roles;
      assert n == s.roles.(log := n.log);
      SameAgreement(s.roles, n);
    }
  }

  lemma SameAgreement(s: RoleState, n: RoleState)
    requires n == s.(log := n.log)
    ensures Agree(n) <==> Agree(s)
  {}

  lemma {:induction false} RolesRun(s: ReviewState, acts: seq<Action>)
    requires LegalActions(acts) && Seeded(s.roles)
    ensures Seeded(RunActions(s, acts).roles)
    ensures Agree(s.roles) && NoneBreaks(s, acts) ==> Agree(RunActions(s, acts).roles)
  {
    hide Seeded, Agree, Breaks, Act;
    if acts != [] {
      var front := acts[..|acts| - 1];
      assert forall k :: 0 <= k < |front| ==> front[..k] == acts[..k];
      RolesRun(s, front);
      ActRoles(RunActions(s, front), acts[|acts| - 1]);
    }
  }

  /**
   Whoever relabels a confident prediction is an admin for Casbin at that moment, at any point of any run; and has
   an active admin row, if no earlier attempt has parted SQL and Casbin.
   */
  lemma ConfidentRelabelNeedsAdmin(s: ReviewState, acts: seq<Action>, k: nat)
    requires LegalActions(acts) && ReviewOk(s) && Seeded(s.roles) && k < |acts| && acts[k].RelabelPrediction?
    requires LegalActions(acts[..k]) && RunActions(s, acts[..k]) != Act(RunActions(s, acts[..k]), acts[k])
    ensures var before := RunActions(s, acts[..k]);
            var a := acts[k];
            var confident := a.id in before.predictions
                && before.predictions[a.id].confidence >= REVIEW_CONFIDENCE_THRESHOLD;
            && a.id in before.predictions
            && (confident ==> LinkOf(a.reviewer, "admin") in before.roles.links)
            && (LinkOf(a.reviewer, "admin") in before.roles.links
                || LinkOf(a.reviewer, "reviewer") in before.roles.links)
            && (Agree(s.roles) && NoneBreaks(s, acts[..k]) ==>
                  && (confident ==> HasActive(before.roles.rows, a.reviewer, "admin"))
                  && (HasActive(before.roles.rows, a.reviewer, "admin")
                      || HasActive(before.roles.rows, a.reviewer, "reviewer")))
  {
    hide Seeded, Relabel, RunActions, NoneBreaks, HasActive;
    ReviewFieldsFollowLog(s, acts[..k]);
    RolesRun(s, acts[..k]);
    var before := RunActions(s, acts[..k]);
    RelabelSucceedsIff(before, acts[k].id, acts[k].text, acts[k].reviewer, acts[k].now);
  }

  /** The row alone is not needed: an assignment that fails after its Casbin write makes an admin without one. */
  lemma ConfidentRelabelWithoutRow(s: ReviewState, admin: UserId, u: UserId, id: Id, text: string, t: Time)
    requires Seeded(s.roles) && Agree(s.roles) && HasActive(s.roles.rows, admin, "admin")
    requires !HasActive(s.roles.rows, u, "admin") && id in s.predictions
    requires Normalize(text) in RVL_CDIP_CLASSES
    ensures var n := Act(s, ChangeRoles(Attempt(Assign(u, "admin", admin, t), FailsAfter(1))));
            !HasActive(n.roles.rows, u, "admin") && Relabel(n, id, text, u, t).1.Relabeled?
  {
    hide Can, Normalize, LinksOk;
    var a := Attempt(Assign(u, "admin", admin, t), FailsAfter(1));
    assert LinkOf(admin, "admin") in s.roles.links;
    MayManage(s.roles, admin);
    PositionsOf(s.roles.rows, u, "admin");
    LinksStep(s.roles, a);
    RelabelSucceedsIff(Act(s, ChangeRoles(a)), id, text, u, t);
  }

  // ---- labels ----

  lemma ClassesAreTheLabels()
    ensures RVL_CDIP_CLASSES == set l | l in RVL_CDIP_LABELS
  {
    forall l | l in RVL_CDIP_CLASSES ensures l in RVL_CDIP_LABELS {
      assert exists i :: 0 <= i < 16 && RVL_CDIP_LABELS[i] == l;
    }
  }
}

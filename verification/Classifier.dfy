/**
 From logits to a prediction (backend/app/classifier/inference.py) and the class list it relies on
 (backend/app/classifier/validation.py). Numbers are exact reals and `exp` is any positive, strictly
 increasing function.
 */
module Classifier {
  import opened Common
  import opened Store

  const RVL_CDIP_LABELS: seq<string> := [
    "letter", "form", "email", "handwritten", "advertisement", "scientific report", "scientific publication",
    "specification", "file folder", "news article", "budget", "invoice", "presentation", "questionnaire",
    "resume", "memo"]

  ghost predicate ExpLike(exp: real -> real) {
    && (forall x :: exp(x) > 0.0)
    && (forall x, y | x < y :: exp(x) < exp(y))
  }

  function Sum(s: seq<real>): real {
    if s == [] then 0.0 else Sum(s[..|s| - 1]) + s[|s| - 1]
  }

  function Exps(exp: real -> real, logits: seq<real>): (r: seq<real>)
    ensures |r| == |logits| && forall i :: 0 <= i < |r| ==> r[i] == exp(logits[i])
  {
    seq(|logits|, i requires 0 <= i < |logits| => exp(logits[i]))
  }

  /** `torch.softmax` of one row. */
  function Softmax(exp: real -> real, logits: seq<real>): (r: seq<real>)
    requires Sum(Exps(exp, logits)) != 0.0
    ensures |r| == |logits|
    ensures forall i :: 0 <= i < |r| ==> r[i] == exp(logits[i]) / Sum(Exps(exp, logits))
  {
    seq(|logits|, i requires 0 <= i < |logits| => exp(logits[i]) / Sum(Exps(exp, logits)))
  }

  /** An index of the greatest element. */
  function ArgMax(s: seq<real>): (k: nat)
    requires s != []
    ensures k < |s| && forall i :: 0 <= i < |s| ==> s[i] <= s[k]
  {
    if |s| == 1 then 0
    else
      var k := ArgMax(s[..|s| - 1]);
      if s[|s| - 1] > s[k] then |s| - 1 else k
  }

  /** The dict comprehension over `enumerate(classes)`: a repeated label keeps its last score. */
  function ClassScores(labels: seq<string>, probs: seq<real>): map<string, real>
    requires |labels| <= |probs|
  {
    if labels == [] then map[]
    else ClassScores(labels[..|labels| - 1], probs)[labels[|labels| - 1] := probs[|labels| - 1]]
  }

  datatype InferenceResult = InferenceResult(
    predictedClass: string, labelIndex: nat, confidence: real, scores: map<string, real>)

  /** Nothing when an index is out of range, which Python reports as an IndexError. */
  function RunInference(exp: real -> real, logits: seq<real>, labels: seq<string>): Option<InferenceResult>
    requires logits != [] ==> Sum(Exps(exp, logits)) != 0.0
  {
    if logits == [] || |labels| > |logits| then None
    else
      var probs := Softmax(exp, logits);
      var top := ArgMax(probs);
      if top >= |labels| then None
      else Some(InferenceResult(labels[top], top, probs[top], ClassScores(labels, probs)))
  }

  // ---- sums ----

  lemma {:induction false} SumPositive(s: seq<real>)
    requires forall i :: 0 <= i < |s| ==> s[i] > 0.0
    ensures Sum(s) >= 0.0 && (s != [] ==> Sum(s) > 0.0)
  {
    if s != [] { SumPositive(s[..|s| - 1]); }
  }

  lemma {:induction false} SumScaled(s: seq<real>, t: seq<real>, c: real)
    requires c != 0.0 && |s| == |t| && forall i :: 0 <= i < |s| ==> t[i] == s[i] / c
    ensures Sum(t) == Sum(s) / c
  {
    if s == [] {
      assert 0.0 / c == 0.0;
    } else {
      SumScaled(s[..|s| - 1], t[..|t| - 1], c);
      QuotientOfSum(Sum(s[..|s| - 1]), s[|s| - 1], c);
    }
  }

  lemma QuotientOfSum(a: real, b: real, c: real)
    requires c != 0.0
    ensures (a + b) / c == a / c + b / c
  {}

  lemma {:induction false} SumBounded(s: seq<real>, m: real)
    requires forall i :: 0 <= i < |s| ==> s[i] <= m
    ensures Sum(s) <= |s| as real * m
  {
    if s != [] { SumBounded(s[..|s| - 1], m); }
  }

  lemma {:induction false} SumWithout(s: seq<real>, k: nat)
    requires k < |s|
    ensures Sum(s) == s[k] + Sum(s[..k] + s[k + 1..])
  {
    var front, last := s[..|s| - 1], s[|s| - 1];
    if k == |s| - 1 {
      assert s[..k] + s[k + 1..] == front;
    } else {
      SumWithout(front, k);
      var rest := s[..k] + s[k + 1..];
      assert rest[..|rest| - 1] == front[..k] + front[k + 1..] && rest[|rest| - 1] == last;
    }
  }

  // ---- what a prediction promises ----

  lemma SoftmaxIsDistribution(exp: real -> real, logits: seq<real>)
    requires ExpLike(exp) && logits != []
    ensures Sum(Exps(exp, logits)) > 0.0
    ensures Sum(Softmax(exp, logits)) == 1.0
    ensures forall i :: 0 <= i < |logits| ==> 0.0 < Softmax(exp, logits)[i] <= 1.0
  {
    hide ExpLike, Sum, Softmax, Exps;
    ExpsPositive(exp, logits);
    SharesSumToOne(Exps(exp, logits), Softmax(exp, logits));
  }

  lemma SharesSumToOne(e: seq<real>, p: seq<real>)
    requires e != [] && |p| == |e| && Sum(e) > 0.0
    requires forall i :: 0 <= i < |e| ==> e[i] > 0.0
    requires forall i :: 0 <= i < |e| ==> p[i] == e[i] / Sum(e)
    ensures Sum(p) == 1.0 && forall i :: 0 <= i < |p| ==> 0.0 < p[i] <= 1.0
  {
    hide Sum;
    SumScaled(e, p, Sum(e));
    SelfQuotient(Sum(e));
    forall i | 0 <= i < |p| ensures p[i] > 0.0 { Quotient(e[i], Sum(e)); }
    forall i | 0 <= i < |p| ensures p[i] <= 1.0 { PartOfSum(p, i); }
  }

  lemma SelfQuotient(c: real)
    requires c != 0.0
    ensures c / c == 1.0
  {}

  lemma ExpsPositive(exp: real -> real, logits: seq<real>)
    requires ExpLike(exp)
    ensures forall i :: 0 <= i < |logits| ==> Exps(exp, logits)[i] > 0.0
    ensures logits != [] ==> Sum(Exps(exp, logits)) > 0.0
  {
    var e := Exps(exp, logits);
    forall i | 0 <= i < |logits| ensures e[i] > 0.0 {
      var x := logits[i];
      assert exp(x) > 0.0;
    }
    SumPositive(e);
  }

  /** The shares of two logits are ordered as the logits are. */
  lemma ShareOrder(exp: real -> real, a: real, b: real, total: real)
    requires ExpLike(exp) && total > 0.0
    ensures exp(a) / total <= exp(b) / total <==> a <= b
  {
    Increasing(exp, a, b);
    hide ExpLike;
    QuotientOrder(exp(a), exp(b), total);
  }

  lemma Increasing(exp: real -> real, a: real, b: real)
    requires ExpLike(exp)
    ensures exp(a) <= exp(b) <==> a <= b
  {
    if a > b { assert exp(b) < exp(a); }
    if a < b { assert exp(a) < exp(b); }
  }

  lemma PartOfSum(s: seq<real>, i: nat)
    requires i < |s| && forall k :: 0 <= k < |s| ==> s[k] > 0.0
    ensures s[i] <= Sum(s)
  {
    SumWithout(s, i);
    SumPositive(s[..i] + s[i + 1..]);
  }

  lemma Quotient(a: real, b: real)
    requires a > 0.0 && b > 0.0
    ensures a / b > 0.0
  {}

  lemma QuotientOrder(a: real, b: real, c: real)
    requires c > 0.0
    ensures a <= b <==> a / c <= b / c
  {}

  /** At least one n-th. */
  predicate AtLeastShare(c: real, n: nat) { c * n as real >= 1.0 }

  /** The predicted class has the greatest logit, and the confidence is at least the average. */
  lemma PredictsArgMax(exp: real -> real, logits: seq<real>, labels: seq<string>)
    requires ExpLike(exp) && logits != [] && |labels| == |logits|
    ensures Sum(Exps(exp, logits)) > 0.0
    ensures var r := RunInference(exp, logits, labels);
            && r.Some? && r.value.labelIndex < |logits| && r.value.predictedClass == labels[r.value.labelIndex]
            && (forall i :: 0 <= i < |logits| ==> logits[i] <= logits[r.value.labelIndex])
            && AtLeastShare(r.value.confidence, |logits|)
  {
    hide ExpLike, AtLeastShare, Sum, Softmax, Exps, ClassScores;
    SoftmaxIsDistribution(exp, logits);
    TopLogit(exp, logits);
    var p := Softmax(exp, logits);
    AboveAverage(p, ArgMax(p));
  }

  lemma TopLogit(exp: real -> real, logits: seq<real>)
    requires ExpLike(exp) && logits != [] && Sum(Exps(exp, logits)) > 0.0
    ensures forall i :: 0 <= i < |logits| ==> logits[i] <= logits[ArgMax(Softmax(exp, logits))]
  {
    hide ExpLike, Sum, Softmax, Exps, ArgMax;
    var p, total := Softmax(exp, logits), Sum(Exps(exp, logits));
    var top := ArgMax(p);
    forall i | 0 <= i < |logits| ensures logits[i] <= logits[top] {
      ShareOrder(exp, logits[i], logits[top], total);
      assert p[i] <= p[top];
    }
  }

  lemma AboveAverage(p: seq<real>, top: nat)
    requires Sum(p) == 1.0 && top < |p| && forall i :: 0 <= i < |p| ==> p[i] <= p[top]
    ensures AtLeastShare(p[top], |p|)
  {
    SumBounded(p, p[top]);
  }

  lemma {:induction false} ScoreOfLabel(labels: seq<string>, probs: seq<real>, k: nat)
    requires |labels| <= |probs| && k < |labels| && Distinct(labels)
    ensures ClassScores(labels, probs).Keys == set l | l in labels
    ensures labels[k] in ClassScores(labels, probs) && ClassScores(labels, probs)[labels[k]] == probs[k]
  {
    var front, last := labels[..|labels| - 1], labels[|labels| - 1];
    assert labels == front + [last];
    if |labels| == 1 {
      assert ClassScores(front, probs) == map[];
    } else if k == |labels| - 1 {
      ScoreOfLabel(front, probs, 0);
    } else {
      ScoreOfLabel(front, probs, k);
      assert labels[k] != last;
    }
  }

  /** With distinct labels the stored score map repeats the confidence under the predicted class. */
  lemma ScoresAgreeWithConfidence(exp: real -> real, logits: seq<real>, labels: seq<string>)
    requires ExpLike(exp) && logits != [] && |labels| == |logits| && Distinct(labels)
    ensures Sum(Exps(exp, logits)) > 0.0
    ensures var r := RunInference(exp, logits, labels);
            && r.Some? && r.value.predictedClass in r.value.scores
            && r.value.scores[r.value.predictedClass] == r.value.confidence
            && (forall i :: 0 <= i < |labels| ==>
                  labels[i] in r.value.scores && r.value.scores[labels[i]] <= r.value.confidence)
  {
    hide ExpLike, Sum, Softmax, Exps, ArgMax, ClassScores, Distinct;
    SoftmaxIsDistribution(exp, logits);
    var p := Softmax(exp, logits);
    var top := ArgMax(p);
    forall i | 0 <= i < |labels|
      ensures labels[i] in ClassScores(labels, p) && ClassScores(labels, p)[labels[i]] == p[i]
    {
      ScoreOfLabel(labels, p, i);
    }
  }

  /** With distinct labels the stored scores are the softmax, each label's own share; the confidence is the top one. */
  lemma ScoresAreShares(exp: real -> real, logits: seq<real>, labels: seq<string>)
    requires ExpLike(exp) && logits != [] && |labels| == |logits| && Distinct(labels)
    ensures Sum(Exps(exp, logits)) > 0.0
    ensures var r := RunInference(exp, logits, labels);
            var total := Sum(Exps(exp, logits));
            && r.Some? && r.value.labelIndex < |logits|
            && r.value.scores.Keys == (set l | l in labels)
            && (forall i :: 0 <= i < |labels| ==> r.value.scores[labels[i]] == exp(logits[i]) / total)
            && r.value.confidence == exp(logits[r.value.labelIndex]) / total
  {
    hide ExpLike, Sum, Softmax, Exps, ArgMax, ClassScores, Distinct;
    SoftmaxIsDistribution(exp, logits);
    var p := Softmax(exp, logits);
    forall i | 0 <= i < |labels|
      ensures labels[i] in ClassScores(labels, p) && ClassScores(labels, p)[labels[i]] == p[i]
    {
      ScoreOfLabel(labels, p, i);
    }
    ScoreOfLabel(labels, p, 0);
  }

  /** And they sum to 1: nothing of the distribution is lost in the map. */
  lemma ScoresSumToOne(exp: real -> real, logits: seq<real>, labels: seq<string>)
    requires ExpLike(exp) && logits != [] && |labels| == |logits| && Distinct(labels)
    ensures Sum(Exps(exp, logits)) > 0.0
    ensures var r := RunInference(exp, logits, labels);
            && r.Some? && (forall i :: 0 <= i < |labels| ==> labels[i] in r.value.scores)
            && Sum(ScoresOf(r.value.scores, labels)) == 1.0
  {
    hide ExpLike, Sum, Exps, ClassScores, Distinct, ArgMax;
    ScoresAreShares(exp, logits, labels);
    SoftmaxIsDistribution(exp, logits);
    var r := RunInference(exp, logits, labels);
    forall i | 0 <= i < |labels| ensures labels[i] in r.value.scores { assert labels[i] in (set l | l in labels); }
    assert ScoresOf(r.value.scores, labels) == Softmax(exp, logits);
  }

  /** The scores in the order of the class list. */
  function ScoresOf(scores: map<string, real>, labels: seq<string>): (r: seq<real>)
    requires forall i :: 0 <= i < |labels| ==> labels[i] in scores
    ensures |r| == |labels| && forall i :: 0 <= i < |r| ==> r[i] == scores[labels[i]]
  {
    seq(|labels|, i requires 0 <= i < |labels| => scores[labels[i]])
  }

  /** A prediction that is not eligible for review is the unique maximum; all other classes share at most 0.3. */
  lemma ConfidentPredictionIsUnique(exp: real -> real, logits: seq<real>, labels: seq<string>)
    requires ExpLike(exp) && logits != [] && |labels| == |logits|
    ensures Sum(Exps(exp, logits)) > 0.0
    ensures var r := RunInference(exp, logits, labels);
            var p := Softmax(exp, logits);
            r.Some? && r.value.labelIndex < |p|
            && (r.value.confidence >= REVIEW_CONFIDENCE_THRESHOLD ==>
                  var top := r.value.labelIndex;
                  && Sum(p[..top] + p[top + 1..]) <= 0.3
                  && forall i :: 0 <= i < |logits| && i != top ==> p[i] <= 0.3 && logits[i] < logits[top])
  {
    hide ExpLike, Sum, Softmax, Exps, ArgMax, ClassScores;
    SoftmaxIsDistribution(exp, logits);
    var p := Softmax(exp, logits);
    var top := ArgMax(p);
    if p[top] >= REVIEW_CONFIDENCE_THRESHOLD {
      OthersShare(p, top);
      forall i | 0 <= i < |logits| && i != top ensures logits[i] < logits[top] {
        ShareOrder(exp, logits[top], logits[i], Sum(Exps(exp, logits)));
        assert p[i] <= 0.3;
      }
    }
  }

  /** What is left of a distribution beside a share of 0.7 or more. */
  lemma OthersShare(p: seq<real>, top: nat)
    requires top < |p| && Sum(p) == 1.0 && p[top] >= REVIEW_CONFIDENCE_THRESHOLD
    requires forall i :: 0 <= i < |p| ==> p[i] > 0.0
    ensures Sum(p[..top] + p[top + 1..]) <= 0.3
    ensures forall i :: 0 <= i < |p| && i != top ==> p[i] <= 0.3
  {
    hide Sum;
    SumWithout(p, top);
    var rest := p[..top] + p[top + 1..];
    forall i | 0 <= i < |p| && i != top ensures p[i] <= 0.3 {
      var k := if i < top then i else i - 1;
      assert rest[k] == p[i];
      PartOfSum(rest, k);
    }
  }
}

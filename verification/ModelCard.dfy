/** The model card checks of backend/app/classifier/validation.py that decide whether the worker starts. */
module ModelCard {
  import opened Common
  import opened Classifier

  datatype Artifact = Artifact(sha256: Option<string>, sizeBytes: Option<int>, path: Option<string>)

  /** The parsed JSON: an absent key is `None`; `classes` may be there and not be a list. */
  datatype Classes = NotAList | AList(labels: seq<string>)

  datatype RawCard = RawCard(
    backbone: Option<string>, numClasses: Option<int>, classes: Option<Classes>, artifact: Option<Artifact>,
    hasInput: bool, top1: Option<Option<real>>, threshold: Option<real>)

  datatype Card = Card(backbone: string, classes: seq<string>, sha256: string, top1: real, threshold: real)

  datatype CardError =
    | Missing | MissingKeys | BadBackbone | BadCount | BadClasses | WrongLabels | BadArtifact
    | NoClassifier | ChecksumMismatch | BelowThreshold

  datatype Validated = Accepted(card: Card) | Rejected(error: CardError)

  const SUPPORTED_ARCHITECTURES: set<string> := {"convnext_tiny", "convnext_small"}

  predicate AllKeys(raw: RawCard) {
    raw.backbone.Some? && raw.numClasses.Some? && raw.classes.Some? && raw.artifact.Some? && raw.hasInput
    && raw.top1.Some? && raw.threshold.Some?
  }

  function LoadAndValidate(file: Option<RawCard>): Validated {
    if file.None? then Rejected(Missing)
    else
      var raw := file.value;
      if !AllKeys(raw) then Rejected(MissingKeys)
      else if raw.backbone.value !in SUPPORTED_ARCHITECTURES then Rejected(BadBackbone)
      else if raw.numClasses.value != 16 then Rejected(BadCount)
      else if raw.classes.value.NotAList? || |raw.classes.value.labels| != 16 then Rejected(BadClasses)
      else if raw.classes.value.labels != RVL_CDIP_LABELS then Rejected(WrongLabels)
      else
        var a := raw.artifact.value;
        if a.sha256.None? || a.sizeBytes.None? || a.path.None? then Rejected(BadArtifact)
        else Accepted(Card(raw.backbone.value, raw.classes.value.labels, a.sha256.value,
                           if raw.top1.value.Some? then raw.top1.value.value else 0.0, raw.threshold.value))
  }

  /** Card, then checksum of the classifier file, then the accuracy the card itself records. */
  function ValidateAll(file: Option<RawCard>, classifierSha256: Option<string>): Validated {
    match LoadAndValidate(file)
    case Rejected(e) => Rejected(e)
    case Accepted(card) =>
      if classifierSha256.None? then Rejected(NoClassifier)
      else if classifierSha256.value != card.sha256 then Rejected(ChecksumMismatch)
      else if card.top1 < card.threshold then Rejected(BelowThreshold)
      else Accepted(card)
  }

  lemma LabelsAreDistinct()
    ensures Distinct(RVL_CDIP_LABELS)
  {
  }

  /** A card with nothing missing, the sixteen labels in their order, and free choices for the rest. */
  function CompleteCard(
    backbone: string, sha256: string, size: int, path: string, top1: Option<real>, threshold: real): RawCard
  {
    RawCard(Some(backbone), Some(16), Some(AList(RVL_CDIP_LABELS)),
            Some(Artifact(Some(sha256), Some(size), Some(path))), true, Some(top1), Some(threshold))
  }

  /** What start-up says to a complete card: of its remaining faults, the first in this order. */
  lemma CompleteCardOutcome(
    backbone: string, sha256: string, size: int, path: string, top1: Option<real>, threshold: real,
    actual: Option<string>)
    ensures var v := ValidateAll(Some(CompleteCard(backbone, sha256, size, path, top1, threshold)), actual);
            var accuracy := if top1.Some? then top1.value else 0.0;
            if backbone != "convnext_tiny" && backbone != "convnext_small" then v == Rejected(BadBackbone)
            else if actual.None? then v == Rejected(NoClassifier)
            else if actual.value != sha256 then v == Rejected(ChecksumMismatch)
            else if accuracy < threshold then v == Rejected(BelowThreshold)
            else v == Accepted(Card(backbone, RVL_CDIP_LABELS, sha256, accuracy, threshold))
  {
    SixteenLabels();
  }

  lemma SixteenLabels()
    ensures |RVL_CDIP_LABELS| == 16
  {}

  /** No other card gets the worker started: whatever is accepted is a complete card. */
  lemma OnlyCompleteCards(file: Option<RawCard>, actual: Option<string>)
    requires ValidateAll(file, actual).Accepted?
    ensures exists backbone, sha256, size, path, top1, threshold ::
              file == Some(CompleteCard(backbone, sha256, size, path, top1, threshold))
  {
    var raw := file.value;
    var a := raw.artifact.value;
    assert raw == CompleteCard(raw.backbone.value, a.sha256.value, a.sizeBytes.value, a.path.value,
                               raw.top1.value, raw.threshold.value);
  }

  /**
   On an accepted card every prediction is one of sixteen distinct labels, scored as it is reported, at 1/16 or more.
   */
  lemma AcceptedCardPredicts(file: Option<RawCard>, sha: Option<string>, exp: real -> real, logits: seq<real>)
    requires ValidateAll(file, sha).Accepted? && ExpLike(exp) && |logits| == 16
    ensures Sum(Exps(exp, logits)) > 0.0
    ensures var labels := ValidateAll(file, sha).card.classes;
            var r := RunInference(exp, logits, labels);
            && Distinct(labels) && r.Some? && r.value.predictedClass in RVL_CDIP_LABELS
            && r.value.scores.Keys == (set l | l in RVL_CDIP_LABELS)
            && r.value.predictedClass in r.value.scores && r.value.scores[r.value.predictedClass] == r.value.confidence
            && 1.0 / 16.0 <= r.value.confidence <= 1.0
            && (forall i :: 0 <= i < 16 ==>
                  labels[i] in r.value.scores && r.value.scores[labels[i]] == exp(logits[i]) / Sum(Exps(exp, logits)))
  {
    var labels := ValidateAll(file, sha).card.classes;
    assert labels == RVL_CDIP_LABELS;
    hide ValidateAll, LoadAndValidate;
    LabelsAreDistinct();
    CardPredicts(exp, logits, labels);
  }

  lemma CardPredicts(exp: real -> real, logits: seq<real>, labels: seq<string>)
    requires ExpLike(exp) && |logits| == 16 == |labels| && Distinct(labels)
    ensures Sum(Exps(exp, logits)) > 0.0
    ensures var r := RunInference(exp, logits, labels);
            && r.Some? && r.value.predictedClass in labels && r.value.scores.Keys == (set l | l in labels)
            && r.value.predictedClass in r.value.scores && r.value.scores[r.value.predictedClass] == r.value.confidence
            && 1.0 / 16.0 <= r.value.confidence <= 1.0
            && (forall i :: 0 <= i < 16 ==>
                  labels[i] in r.value.scores && r.value.scores[labels[i]] == exp(logits[i]) / Sum(Exps(exp, logits)))
  {
    PredictsArgMax(exp, logits, labels);
    ScoresAgreeWithConfidence(exp, logits, labels);
    ScoresAreShares(exp, logits, labels);
    SoftmaxIsDistribution(exp, logits);
    ScoreOfLabel(labels, Softmax(exp, logits), 0);
    hide ExpLike;
  }
}

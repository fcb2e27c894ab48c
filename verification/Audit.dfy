/**
 The append-only audit log (backend/app/services/audit_log.py). `record` builds one event and
 flushes it; the caller's commit publishes it. One constructor stands for one action name, with
 the fields its callers put into the actor, the target and the details.
 */
module Audit {
  import opened Common

  datatype Event =
    | DocumentIngested(documentId: Id, sourcePath: string, rqJobId: nat)
    | IngestionFailed(sourcePath: string, sourceFilename: string)
    | DocumentClassified(predictionId: Id, documentId: Id, predictedClass: string, confidence: real, eligible: bool)
    | ClassificationFailed(jobId: Id, error: string)
    | PredictionRelabeled(actor: UserId, predictionId: Id, originalClass: string, reviewLabel: string, confidence: real)
    | RoleAssigned(actor: UserId, target: UserId, role: string)
    | RoleRevoked(actor: UserId, target: UserId, role: string)
    | RoleReplaced(actor: UserId, target: UserId, newRoles: seq<string>)

  /** What a reader of the log filters on: the document or job an event is about, for three of the actions. */
  datatype Filter = IngestedDocument(id: Id) | ClassifiedDocument(id: Id) | FailedJob(id: Id)

  predicate Matches(e: Event, f: Filter) {
    match f
    case IngestedDocument(id) => e.DocumentIngested? && e.documentId == id
    case ClassifiedDocument(id) => e.DocumentClassified? && e.documentId == id
    case FailedJob(id) => e.ClassificationFailed? && e.jobId == id
  }

  /** The number of events in a log that pass a filter. */
  function Count(log: seq<Event>, f: Filter): nat {
    if log == [] then 0
    else Count(log[..|log| - 1], f) + (if Matches(log[|log| - 1], f) then 1 else 0)
  }

  lemma CountAppend(log: seq<Event>, e: Event, f: Filter)
    ensures Count(log + [e], f) == Count(log, f) + (if Matches(e, f) then 1 else 0)
  {
    assert (log + [e])[..|log|] == log;
  }
}

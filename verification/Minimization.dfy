/** What account deletion keeps of a record: the least that still prevents replay, and never longer
    than the record would have lived anyway. */
module Minimization {
  import opened Basics

  const DAY := 86400
  const REQUEST_RETENTION_SECONDS := 15 * 60
  const HISTORY_DEDUP_DAYS := 120
  const RECOVERY_RECEIPT_DAYS := 7
  const RECOVERY_AUDIT_DAYS := 90

  datatype Status = Processing | Retryable | ResultReady | Completed | CompletedErased

  /** `details` stands for every field that minimization drops. */
  datatype Record =
    | Disposable
    | RecoveryEvidence(audit: bool, operation: nat, at: nat, expiresAt: nat, details: Option<nat>)
    | Request(status: Status, payload: nat, expiresAt: nat, ttl: nat, details: Option<nat>)
    | ConsentAudit
    | Malformed

  datatype Treatment = Erase | Retain(record: Record) | Refuse

  datatype Retention = History | Ordinary | UnverifiedLegacy

  function HistoryBoundary(requestedAt: nat): nat { requestedAt + HISTORY_DEDUP_DAYS * DAY }
  function OrdinaryBoundary(requestedAt: nat): nat { requestedAt + REQUEST_RETENTION_SECONDS }

  function ClassOf(r: Record, requestedAt: nat): Retention
    requires r.Request?
  {
    if r.status.CompletedErased? && r.expiresAt <= HistoryBoundary(requestedAt) then History
    else if r.expiresAt <= OrdinaryBoundary(requestedAt) then Ordinary
    else UnverifiedLegacy
  }

  function MinimalRequest(r: Record, requestedAt: nat, now: nat): Treatment
    requires r.Request?
  {
    if r.expiresAt <= now then Erase
    else if r.ttl != r.expiresAt then Refuse
    else
      var until := if ClassOf(r, requestedAt).UnverifiedLegacy? then OrdinaryBoundary(requestedAt) else r.expiresAt;
      if until <= now then Erase else Retain(Request(CompletedErased, r.payload, until, until, None))
  }

  function MinimalEvidence(r: Record, now: nat): Treatment
    requires r.RecoveryEvidence?
  {
    var days := if r.audit then RECOVERY_AUDIT_DAYS else RECOVERY_RECEIPT_DAYS;
    if !(r.at < r.expiresAt <= r.at + days * DAY) then Refuse
    else if r.expiresAt <= now then Erase
    else Retain(RecoveryEvidence(r.audit, r.operation, r.at, r.expiresAt, None))
  }

  function Treat(r: Record, requestedAt: nat, now: nat): Treatment {
    match r
    case Disposable => Erase
    case RecoveryEvidence(_, _, _, _, _) => MinimalEvidence(r, now)
    case Request(_, _, _, _, _) => MinimalRequest(r, requestedAt, now)
    case ConsentAudit => Retain(r)
    case Malformed => Refuse
  }

  /** Nothing is left to minimize. */
  predicate Minimal(r: Record, requestedAt: nat) {
    match r
    case Disposable => false
    case RecoveryEvidence(_, _, _, _, details) => details.None?
    case Request(status, _, expiresAt, ttl, details) =>
      status.CompletedErased? && details.None? && ttl == expiresAt <= HistoryBoundary(requestedAt)
    case ConsentAudit => true
    case Malformed => false
  }

  function Expiry(r: Record): nat { if r.RecoveryEvidence? || r.Request? then r.expiresAt else 0 }

  predicate SameIdentity(a: Record, b: Record) {
    match (a, b)
    case (Request(_, p, _, _, _), Request(_, q, _, _, _)) => p == q
    case (RecoveryEvidence(x, o, s, _, _), RecoveryEvidence(y, p, t, _, _)) => x == y && o == p && s == t
    case (ConsentAudit, ConsentAudit) => true
    case _ => false
  }

  /** Until when a record that may be kept is needed: evidence as long as it was to live; a request that was
      completed and erased, up to 120 days, and any other only for the fifteen minutes of its retention. */
  function Due(r: Record, requestedAt: nat): nat {
    match r
    case RecoveryEvidence(_, _, _, expiresAt, _) => expiresAt
    case Request(status, _, expiresAt, _, _) =>
      if expiresAt <= requestedAt + 900 || (status.CompletedErased? && expiresAt <= requestedAt + 120 * 86400) then expiresAt
      else requestedAt + 900
    case _ => 0
  }

  /** The record says about itself what can be: evidence lives 90 days for an audit and 7 for a receipt, a
      request's expiry is its time to live. */
  predicate Plausible(r: Record) {
    match r
    case RecoveryEvidence(audit, _, at, expiresAt, _) => at < expiresAt <= at + (if audit then 90 else 7) * 86400
    case Request(_, _, expiresAt, ttl, _) => ttl == expiresAt
    case Malformed => false
    case _ => true
  }

  /** Exactly what is kept, erased and refused. */
  lemma KeptExactly(r: Record, requestedAt: nat, now: nat)
    ensures Treat(r, requestedAt, now).Retain? <==>
              r.ConsentAudit? || ((r.RecoveryEvidence? || r.Request?) && Plausible(r) && now < Due(r, requestedAt))
    ensures Treat(r, requestedAt, now).Refuse? <==> !Plausible(r) && !(r.Request? && r.expiresAt <= now)
    ensures Treat(r, requestedAt, now).Erase? ==> r.Disposable? || ((r.RecoveryEvidence? || r.Request?) && Due(r, requestedAt) <= now)
    ensures Treat(r, requestedAt, now).Retain? ==>
              var m := Treat(r, requestedAt, now).record;
              match r
              case RecoveryEvidence(audit, operation, at, expiresAt, _) => m == RecoveryEvidence(audit, operation, at, expiresAt, None)
              case Request(_, payload, _, _, _) => m == Request(CompletedErased, payload, Due(r, requestedAt), Due(r, requestedAt), None)
              case _ => m == r
    ensures Treat(r, requestedAt, now).Retain? ==> Due(Treat(r, requestedAt, now).record, requestedAt) == Due(r, requestedAt)
  {
  }

  /** What is retained is minimal, identifies the same thing, and expires no later. */
  lemma RetainedIsMinimal(r: Record, requestedAt: nat, now: nat)
    requires Treat(r, requestedAt, now).Retain?
    ensures var m := Treat(r, requestedAt, now).record;
            Minimal(m, requestedAt) && SameIdentity(r, m) && Expiry(m) <= Expiry(r) && (Expiry(m) > now || m.ConsentAudit?)
  {
  }

  /** Minimization is idempotent: at any later time a retained record is either kept as it is or, once
      it has expired, erased. */
  lemma MinimizationIdempotent(r: Record, requestedAt: nat, now: nat, later: nat)
    requires Treat(r, requestedAt, now).Retain?
    ensures var m := Treat(r, requestedAt, now).record;
            Treat(m, requestedAt, later) == if !m.ConsentAudit? && m.expiresAt <= later then Erase else Retain(m)
  {
  }

  /** A request that is minimized keeps its payload at most until the history boundary; one that is
      not erased already, only until the ordinary boundary. */
  lemma RequestRetentionBounded(r: Record, requestedAt: nat, now: nat)
    requires r.Request? && Treat(r, requestedAt, now).Retain?
    ensures Expiry(Treat(r, requestedAt, now).record) <= HistoryBoundary(requestedAt)
    ensures !r.status.CompletedErased? ==> Expiry(Treat(r, requestedAt, now).record) <= OrdinaryBoundary(requestedAt)
  {
  }

  /** The class of a minimized legacy request cannot be told from the record any more: read again it
      counts as history. Only the progress row remembers that a legacy request was seen. */
  lemma LegacyClassForgotten(r: Record, requestedAt: nat, now: nat)
    requires r.Request? && Treat(r, requestedAt, now).Retain?
    ensures ClassOf(Treat(r, requestedAt, now).record, requestedAt).History?
    ensures ClassOf(r, requestedAt).UnverifiedLegacy? ==> ClassOf(Treat(r, requestedAt, now).record, requestedAt) != ClassOf(r, requestedAt)
  {
  }
}

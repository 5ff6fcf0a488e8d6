/** The statuses of a durable operation journal and the moves the repository accepts. */
module OperationJournal {

  datatype Status =
    | IntentRecorded
    | Applied
    | Noop
    | RollbackPending
    | RolledBack
    | ReconcileRequired
    | RollbackBlocked

  predicate MayMove(from: Status, to: Status) {
    match from
    case IntentRecorded => to in {Applied, Noop, ReconcileRequired}
    case Applied => to in {RollbackPending, ReconcileRequired}
    case Noop => false
    case RollbackPending => to in {RolledBack, RollbackBlocked, ReconcileRequired}
    case RolledBack => false
    case ReconcileRequired => to in {Applied, Noop, RollbackPending, RollbackBlocked}
    case RollbackBlocked => to == ReconcileRequired
  }

  /** Statuses that follow one another by accepted moves. */
  ghost predicate Walk(statuses: seq<Status>) {
    forall i :: 0 < i < |statuses| ==> MayMove(statuses[i - 1], statuses[i])
  }

  /** An intent is never recorded again, and a journal that ended never moves on. */
  lemma {:induction false} WalksLeaveForGood(statuses: seq<Status>, i: nat, j: nat)
    requires Walk(statuses) && i < j < |statuses|
    ensures !statuses[j].IntentRecorded?
    ensures !statuses[i].Noop? && !statuses[i].RolledBack?
  {
    assert MayMove(statuses[j - 1], statuses[j]);
    assert MayMove(statuses[i], statuses[i + 1]);
  }
}

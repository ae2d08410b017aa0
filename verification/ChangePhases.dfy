/** The phase table of change management: which step a change of which type may
    take, and which steps only the approval outcome takes. */
module ChangePhases {
  datatype Phase = Draft | Submitted | Assessment | Approval | Scheduled | Implementing | Review | Closed | Rejected | Cancelled

  datatype ChangeType = Normal | Standard | Emergency

  predicate IsFinal(p: Phase) {
    p == Closed || p == Cancelled
  }

  /** The pair `from>to` is listed for the type. */
  predicate InTable(t: ChangeType, from: Phase, to: Phase) {
    match (from, to)
    case (Approval, Assessment) => t == Normal
    case (Approval, Cancelled) => true
    case (Approval, Draft) => t == Emergency
    case (Approval, Rejected) => t != Standard
    case (Approval, Scheduled) => t != Standard
    case (Assessment, Approval) => t == Normal
    case (Assessment, Cancelled) => true
    case (Assessment, Scheduled) => t == Normal
    case (Draft, Approval) => t == Emergency
    case (Draft, Cancelled) => true
    case (Draft, Implementing) => t == Emergency
    case (Draft, Scheduled) => t == Standard
    case (Draft, Submitted) => t == Normal
    case (Implementing, Closed) => t == Standard
    case (Implementing, Review) => true
    case (Rejected, Cancelled) => true
    case (Rejected, Draft) => t != Standard
    case (Review, Closed) => true
    case (Scheduled, Cancelled) => true
    case (Scheduled, Draft) => true
    case (Scheduled, Implementing) => true
    case (Submitted, Assessment) => t == Normal
    case (Submitted, Cancelled) => true
    case (Submitted, Draft) => t == Normal
    case _ => false
  }

  predicate SystemOnly(from: Phase, to: Phase) {
    from == Approval && (to == Assessment || to == Draft || to == Rejected || to == Scheduled)
  }

  /** The steps the demo offers, before the type is looked at. */
  predicate DemoPhaseTarget(from: Phase, to: Phase) {
    match from
    case Draft => to == Submitted || to == Cancelled
    case Submitted => to == Assessment || to == Draft || to == Cancelled
    case Assessment => to == Approval || to == Cancelled
    case Approval => to == Cancelled
    case Scheduled => to == Implementing || to == Draft || to == Cancelled
    case Implementing => to == Review
    case Review => to == Closed
    case Closed => false
    case Rejected => to == Draft || to == Cancelled
    case Cancelled => false
  }

  predicate DemoTarget(t: ChangeType, from: Phase, to: Phase) {
    || (DemoPhaseTarget(from, to)
        && !(t == Standard && (to == Submitted || to == Assessment || to == Approval))
        && !(t == Emergency && (to == Submitted || to == Assessment)))
    || (t == Emergency && from == Draft && to == Approval)
    || (t == Standard && from == Draft && to == Scheduled)
    || (t == Standard && from == Implementing && to == Closed)
  }

  /** The targets a person is offered. */
  predicate PersonMay(t: ChangeType, from: Phase, to: Phase) {
    InTable(t, from, to) && !SystemOnly(from, to) && DemoTarget(t, from, to)
  }
}

/**
 The run state machine the control plane and the runtimes share.
 */
module RunLifecycle {
  import opened Wrappers

  datatype RunStatus = Queued | Running | WaitingForApproval | Completed | Failed | Cancelled

  datatype RunEvent = RunStarted | RunResumed | RunPaused | RunCompleted | RunFailed | RunCancelled | OtherEvent

  datatype EventDecision = Accepted(next: RunStatus) | Rejected(code: string)

  const APPROVAL_GRANTED := "APPROVAL_GRANTED"

  function Transitions(from: RunStatus): set<RunStatus> {
    match from
    case Queued => {Running, Cancelled}
    case Running => {WaitingForApproval, Completed, Failed, Cancelled}
    case WaitingForApproval => {Queued, Failed, Cancelled}
    case _ => {}
  }

  predicate Terminal(s: RunStatus) {
    s.Completed? || s.Failed? || s.Cancelled?
  }

  predicate CanTransition(from: RunStatus, to: RunStatus) {
    to in Transitions(from)
  }

  function Move(from: RunStatus, to: RunStatus, allowed: bool): EventDecision {
    if allowed && CanTransition(from, to) then Accepted(to) else Rejected("ILLEGAL_RUN_TRANSITION")
  }

  function DecideRuntimeEvent(status: RunStatus, reason: Option<string>, event: RunEvent): EventDecision {
    if Terminal(status) then Rejected("RUN_TERMINAL")
    else match event
      case RunStarted => Move(status, Running, status.Queued? && reason.None?)
      case RunResumed => Move(status, Running, status.Queued? && reason == Some(APPROVAL_GRANTED))
      case RunPaused => Move(status, WaitingForApproval, status.Running?)
      case RunCompleted => Move(status, Completed, status.Running?)
      case RunFailed => Move(status, Failed, true)
      case RunCancelled => Move(status, Cancelled, true)
      case OtherEvent => if status.Running? then Accepted(Running) else Rejected("RUN_NOT_RUNNING")
  }

  /**
   A runtime moves a run only along the table; it never releases one that waits for an approval,
   and starts a queued one only if it is new or an approval re-queued it.
   */
  lemma RuntimesStayOnTheTable(status: RunStatus, reason: Option<string>, event: RunEvent)
    requires DecideRuntimeEvent(status, reason, event).Accepted?
    ensures var next := DecideRuntimeEvent(status, reason, event).next;
            !Terminal(status) && (next == status == Running || CanTransition(status, next)) &&
            (status.WaitingForApproval? ==> Terminal(next)) &&
            (status.Queued? && next.Running? ==>
               if event.RunStarted? then reason.None? else event.RunResumed? && reason == Some(APPROVAL_GRANTED))
  {}

  /** Which events a run accepts, and what they make of it. */
  lemma EventsAreDecided(status: RunStatus, reason: Option<string>, event: RunEvent)
    ensures DecideRuntimeEvent(status, reason, event).Accepted? <==>
            match event
            case RunStarted => status.Queued? && reason.None?
            case RunResumed => status.Queued? && reason == Some("APPROVAL_GRANTED")
            case RunFailed => status.Running? || status.WaitingForApproval?
            case RunCancelled => status.Queued? || status.Running? || status.WaitingForApproval?
            case _ => status.Running?
    ensures DecideRuntimeEvent(status, reason, event).Accepted? ==>
              DecideRuntimeEvent(status, reason, event).next ==
              match event
              case RunPaused => WaitingForApproval
              case RunCompleted => Completed
              case RunFailed => Failed
              case RunCancelled => Cancelled
              case _ => Running
    ensures DecideRuntimeEvent(status, reason, event) == Rejected("RUN_TERMINAL") <==>
            status.Completed? || status.Failed? || status.Cancelled?
  {}
}

/**
 When the route of an issue is what it is: the exact evidence behind every action and every reason code, stated without
 the order in which the decision looks at it.
 */
module RouteConditions {
  import opened Prelude
  import opened BlockerQueue
  import opened WorkflowRoute
  import W = WorkerResults

  /** Nothing but the latest result stands between the issue and automatic work. */
  predicate Routable(issue: Issue, u: WorkUnit) {
    !issue.closed && !issue.terminal && !u.ambiguous && !u.unsafeLatest
  }

  function Last(u: WorkUnit): Evidence
    requires u.results != []
  {
    u.results[|u.results| - 1]
  }

  /** The result answers a command of the Dashboard. */
  predicate Bound(r: Evidence) {
    r.command.Some? && r.command.value != BLANK
  }

  predicate Current(r: Evidence) {
    r.effective && !r.stale
  }

  /** A Dashboard command's QA turn that reached no verdict; it is looked at before any blocker. */
  predicate BoundInconclusive(r: Evidence) {
    Current(r) && r.role == QA && Bound(r) && r.status == Inconclusive
  }

  /** ... only because CI of the exact Candidate was still queued. */
  predicate OnlyQueued(r: Evidence) {
    BoundInconclusive(r) && r.ciQueued && r.findings == 0
  }

  /** An unresolved blocker other than the latest result itself. */
  predicate OtherBlocker(u: WorkUnit, r: Evidence) {
    u.blocker.Some? && u.blocker.value.commentId != r.commentId
  }

  /** A worker's turn that a bound Implementor left for the same worker or for the Lead, whatever CI says. */
  predicate BoundHandOver(r: Evidence) {
    r.role == Implementor && Bound(r) && (r.status == Continuing || r.status == NoOp)
  }

  predicate Done(r: Evidence) {
    r.role == Implementor && (r.status == Completed || (!Bound(r) && r.status == NoOp))
  }

  predicate UnboundResume(r: Evidence) {
    r.role == Lead && !Bound(r) && r.resumeRole.Some? && r.decision in {ContinueWork, Correct, Resume}
  }

  predicate WantsImplementor(u: WorkUnit, r: Evidence) {
    && Unhindered(u, r)
    && (|| (r.role == Implementor && Bound(r) && r.status == Continuing)
        || (r.role == Implementor && u.ci.conclusion == Failure && !BoundHandOver(r))
        || (r.role == QA && !Bound(r) && r.verdict == ChangesRequired)
        || (r.role == Lead && Bound(r) && r.decision == Correct)
        || (r.role == Lead && Bound(r) && r.decision == DispatchNext && r.resumeRole == Some(Implementor))
        || (UnboundResume(r) && r.resumeRole == Some(Implementor)))
  }

  predicate WantsLead(qaRequired: bool, u: WorkUnit, r: Evidence) {
    || (BoundInconclusive(r) && !OnlyQueued(r))
    || (Current(r) && r.status == Blocked && (r.role == Implementor || r.role == QA) && !OtherBlocker(u, r))
    || (&& Unhindered(u, r)
        && (|| (r.role == Implementor && Bound(r) && r.status == NoOp)
            || (Done(r) && u.ci.conclusion == Success && !qaRequired)
            || (r.role == QA && !BoundInconclusive(r) && r.verdict == Approved && (Bound(r) ==> u.ci.conclusion == Success))
            || (r.role == QA && !BoundInconclusive(r) && r.verdict == ChangesRequired && Bound(r))
            || (r.role == QA && !BoundInconclusive(r) && r.verdict == InconclusiveVerdict)
            || (r.role == Lead && Bound(r) && r.decision == ContinueWork)
            || (r.role == Lead && Bound(r) && r.decision == DispatchNext && r.resumeRole == Some(Lead))))
  }

  /** An escalation of the Lead, unless it is about another blocker than the active one. */
  predicate WantsOwner(u: WorkUnit, r: Evidence) {
    Current(r) && r.role == Lead && (r.escalateTo == Owner || r.decision == OwnerRequired)
    && (OtherBlocker(u, r) ==> Matches(r, u.blocker.value.commentId))
  }

  predicate AwaitsCi(u: WorkUnit, r: Evidence) {
    || (OnlyQueued(r) && u.ci.conclusion != Success)
    || (Unhindered(u, r) && r.role == Implementor && !BoundHandOver(r) && u.ci.conclusion == OtherConclusion)
    || (Unhindered(u, r) && r.role == QA && !BoundInconclusive(r) && r.verdict == Approved && Bound(r)
        && u.ci.conclusion != Success)
  }

  lemma ImplementorDispatchIff(qaRequired: bool, issue: Issue, u: WorkUnit)
    ensures DeriveRoute(qaRequired, issue, u).action == Dispatch(Implementor) <==>
            Routable(issue, u) && (u.results == [] || WantsImplementor(u, Last(u)))
  {
    hide Matches;
  }

  lemma LeadDispatchIff(qaRequired: bool, issue: Issue, u: WorkUnit)
    ensures DeriveRoute(qaRequired, issue, u).action == Dispatch(Lead) <==>
            Routable(issue, u) && u.results != [] && WantsLead(qaRequired, u, Last(u))
  {
    hide Matches;
  }

  lemma OwnerAttentionIff(qaRequired: bool, issue: Issue, u: WorkUnit)
    ensures DeriveRoute(qaRequired, issue, u).action == OwnerAttention <==>
            Routable(issue, u) && u.results != [] && WantsOwner(u, Last(u))
  {
    hide Matches;
  }

  lemma NoActionIff(qaRequired: bool, issue: Issue, u: WorkUnit)
    ensures DeriveRoute(qaRequired, issue, u).action == NoAction <==>
            issue.closed || issue.terminal || (Routable(issue, u) && u.results != [] && AwaitsCi(u, Last(u)))
  {
    hide Matches;
  }

  /** Whatever is not one of the other actions is left to a person; no other worker is ever dispatched. */
  lemma ManualAttentionIff(qaRequired: bool, issue: Issue, u: WorkUnit)
    ensures var action := DeriveRoute(qaRequired, issue, u).action;
            && (action.Dispatch? ==> action.to == Implementor || action.to == QA || action.to == Lead)
            && (action == ManualAttention <==>
                action !in {NoAction, OwnerAttention, MergeGate, Dispatch(Implementor), Dispatch(QA), Dispatch(Lead)})
  {
    hide Matches;
  }

  // ---------------------------------------------------------------- reason codes

  /** What the evidence must be for each reason code the derivation gives; the codes of open commands are not among them. */
  predicate Grounds(qaRequired: bool, issue: Issue, u: WorkUnit, reason: Reason) {
    if u.results == [] then GroundsWithout(issue, u, reason)
    else if reason == Terminal || reason == AmbiguousCandidate then GroundsWithout(issue, u, reason)
    else
      var r := Last(u);
      match reason
      case UnsafeResult => !issue.closed && !issue.terminal && !u.ambiguous && (u.unsafeLatest || !r.effective)
      case StaleResult => Routable(issue, u) && r.effective && r.stale
      case _ => Routable(issue, u) && Current(r) && GroundsOf(qaRequired, u, r, reason)
  }

  predicate GroundsWithout(issue: Issue, u: WorkUnit, reason: Reason) {
    match reason
    case Terminal => issue.closed || issue.terminal
    case AmbiguousCandidate => !issue.closed && !issue.terminal && u.ambiguous
    case UnsafeResult => !issue.closed && !issue.terminal && !u.ambiguous && u.unsafeLatest
    case InitialImplementation => Routable(issue, u)
    case _ => false
  }

  predicate GroundsOf(qaRequired: bool, u: WorkUnit, r: Evidence, reason: Reason) {
    match reason
    case OwnerNeeded => WantsOwner(u, r)
    case UnresolvedBlocker =>
      OtherBlocker(u, r) && (if LeadOwnerEscalation(r) then !Matches(r, u.blocker.value.commentId) else !BoundInconclusive(r))
    case QaRetryAfterCi => OnlyQueued(r) && u.ci.conclusion == Success
    case WaitingForCi => AwaitsCi(u, r)
    case QaInconclusive =>
      (BoundInconclusive(r) && !OnlyQueued(r))
      || (Unhindered(u, r) && r.role == QA && !BoundInconclusive(r) && r.verdict == InconclusiveVerdict)
    case LeadFirst => r.status == Blocked && (r.role == Implementor || r.role == QA) && !OtherBlocker(u, r)
    case LeadBlocked =>
      r.status == Blocked && r.role != Implementor && r.role != QA && !OtherBlocker(u, r) && !LeadOwnerEscalation(r)
    case _ => Unhindered(u, r) && !BoundInconclusive(r) && GroundsUnhindered(qaRequired, u, r, reason)
  }

  predicate GroundsUnhindered(qaRequired: bool, u: WorkUnit, r: Evidence, reason: Reason) {
    match reason
    case ContinueImplementation => r.role == Implementor && Bound(r) && r.status == Continuing
    case ImplementationNoOp => r.role == Implementor && Bound(r) && r.status == NoOp
    case CiFailed => r.role == Implementor && !BoundHandOver(r) && u.ci.conclusion == Failure
    case ImplementationCompleted => Done(r) && u.ci.conclusion == Success && qaRequired
    case NoQaNeeded => Done(r) && u.ci.conclusion == Success && !qaRequired
    case QaApproved => r.role == QA && r.verdict == Approved && (Bound(r) ==> u.ci.conclusion == Success)
    case QaChangesRequired => r.role == QA && r.verdict == ChangesRequired
    case LeadDispatch => BoundLead(r, DispatchNext) && r.resumeRole in {Some(Lead), Some(Implementor), Some(QA)}
    case LeadContinue => BoundLead(r, ContinueWork)
    case LeadCorrection => BoundLead(r, Correct)
    case LeadResume => UnboundResume(r) && r.resumeRole in {Some(Implementor), Some(QA)}
    case InvalidResumeRole =>
      (BoundLead(r, DispatchNext) && r.resumeRole !in {Some(Lead), Some(Implementor), Some(QA)})
      || (UnboundResume(r) && r.resumeRole !in {Some(Implementor), Some(QA)})
    case MissingCandidate => BoundLead(r, ReadyToMerge) && (u.candidate.None? || u.head == "")
    case GateIncomplete =>
      BoundLead(r, ReadyToMerge) && u.candidate.Some? && u.head != ""
      && !(u.ci.conclusion == Success && u.qaApprovedHead == u.head && u.blocker.None?)
    case NotMergeable =>
      BoundLead(r, ReadyToMerge) && u.candidate.Some? && u.head != ""
      && u.ci.conclusion == Success && u.qaApprovedHead == u.head && u.blocker.None?
        && u.candidate.value.mergeable == OtherMergeable
    case ReadyToVerify =>
      BoundLead(r, ReadyToMerge) && u.candidate.Some? && u.head != ""
      && u.ci.conclusion == Success && u.qaApprovedHead == u.head && u.blocker.None?
        && u.candidate.value.mergeable != OtherMergeable
    case _ => false
  }

  predicate BoundLead(r: Evidence, decision: Decision) {
    r.role == Lead && Bound(r) && r.decision == decision
  }

  /** The reason codes given before the role of the latest result matters. */
  predicate Early(reason: Reason) {
    reason in {Terminal, AmbiguousCandidate, UnsafeResult, InitialImplementation, StaleResult, OwnerNeeded, UnresolvedBlocker,
               QaRetryAfterCi, LeadFirst, LeadBlocked}
  }

  lemma GroundsThen(qaRequired: bool, u: WorkUnit, r: Evidence, reason: Reason)
    requires Unhindered(u, r) && !BoundInconclusive(r)
    ensures !Early(reason) && GroundsOf(qaRequired, u, r, reason) <==>
            || (reason == WaitingForCi && AwaitsCi(u, r))
            || (reason == QaInconclusive && r.role == QA && r.verdict == InconclusiveVerdict)
            || GroundsUnhindered(qaRequired, u, r, reason)
  {
    hide Matches;
  }

  lemma ReasonOfImplementor(qaRequired: bool, u: WorkUnit, r: Evidence, reason: Reason)
    requires Unhindered(u, r) && reason != Unhandled && r.role == Implementor
    ensures RouteByRole(qaRequired, u, r).reason == reason <==> !Early(reason) && GroundsOf(qaRequired, u, r, reason)
  {
    GroundsThen(qaRequired, u, r, reason);
    hide GroundsOf, Early;
    hide Matches, RouteLead;
  }

  lemma ReasonOfQa(qaRequired: bool, u: WorkUnit, r: Evidence, reason: Reason)
    requires Unhindered(u, r) && !BoundInconclusive(r) && reason != Unhandled && r.role == QA
    ensures RouteByRole(qaRequired, u, r).reason == reason <==> !Early(reason) && GroundsOf(qaRequired, u, r, reason)
  {
    GroundsThen(qaRequired, u, r, reason);
    hide GroundsOf, Early;
    hide Matches, RouteLead;
  }

  lemma ReasonOfGate(qaRequired: bool, u: WorkUnit, r: Evidence, reason: Reason)
    requires Unhindered(u, r) && reason != Unhandled && BoundLead(r, ReadyToMerge)
    ensures MergeGateRoute(u).reason == reason <==> !Early(reason) && GroundsOf(qaRequired, u, r, reason)
  {
    GroundsThen(qaRequired, u, r, reason);
    hide GroundsOf, Early;
    hide Matches, RouteByRole, RouteLead, DeriveRoute;
  }

  lemma ReasonOfLead(qaRequired: bool, u: WorkUnit, r: Evidence, reason: Reason)
    requires Unhindered(u, r) && reason != Unhandled && r.role == Lead
    ensures RouteByRole(qaRequired, u, r).reason == reason <==> !Early(reason) && GroundsOf(qaRequired, u, r, reason)
  {
    GroundsThen(qaRequired, u, r, reason);
    hide GroundsOf, Early;
    assert RouteByRole(qaRequired, u, r) == RouteLead(u, r);
    hide Matches, RouteByRole;
    if BoundLead(r, ReadyToMerge) { ReasonOfGate(qaRequired, u, r, reason); }
    hide MergeGateRoute;
  }

  lemma ReasonByRole(qaRequired: bool, u: WorkUnit, r: Evidence, reason: Reason)
    requires Unhindered(u, r) && !BoundInconclusive(r) && reason != Unhandled
    ensures RouteByRole(qaRequired, u, r).reason == reason <==> !Early(reason) && GroundsOf(qaRequired, u, r, reason)
  {
    match r.role
    case Implementor => ReasonOfImplementor(qaRequired, u, r, reason);
    case QA => ReasonOfQa(qaRequired, u, r, reason);
    case Lead => ReasonOfLead(qaRequired, u, r, reason);
    case OtherRole(_) =>
  }

  /** Before the latest result is looked at. */
  lemma ReasonBefore(qaRequired: bool, issue: Issue, u: WorkUnit, reason: Reason)
    requires reason != Unhandled && !(Routable(issue, u) && u.results != [] && Current(Last(u)))
    ensures DeriveRoute(qaRequired, issue, u).reason == reason <==> Grounds(qaRequired, issue, u, reason)
  {
    hide Matches, RouteByRole, GroundsOf;
  }

  lemma ReasonHindered(qaRequired: bool, issue: Issue, u: WorkUnit, reason: Reason)
    requires reason != Unhandled && Routable(issue, u) && u.results != [] && Current(Last(u))
    requires BoundInconclusive(Last(u)) || LeadOwnerEscalation(Last(u))
    ensures DeriveRoute(qaRequired, issue, u).reason == reason <==> Grounds(qaRequired, issue, u, reason)
  {
    hide Matches, RouteByRole, GroundsUnhindered;
  }

  lemma ReasonUnderBlocker(qaRequired: bool, issue: Issue, u: WorkUnit, reason: Reason)
    requires reason != Unhandled && Routable(issue, u) && u.results != [] && Current(Last(u))
    requires !BoundInconclusive(Last(u)) && !LeadOwnerEscalation(Last(u)) && !Unhindered(u, Last(u))
    ensures DeriveRoute(qaRequired, issue, u).reason == reason <==> Grounds(qaRequired, issue, u, reason)
  {
    hide Matches, RouteByRole, GroundsUnhindered;
  }

  lemma ReasonUnhindered(qaRequired: bool, issue: Issue, u: WorkUnit, reason: Reason)
    requires reason != Unhandled && Routable(issue, u) && u.results != []
    requires !BoundInconclusive(Last(u)) && Unhindered(u, Last(u))
    ensures DeriveRoute(qaRequired, issue, u).reason == reason <==> Grounds(qaRequired, issue, u, reason)
  {
    assert DeriveRoute(qaRequired, issue, u) == RouteByRole(qaRequired, u, Last(u));
    ReasonByRole(qaRequired, u, Last(u), reason);
    hide Matches, RouteByRole, GroundsOf, DeriveRoute;
  }

  /** Each reason code is given exactly on its grounds; the remaining one is for results that are preserved but not routed. */
  lemma ReasonIff(qaRequired: bool, issue: Issue, u: WorkUnit, reason: Reason)
    requires reason != Unhandled
    ensures DeriveRoute(qaRequired, issue, u).reason == reason <==> Grounds(qaRequired, issue, u, reason)
  {
    hide Grounds, DeriveRoute;
    if !(Routable(issue, u) && u.results != [] && Current(Last(u))) {
      ReasonBefore(qaRequired, issue, u, reason);
    } else if BoundInconclusive(Last(u)) || LeadOwnerEscalation(Last(u)) {
      ReasonHindered(qaRequired, issue, u, reason);
    } else if !Unhindered(u, Last(u)) {
      ReasonUnderBlocker(qaRequired, issue, u, reason);
    } else {
      ReasonUnhindered(qaRequired, issue, u, reason);
    }
  }

  /** The command selected for the issue by the last refresh holds automatic work back, and otherwise changes nothing. */
  lemma CommandHoldsBack(qaRequired: bool, issue: Issue, command: Option<W.Status>)
    ensures var route := RouteOf(qaRequired, issue, command);
            && (command in {Some(W.Created), Some(W.DeliveryPending)} ==> route == Route(NoAction, DeliveryOpen))
            && (command == Some(W.AwaitingResult) ==> route == Route(NoAction, AwaitingWorker))
            && (command == Some(W.Ambiguous) ==> route == Route(ManualAttention, CommandAmbiguous))
            && (command == Some(W.Failed) ==> route == Route(ManualAttention, CommandFailed))
            && (!Holding(command) ==> route == DeriveRoute(qaRequired, issue, Derived(issue)))
  {
    hide DeriveRoute, Derived;
  }
}

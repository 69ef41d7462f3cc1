/**
 From stored worker results to evidence (backend/internal/workerloop/state.go), and what that makes of the merge gate.
 */
module ResultProjection {
  import opened Prelude
  import B = BlockerQueue
  import R = WorkflowRoute
  import W = WorkerResults
  import C = RouteConditions

  /** The reason code that says QA only waits for CI. */
  const CI_QUEUED: Id := 1

  function RoleOf(r: W.Role): B.Role {
    match r
    case Lead => B.Lead
    case Implementor => B.Implementor
    case QA => B.QA
    case OtherRole(n) => B.OtherRole(n)
  }

  /** The pull request and head a payload claims are those of the only open pull request. */
  predicate CandidateMatches(pulls: seq<R.Pull>, pr: int, head: string) {
    var open := R.OpenPulls(pulls);
    |open| == 1 && open[0].number == pr && open[0].head == head
  }

  const PLAIN := B.Evidence(
    0, B.Lead, B.OtherStatus(BLANK), "", B.NoVerdict, B.NoDecision, None, B.Absent, B.Nobody, None, false, 0, false, false)

  /** The evidence a payload stands for, whether or not its claims match. */
  function EventOf(p: W.Payload): B.Evidence {
    var e := PLAIN.(role := RoleOf(p.role), command := if p.command == BLANK then None else Some(p.command),
                    ciQueued := p.reasonCode == CI_QUEUED, findings := if p.findings.Some? then p.findings.value else 0);
    match p.role
    case Implementor =>
      (match p.outcome
       case CandidateReady => e.(status := B.Completed, head := p.head)
       case Continue => e.(status := B.Continuing)
       case Blocked => e.(status := B.Blocked)
       case NoOp => e.(status := B.NoOp)
       case _ => e)
    case QA =>
      var q := e.(head := p.reviewedHead);
      (match p.outcome
       case Approved => q.(status := B.Completed, verdict := B.Approved)
       case ChangesRequired => q.(status := B.Completed, verdict := B.ChangesRequired)
       case BlockedInconclusive => q.(status := B.Inconclusive, verdict := B.InconclusiveVerdict)
       case _ => q)
    case Lead =>
      (match p.outcome
       case Dispatch => e.(decision := B.DispatchNext, status := B.Completed, resumeRole := Some(RoleOf(p.nextRole)))
       case Continue => e.(decision := B.ContinueWork, status := B.Completed, resumeRole := Some(B.Lead))
       case Correct => e.(decision := B.Correct, status := B.Completed, resumeRole := Some(B.Implementor))
       case ReadyToMerge => e.(decision := B.ReadyToMerge, status := B.Completed, head := p.approvedHead)
       case OwnerRequired => e.(decision := B.OwnerRequired, status := B.Blocked, escalateTo := B.Owner)
       case Hold => e.(decision := B.OtherDecision(BLANK), status := B.Blocked)
       case _ => e.(decision := B.OtherDecision(BLANK)))
    case OtherRole(_) => e
  }

  /** Claims about the Candidate are checked against the snapshot. */
  predicate ClaimsHold(pulls: seq<R.Pull>, p: W.Payload) {
    && (p.role == W.Implementor && p.outcome == W.CandidateReady ==> CandidateMatches(pulls, p.pr, p.head))
    && (p.role == W.Lead && p.outcome == W.ReadyToMerge ==> CandidateMatches(pulls, p.pr, p.approvedHead))
  }

  /** What a stored row lays over its comment. */
  function ProjectResult(pulls: seq<R.Pull>, row: W.Row): R.External {
    if row.validation != W.Accepted then R.External(false, row.validation == W.Malformed || row.validation == W.Disputed, None)
    else R.External(ClaimsHold(pulls, row.payload), false, Some(EventOf(row.payload)))
  }

  /** The overlay of an issue is the projection of the stored rows of its project. */
  ghost predicate Projected(issue: R.Issue, project: nat, rows: W.Rows) {
    forall id :: id in issue.external ==>
      id >= 0 && (project, id) in rows && issue.external[id] == ProjectResult(issue.pulls, rows[(project, id)])
  }

  /** Laid over a comment, only an accepted row whose claims hold becomes effective evidence, and it is that payload's. */
  lemma EffectiveIsAccepted(issue: R.Issue, project: nat, rows: W.Rows, c: R.Parsed, ambiguous: bool, head: string)
    requires Projected(issue, project, rows) && c.id in issue.external
    requires var p := R.Overlaid(c, issue.external); p.event.Some? && R.Judged(p, ambiguous, head).effective
    ensures c.id >= 0 && (project, c.id) in rows
    ensures var row := rows[(project, c.id)];
            var e := R.Judged(R.Overlaid(c, issue.external), ambiguous, head);
            && row.validation == W.Accepted && ClaimsHold(issue.pulls, row.payload)
            && e.decision == EventOf(row.payload).decision && e.role == EventOf(row.payload).role
              && e.head == EventOf(row.payload).head
            && e.verdict == EventOf(row.payload).verdict && e.command == EventOf(row.payload).command
  {
    hide EventOf, ClaimsHold;
  }

  /** The evidence of a payload: who says it, for which command, of which head, and whether QA only waits for CI. */
  lemma EventIff(p: W.Payload)
    ensures var e := EventOf(p);
            && (e.role == B.Lead <==> p.role == W.Lead) && (e.role == B.QA <==> p.role == W.QA)
            && (e.role == B.Implementor <==> p.role == W.Implementor)
            && (e.command == None <==> p.command == BLANK) && (e.command.Some? ==> e.command.value == p.command)
            && e.head == (if p.role == W.QA then p.reviewedHead
                          else if p.role == W.Implementor && p.outcome == W.CandidateReady then p.head
                          else if p.role == W.Lead && p.outcome == W.ReadyToMerge then p.approvedHead
                          else "")
            && (e.ciQueued <==> p.reasonCode == CI_QUEUED) && (p.findings.Some? ==> e.findings == p.findings.value)
            && !e.effective && !e.stale
  {
  }

  /** What it reports: blocked, completed, and the worker a Lead hands the work to. */
  lemma EventReports(p: W.Payload)
    ensures var e := EventOf(p);
            && (e.status == B.Blocked <==>
                  || (p.role == W.Implementor && p.outcome == W.Blocked)
                  || (p.role == W.Lead && p.outcome in {W.OwnerRequired, W.Hold}))
            && (e.status == B.Completed <==>
                  || (p.role == W.Implementor && p.outcome == W.CandidateReady)
                  || (p.role == W.QA && p.outcome in {W.Approved, W.ChangesRequired})
                  || (p.role == W.Lead && p.outcome in {W.Dispatch, W.Continue, W.Correct, W.ReadyToMerge}))
            && (e.resumeRole.Some? <==> p.role == W.Lead && p.outcome in {W.Dispatch, W.Continue, W.Correct})
            && (p.role == W.Lead && p.outcome == W.Dispatch ==> e.resumeRole == Some(RoleOf(p.nextRole)))
            && (p.role == W.Lead && p.outcome == W.Continue ==> e.resumeRole == Some(B.Lead))
            && (p.role == W.Lead && p.outcome == W.Correct ==> e.resumeRole == Some(B.Implementor))
            && (p.role == W.Lead ==> e.decision != B.NoDecision)
  {
  }

  /** What is laid over the comment of a stored row: its evidence when it was accepted, nothing to act on otherwise. */
  lemma ProjectIff(pulls: seq<R.Pull>, row: W.Row)
    ensures var x := ProjectResult(pulls, row);
            && (row.validation == W.Accepted ==> x == R.External(ClaimsHold(pulls, row.payload), false, Some(EventOf(row.payload))))
            && (row.validation != W.Accepted ==> !x.safe && x.event.None? && (x.hardError <==> row.validation in {W.Malformed, W.Disputed}))
  {
    hide EventOf, ClaimsHold;
  }

  /** An implementation or a merge request counts only for exactly the only open pull request and its head. */
  lemma ClaimsHoldIff(pulls: seq<R.Pull>, p: W.Payload)
    ensures ClaimsHold(pulls, p) <==>
            var open := R.OpenPulls(pulls);
            && (p.role == W.Implementor && p.outcome == W.CandidateReady ==> |open| == 1 && open[0].number == p.pr && open[0].head == p.head)
            && (p.role == W.Lead && p.outcome == W.ReadyToMerge ==> |open| == 1 && open[0].number == p.pr && open[0].head == p.approvedHead)
  {
    hide R.OpenPulls;
  }

  /** A stored result that was not accepted, last among the comments, leaves the issue to a person. */
  lemma RefusedIsManual(qaRequired: bool, issue: R.Issue, project: nat, rows: W.Rows)
    requires Projected(issue, project, rows) && issue.comments != [] && issue.comments[|issue.comments| - 1].id in issue.external
    requires rows[(project, issue.comments[|issue.comments| - 1].id)].validation != W.Accepted
    requires !issue.closed && !issue.terminal && |R.OpenPulls(issue.pulls)| <= 1
    ensures R.DeriveRoute(qaRequired, issue, R.Derived(issue)) == R.Route(R.ManualAttention, R.UnsafeResult)
  {
    var parsed := R.ParsedOf(issue);
    assert parsed[|parsed| - 1].event.None?;
    assert R.UnsafeLatest(parsed);
    hide R.OpenPulls, R.Results, R.UnsafeLatest, R.Latest, B.Queue, R.RouteByRole, B.Matches;
  }

  /** The evidence of a payload that answers a command, current and not held back by a blocker. */
  ghost predicate Speaks(issue: R.Issue, u: R.WorkUnit, p: W.Payload) {
    && C.Routable(issue, u) && u.results != [] && p.command != BLANK
    && (var r := u.results[|u.results| - 1];
        && r == EventOf(p).(commentId := r.commentId, effective := true, stale := false)
        && (u.blocker.None? || u.blocker.value.commentId == r.commentId))
  }

  /** What is next after each accepted result of a command. */
  lemma NextAfter(qaRequired: bool, issue: R.Issue, u: R.WorkUnit, p: W.Payload, pat: W.Patterns)
    requires Speaks(issue, u, p) && W.Validate(p, pat) == W.Accepted
    ensures var action := R.DeriveRoute(qaRequired, issue, u).action;
            match p.role
            case Implementor =>
              (match p.outcome
               case CandidateReady => action == (match u.ci.conclusion
                                                 case Success => R.Dispatch(if qaRequired then B.QA else B.Lead)
                                                 case Failure => R.Dispatch(B.Implementor)
                                                 case OtherConclusion => R.NoAction)
               case Continue => action == R.Dispatch(B.Implementor)
               case Blocked => action == R.Dispatch(B.Lead)
               case NoOp => action == R.Dispatch(B.Lead)
               case _ => false)
            case QA =>
              (match p.outcome
               case Approved => action == if u.ci.conclusion == R.Success then R.Dispatch(B.Lead) else R.NoAction
               case ChangesRequired => action == R.Dispatch(B.Lead)
               case BlockedInconclusive =>
                 action == if p.reasonCode != CI_QUEUED then R.Dispatch(B.Lead)
                           else if u.ci.conclusion == R.Success then R.Dispatch(B.QA) else R.NoAction
               case _ => false)
            case Lead =>
              (match p.outcome
               case Dispatch => action.Dispatch? && action.to == RoleOf(p.nextRole)
               case Continue => action == R.Dispatch(B.Lead)
               case Correct => action == R.Dispatch(B.Implementor)
               case ReadyToMerge => action == R.MergeGate || action == R.ManualAttention
               case OwnerRequired => action == R.OwnerAttention
               case Hold => action == R.ManualAttention
               case _ => false)
            case OtherRole(_) => false
  {
    hide B.Matches;
  }

  lemma ReadyToMergeIsLead(p: W.Payload)
    ensures EventOf(p).role == B.Lead && EventOf(p).decision == B.ReadyToMerge <==> p.role == W.Lead && p.outcome == W.ReadyToMerge
  {
  }

  lemma ApprovedIsQa(p: W.Payload)
    ensures EventOf(p).role == B.QA && EventOf(p).verdict == B.Approved ==>
              p.role == W.QA && p.outcome == W.Approved && EventOf(p).head == p.reviewedHead
  {
  }

  /** Where a result came from, and the accepted row behind it if its comment is a stored worker result. */
  lemma RowBehind(issue: R.Issue, project: nat, rows: W.Rows, e: B.Evidence) returns (k: nat)
    requires Projected(issue, project, rows) && e in R.Derived(issue).results && e.effective
    ensures k < |issue.comments| && e.commentId == issue.comments[k].id
    ensures issue.comments[k].id in issue.external ==>
              && issue.comments[k].id >= 0 && (project, issue.comments[k].id) in rows
              && var row := rows[(project, issue.comments[k].id)];
                 && row.validation == W.Accepted && ClaimsHold(issue.pulls, row.payload)
                 && e.decision == EventOf(row.payload).decision && e.role == EventOf(row.payload).role
                 && e.head == EventOf(row.payload).head && e.verdict == EventOf(row.payload).verdict
  {
    var u := R.Derived(issue);
    k := R.ResultComes(R.ParsedOf(issue), u.ambiguous, u.head, e);
    hide R.OpenPulls, R.Results, R.UnsafeLatest, R.Latest, R.Judged, B.Queue, EventOf, ClaimsHold;
    var c := issue.comments[k];
    assert R.ParsedOf(issue)[k] == R.Overlaid(c, issue.external);
    if c.id in issue.external { EffectiveIsAccepted(issue, project, rows, c, u.ambiguous, u.head); }
  }

  /**
   The merge gate from the stores up: it opens only if CI succeeded for the head of the only open pull request; if the
   latest result is a stored worker result, only if that row was accepted as a Lead's merge request for exactly this pull
   request and head; and if the latest QA result is a stored one, only if that row was accepted as an approval of this
   head.
   */
  lemma MergeGateIsGrounded(qaRequired: bool, issue: R.Issue, command: Option<W.Status>, project: nat, rows: W.Rows) returns (k: nat, q: nat)
    requires Projected(issue, project, rows)
    requires R.RouteOf(qaRequired, issue, command).action == R.MergeGate
    ensures k < |issue.comments| && R.Derived(issue).results[|R.Derived(issue).results| - 1].commentId == issue.comments[k].id
    ensures q < |issue.comments| && R.Derived(issue).qa.Some? && R.Derived(issue).qa.value.commentId == issue.comments[q].id
    ensures var open := R.OpenPulls(issue.pulls);
            |open| == 1 && open[0].ci.head == open[0].head && open[0].ci.conclusion == R.Success
    ensures issue.comments[k].id in issue.external ==>
              && issue.comments[k].id >= 0 && (project, issue.comments[k].id) in rows
              && var row := rows[(project, issue.comments[k].id)];
                 var pull := R.OpenPulls(issue.pulls)[0];
                 row.validation == W.Accepted && row.payload.role == W.Lead && row.payload.outcome == W.ReadyToMerge
                 && row.payload.pr == pull.number && row.payload.approvedHead == pull.head
    ensures issue.comments[q].id in issue.external ==>
              && issue.comments[q].id >= 0 && (project, issue.comments[q].id) in rows
              && var row := rows[(project, issue.comments[q].id)];
                 row.validation == W.Accepted && row.payload.role == W.QA && row.payload.outcome == W.Approved
                 && row.payload.reviewedHead == R.OpenPulls(issue.pulls)[0].head
  {
    R.MergeGateIff(qaRequired, issue, command);
    var u := R.Derived(issue);
    var e := u.results[|u.results| - 1];
    R.LatestIsThere(u.results, B.QA);
    k := RowBehind(issue, project, rows, e);
    q := RowBehind(issue, project, rows, u.qa.value);
    if issue.comments[k].id in issue.external { ReadyToMergeIsLead(rows[(project, issue.comments[k].id)].payload); }
    if issue.comments[q].id in issue.external { ApprovedIsQa(rows[(project, issue.comments[q].id)].payload); }
    hide R.RouteOf, R.OpenPulls, R.Results, R.UnsafeLatest, R.Latest, R.Judged, B.Queue, R.Correlate, EventOf;
  }
}

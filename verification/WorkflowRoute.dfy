/**
 From the raw snapshot of an issue to its route (backend/internal/workflow).

 Labels, pull requests and comments are taken after their strings have been normalised; warnings and explanations are
 not modelled.
 */
module WorkflowRoute {
  import opened Prelude
  import opened BlockerQueue
  import W = WorkerResults

  datatype Conclusion = Success | Failure | OtherConclusion

  datatype CI = CI(head: string, conclusion: Conclusion)

  const NO_CI := CI("", OtherConclusion)

  datatype Mergeable = Clean | CanMerge | Unstable | OtherMergeable

  datatype Pull = Pull(open: bool, number: nat, head: string, ci: CI, mergeable: Mergeable)

  datatype Level = Envelope | Heading | Unclassified | Empty

  /** A parsed comment; `event` is its evidence before correlation. */
  datatype Parsed = Parsed(id: int, level: Level, safe: bool, hardError: bool, event: Option<Evidence>)

  /** What the result store projects for a comment. */
  datatype External = External(safe: bool, hardError: bool, event: Option<Evidence>)

  /** `comments` are the canonical comments; `external` the results the Dashboard has stored for some of them. */
  datatype Issue = Issue(closed: bool, terminal: bool, pulls: seq<Pull>, comments: seq<Parsed>, external: map<int, External>)

  datatype Action = NoAction | Dispatch(to: Role) | ManualAttention | OwnerAttention | MergeGate

  datatype Reason =
    | Terminal | AmbiguousCandidate | UnsafeResult | InitialImplementation | StaleResult | UnresolvedBlocker | OwnerNeeded
    | QaRetryAfterCi | WaitingForCi | QaInconclusive | LeadFirst | LeadBlocked | ContinueImplementation | ImplementationNoOp
    | CiFailed | ImplementationCompleted | NoQaNeeded | QaApproved | QaChangesRequired | InvalidResumeRole | LeadDispatch
    | LeadContinue | LeadCorrection | LeadResume | Unhandled
    | MissingCandidate | GateIncomplete | NotMergeable | ReadyToVerify
    | DeliveryOpen | AwaitingWorker | CommandAmbiguous | CommandFailed

  datatype Route = Route(action: Action, reason: Reason)

  datatype WorkUnit = WorkUnit(
    ambiguous: bool, candidate: Option<Pull>, head: string, ci: CI, results: seq<Evidence>,
    qa: Option<Evidence>, qaApprovedHead: string, blocker: Option<Evidence>, unsafeLatest: bool)

  // ---------------------------------------------------------------- evidence

  function ApplyExternal(p: Parsed, x: External): Parsed {
    p.(level := Envelope, safe := x.safe, hardError := x.hardError, event := x.event)
  }

  function Overlaid(p: Parsed, external: map<int, External>): Parsed {
    if p.id in external then ApplyExternal(p, external[p.id]) else p
  }

  /** The parsed comments with the stored results laid over them. */
  function ParsedOf(issue: Issue): (s: seq<Parsed>)
    ensures |s| == |issue.comments| && forall i :: 0 <= i < |s| ==> s[i] == Overlaid(issue.comments[i], issue.external)
    ensures forall i :: 0 <= i < |s| ==>
              var c := issue.comments[i];
              if c.id !in issue.external then s[i] == c
              else var x := issue.external[c.id]; s[i] == Parsed(c.id, Envelope, x.safe, x.hardError, x.event)
  {
    seq(|issue.comments|, i requires 0 <= i < |issue.comments| => Overlaid(issue.comments[i], issue.external))
  }

  function OpenPulls(pulls: seq<Pull>): seq<Pull> {
    if pulls == [] then []
    else OpenPulls(pulls[..|pulls| - 1]) + (if pulls[|pulls| - 1].open then [pulls[|pulls| - 1]] else [])
  }

  /** A CI summary counts only for exactly the current head. */
  function EffectiveCI(ci: CI, head: string): CI {
    if head == "" || ci.head == "" || ci.head != head then NO_CI else ci
  }

  function FromParsed(p: Parsed): Evidence
    requires p.event.Some?
  {
    p.event.value.(commentId := p.id, effective := p.safe && !p.hardError, stale := false)
  }

  predicate CommandBound(e: Evidence) {
    e.command.Some?
  }

  predicate DashboardBound(e: Evidence) {
    e.command.Some? && e.command.value != BLANK
  }

  /** Correlation with the Candidate; `head` is blank when no single Candidate is current. */
  function Correlate(e: Evidence, ambiguous: bool, head: string): Evidence {
    var f := if ambiguous && e.status != Blocked then e.(effective := false) else e;
    if !(e.role == QA || (e.role == Implementor && e.status != Blocked)) then f
    else if head == "" || e.head == "" then f.(effective := false)
    else if e.head == head then f
    else if e.head <= head || head <= e.head then f.(effective := false)
    else f.(stale := true, effective := false)
  }

  function Judged(p: Parsed, ambiguous: bool, head: string): Evidence
    requires p.event.Some?
  {
    var e := FromParsed(p);
    if !CommandBound(e) || e.role != Implementor || (e.status != Continuing && e.status != NoOp)
    then Correlate(e, ambiguous, head) else e
  }

  function Results(parsed: seq<Parsed>, ambiguous: bool, head: string): seq<Evidence> {
    if parsed == [] then []
    else
      var p := parsed[|parsed| - 1];
      Results(parsed[..|parsed| - 1], ambiguous, head) + (if p.event.Some? then [Judged(p, ambiguous, head)] else [])
  }

  /** The last result of a role. */
  function Latest(results: seq<Evidence>, role: Role): Option<Evidence> {
    if results == [] then None
    else if results[|results| - 1].role == role then Some(results[|results| - 1])
    else Latest(results[..|results| - 1], role)
  }

  /** Is the latest comment that looks terminal malformed or incomplete? */
  function UnsafeLatest(parsed: seq<Parsed>): bool {
    if parsed == [] then false
    else
      var p := parsed[|parsed| - 1];
      if p.level == Envelope || p.level == Heading then p.hardError || p.event.None? || !p.safe
      else UnsafeLatest(parsed[..|parsed| - 1])
  }

  function QaApprovedHead(qa: Option<Evidence>): string {
    if qa.Some? && qa.value.verdict == Approved && qa.value.effective then qa.value.head else ""
  }

  function Derived(issue: Issue): WorkUnit {
    var open := OpenPulls(issue.pulls);
    var candidate := if |open| == 1 then Some(open[0]) else None;
    var head := if candidate.Some? then candidate.value.head else "";
    var results := Results(ParsedOf(issue), |open| > 1, head);
    var qa := Latest(results, QA);
    WorkUnit(|open| > 1, candidate, head, if candidate.Some? then EffectiveCI(candidate.value.ci, head) else NO_CI,
             results, qa, QaApprovedHead(qa),
             if Queue(results) == [] then None else Some(Queue(results)[0]), UnsafeLatest(ParsedOf(issue)))
  }

  /** The accumulation over pull requests and comments. */
  method Overlay(issue: Issue) returns (parsed: seq<Parsed>)
    ensures parsed == ParsedOf(issue)
  {
    parsed := [];
    var i := 0;
    while i < |issue.comments|
      invariant 0 <= i <= |issue.comments| && |parsed| == i
      invariant forall j :: 0 <= j < i ==> parsed[j] == Overlaid(issue.comments[j], issue.external)
    {
      var p := issue.comments[i];
      if p.id in issue.external { p := ApplyExternal(p, issue.external[p.id]); }
      parsed := parsed + [p];
      i := i + 1;
    }
  }

  method DeriveWorkUnit(issue: Issue) returns (u: WorkUnit)
    ensures u == Derived(issue)
  {
    var open: seq<Pull> := [];
    var i := 0;
    while i < |issue.pulls|
      invariant 0 <= i <= |issue.pulls| && open == OpenPulls(issue.pulls[..i])
    {
      assert issue.pulls[..i + 1][..i] == issue.pulls[..i];
      if issue.pulls[i].open { open := open + [issue.pulls[i]]; }
      i := i + 1;
    }
    assert issue.pulls[..i] == issue.pulls;
    var ambiguous := |open| > 1;
    var candidate := if |open| == 1 then Some(open[0]) else None;
    var head := if candidate.Some? then candidate.value.head else "";
    var ci := if candidate.Some? then EffectiveCI(candidate.value.ci, head) else NO_CI;

    var parsed := Overlay(issue);
    var results: seq<Evidence> := [];
    var qa: Option<Evidence> := None;
    i := 0;
    while i < |parsed|
      invariant 0 <= i <= |parsed|
      invariant results == Results(parsed[..i], ambiguous, head) && qa == Latest(results, QA)
    {
      assert parsed[..i + 1][..i] == parsed[..i];
      var p := parsed[i];
      if p.event.Some? {
        var e := Judged(p, ambiguous, head);
        assert (results + [e])[..|results|] == results;
        results := results + [e];
        if e.role == QA { qa := Some(e); }
      }
      i := i + 1;
    }
    assert parsed[..i] == parsed;
    var blocker, _ := ActiveBlocker(results);
    var unsafeNow := LatestIsUnsafe(parsed);
    u := WorkUnit(ambiguous, candidate, head, ci, results, qa, QaApprovedHead(qa), blocker, unsafeNow);
  }

  /** The scan for the latest terminal comment, from the end. */
  method LatestIsUnsafe(parsed: seq<Parsed>) returns (found: bool)
    ensures found == UnsafeLatest(parsed)
  {
    var i := |parsed|;
    assert parsed[..i] == parsed;
    while i > 0
      invariant 0 <= i <= |parsed| && UnsafeLatest(parsed) == UnsafeLatest(parsed[..i])
    {
      i := i - 1;
      assert parsed[..i + 1][..i] == parsed[..i];
      var p := parsed[i];
      if p.level == Envelope || p.level == Heading {
        return p.hardError || p.event.None? || !p.safe;
      }
    }
    return false;
  }

  // ---------------------------------------------------------------- routing

  function MergeGateRoute(u: WorkUnit): Route {
    if u.candidate.None? || u.head == "" then Route(ManualAttention, MissingCandidate)
    else if u.ci.conclusion != Success || u.qaApprovedHead != u.head || u.blocker.Some? then Route(ManualAttention, GateIncomplete)
    else if u.candidate.value.mergeable == OtherMergeable then Route(ManualAttention, NotMergeable)
    else Route(MergeGate, ReadyToVerify)
  }

  /** An effective, current result that neither escalates nor is a bound inconclusive QA verdict. */
  function RouteByRole(qaRequired: bool, u: WorkUnit, r: Evidence): Route {
    if r.role == Implementor && DashboardBound(r)
      && r.status == Continuing then Route(Dispatch(Implementor), ContinueImplementation)
    else if r.role == Implementor && DashboardBound(r) && r.status == NoOp then Route(Dispatch(Lead), ImplementationNoOp)
    else if r.role == Implementor && u.ci.conclusion == Failure then Route(Dispatch(Implementor), CiFailed)
    else if r.role == Implementor && u.ci.conclusion != Success then Route(NoAction, WaitingForCi)
    else
      match r.role
      case Implementor =>
        if r.status == Completed || (!DashboardBound(r) && r.status == NoOp)
        then (if qaRequired then Route(Dispatch(QA), ImplementationCompleted) else Route(Dispatch(Lead), NoQaNeeded))
        else Route(ManualAttention, Unhandled)
      case QA =>
        (match r.verdict
         case Approved =>
           if DashboardBound(r) && u.ci.conclusion != Success then Route(NoAction, WaitingForCi) else Route(Dispatch(Lead), QaApproved)
         case ChangesRequired => Route(Dispatch(if DashboardBound(r) then Lead else Implementor), QaChangesRequired)
         case InconclusiveVerdict => Route(Dispatch(Lead), QaInconclusive)
         case _ => Route(ManualAttention, Unhandled))
      case Lead => RouteLead(u, r)
      case OtherRole(_) => Route(ManualAttention, Unhandled)
  }

  function RouteLead(u: WorkUnit, r: Evidence): Route {
    if DashboardBound(r) then
      match r.decision
      case DispatchNext =>
        if r.resumeRole == Some(Lead) || r.resumeRole == Some(Implementor) || r.resumeRole == Some(QA)
        then Route(Dispatch(r.resumeRole.value), LeadDispatch) else Route(ManualAttention, InvalidResumeRole)
      case ContinueWork => Route(Dispatch(Lead), LeadContinue)
      case Correct => Route(Dispatch(Implementor), LeadCorrection)
      case ReadyToMerge => MergeGateRoute(u)
      case _ => Route(ManualAttention, Unhandled)
    else if r.resumeRole.Some? && (r.decision == ContinueWork || r.decision == Correct || r.decision == Resume) then
      if LeadResumeRoleAllowed(r.resumeRole) then Route(Dispatch(r.resumeRole.value), LeadResume) else Route(ManualAttention, InvalidResumeRole)
    else Route(ManualAttention, Unhandled)
  }

  function DeriveRoute(qaRequired: bool, issue: Issue, u: WorkUnit): Route {
    if issue.closed || issue.terminal then Route(NoAction, Terminal)
    else if u.ambiguous then Route(ManualAttention, AmbiguousCandidate)
    else if u.unsafeLatest then Route(ManualAttention, UnsafeResult)
    else if u.results == [] then Route(Dispatch(Implementor), InitialImplementation)
    else
      var r := u.results[|u.results| - 1];
      if !r.effective then Route(ManualAttention, UnsafeResult)
      else if r.stale then Route(ManualAttention, StaleResult)
      else if LeadOwnerEscalation(r) then
        if u.blocker.Some? && u.blocker.value.commentId != r.commentId && !Matches(r, u.blocker.value.commentId)
        then Route(ManualAttention, UnresolvedBlocker) else Route(OwnerAttention, OwnerNeeded)
      else if DashboardBound(r) && r.role == QA && r.status == Inconclusive then
        if r.ciQueued && r.findings == 0
        then (if u.ci.conclusion == Success then Route(Dispatch(QA), QaRetryAfterCi) else Route(NoAction, WaitingForCi))
        else Route(Dispatch(Lead), QaInconclusive)
      else if u.blocker.Some? && r.commentId != u.blocker.value.commentId then Route(ManualAttention, UnresolvedBlocker)
      else if r.status == Blocked then
        if r.role == Implementor || r.role == QA then Route(Dispatch(Lead), LeadFirst) else Route(ManualAttention, LeadBlocked)
      else RouteByRole(qaRequired, u, r)
  }

  /** The process-local overlay: the command selected for the issue by the last refresh. */
  function WithCommand(route: Route, command: Option<W.Status>): Route {
    match command
    case None => route
    case Some(s) =>
      match s
      case Created => Route(NoAction, DeliveryOpen)
      case DeliveryPending => Route(NoAction, DeliveryOpen)
      case AwaitingResult => Route(NoAction, AwaitingWorker)
      case Ambiguous => Route(ManualAttention, CommandAmbiguous)
      case Failed => Route(ManualAttention, CommandFailed)
      case _ => route
  }

  function RouteOf(qaRequired: bool, issue: Issue, command: Option<W.Status>): Route {
    WithCommand(DeriveRoute(qaRequired, issue, Derived(issue)), command)
  }

  // ---------------------------------------------------------------- laws

  /** An Implementor's answer to a command that changed nothing to look at. */
  predicate NoCandidate(e: Evidence) {
    e.command.Some? && e.role == Implementor && (e.status == Continuing || e.status == NoOp)
  }

  /** Evidence about one exact Candidate. */
  predicate OfCandidate(e: Evidence) {
    e.role == QA || (e.role == Implementor && e.status != Blocked && !NoCandidate(e))
  }

  /**
   What correlation makes of a parsed result: it is effective exactly when it is sound, speaks of the current head if it
   is about a Candidate, and, unless it is blocked, no second pull request is open; it is stale exactly when it is about a
   Candidate and names a head that is not an abbreviation of the current one, nor the other way round.
   */
  lemma JudgedIff(p: Parsed, ambiguous: bool, head: string)
    requires p.event.Some?
    ensures var e, r := p.event.value, Judged(p, ambiguous, head);
            && r == e.(commentId := p.id, effective := r.effective, stale := r.stale)
            && (r.effective <==>
                  && p.safe && !p.hardError
                  && (ambiguous ==> e.status == Blocked || NoCandidate(e))
                  && (OfCandidate(e) ==> head != "" && e.head == head))
            && (r.stale <==> OfCandidate(e) && head != "" && e.head != "" && !(e.head <= head) && !(head <= e.head))
  {
  }

  /** Candidate-bound evidence that stays effective names exactly the current head. */
  lemma {:induction false} EffectiveQaIsExact(parsed: seq<Parsed>, ambiguous: bool, head: string, e: Evidence)
    requires e in Results(parsed, ambiguous, head) && e.role == QA && e.effective
    ensures head != "" && e.head == head && !e.stale && (!ambiguous || e.status == Blocked)
    decreases |parsed|
  {
    var n := |parsed| - 1;
    if e in Results(parsed[..n], ambiguous, head) {
      EffectiveQaIsExact(parsed[..n], ambiguous, head, e);
    } else {
      assert e == Judged(parsed[n], ambiguous, head);
    }
  }

  lemma {:induction false} LatestIsThere(results: seq<Evidence>, role: Role)
    ensures var l := Latest(results, role);
            l.Some? ==> l.value in results && l.value.role == role
  {
    if results != [] { LatestIsThere(results[..|results| - 1], role); }
  }

  /** A command that blocks automatic work. */
  predicate Holding(command: Option<W.Status>) {
    command in {Some(W.Created), Some(W.DeliveryPending), Some(W.AwaitingResult), Some(W.Ambiguous), Some(W.Failed)}
  }

  /** The latest result is a Lead's merge request from a Dashboard command. */
  predicate AsksForMerge(r: Evidence) {
    r.role == Lead && r.decision == ReadyToMerge && r.effective && DashboardBound(r) && r.status != Blocked
      && r.escalateTo != Owner
  }

  /** Everything that can be observed about the gate. */
  predicate GateOpen(issue: Issue) {
    var open := OpenPulls(issue.pulls);
    && !issue.closed && !issue.terminal && |open| == 1
    && var c := open[0];
       var results := Results(ParsedOf(issue), false, c.head);
       && c.head != "" && c.ci.head == c.head && c.ci.conclusion == Success && c.mergeable != OtherMergeable
       && !UnsafeLatest(ParsedOf(issue))
       && results != [] && AsksForMerge(results[|results| - 1])
       && Latest(results, QA).Some? && Latest(results, QA).value.effective
       && Latest(results, QA).value.verdict == Approved && Latest(results, QA).value.head == c.head
       && Queue(results) == []
  }

  lemma {:induction false} LeadIsNeverStale(parsed: seq<Parsed>, ambiguous: bool, head: string, e: Evidence)
    requires e in Results(parsed, ambiguous, head) && e.role == Lead
    ensures !e.stale
    decreases |parsed|
  {
    var n := |parsed| - 1;
    if e in Results(parsed[..n], ambiguous, head) {
      LeadIsNeverStale(parsed[..n], ambiguous, head, e);
    } else {
      assert e == Judged(parsed[n], ambiguous, head);
    }
  }

  /** The route is the merge gate exactly when every observable gate is open and no command of the issue is in the way. */
  lemma MergeGateIff(qaRequired: bool, issue: Issue, command: Option<W.Status>)
    ensures RouteOf(qaRequired, issue, command).action == MergeGate <==> GateOpen(issue) && !Holding(command)
  {
    hide Queue, OpenPulls, Results, UnsafeLatest, Latest, Matches;
    var u := Derived(issue);
    LatestIsThere(u.results, QA);
    if u.results != [] && u.results[|u.results| - 1].role == Lead {
      assert u.results[|u.results| - 1] in u.results;
      LeadIsNeverStale(ParsedOf(issue), u.ambiguous, u.head, u.results[|u.results| - 1]);
    }
  }

  /** The latest result may be acted on, and no unresolved blocker stands before it. */
  predicate Unhindered(u: WorkUnit, r: Evidence) {
    r.effective && !r.stale && !LeadOwnerEscalation(r)
    && (u.blocker.None? || r.commentId == u.blocker.value.commentId) && r.status != Blocked
  }

  /** What sends the work to QA: a retry after CI, a finished implementation, or the Lead. */
  predicate WantsQa(qaRequired: bool, u: WorkUnit, r: Evidence) {
    || (r.effective && !r.stale && r.role == QA && DashboardBound(r) && r.status == Inconclusive
        && r.ciQueued && r.findings == 0 && u.ci.conclusion == Success)
    || (Unhindered(u, r) && r.role == Implementor && qaRequired && u.ci.conclusion == Success
        && (r.status == Completed || (!DashboardBound(r) && r.status == NoOp)))
    || (Unhindered(u, r) && r.role == Lead && r.resumeRole == Some(QA)
        && (if DashboardBound(r) then r.decision == DispatchNext
            else r.decision == ContinueWork || r.decision == Correct || r.decision == Resume))
  }

  /** QA is dispatched exactly then; by evidence of its own, never before CI succeeded on exactly the current head. */
  lemma QaDispatchIff(qaRequired: bool, issue: Issue)
    ensures var u := Derived(issue);
            DeriveRoute(qaRequired, issue, u).action == Dispatch(QA) <==>
            && !issue.closed && !issue.terminal && !u.ambiguous && !u.unsafeLatest && u.results != []
            && WantsQa(qaRequired, u, u.results[|u.results| - 1])
    ensures var u := Derived(issue);
            u.ci.conclusion == Success ==> u.candidate.Some? && u.head != "" && u.ci.head == u.head == u.candidate.value.head
  {
    hide Queue, OpenPulls, Results, UnsafeLatest, Latest, Matches;
  }

  /** Comments keep their identities when they become results. */
  lemma {:induction false} ResultComes(parsed: seq<Parsed>, ambiguous: bool, head: string, e: Evidence) returns (k: nat)
    requires e in Results(parsed, ambiguous, head)
    ensures k < |parsed| && parsed[k].event.Some? && e == Judged(parsed[k], ambiguous, head) && parsed[k].id == e.commentId
    decreases |parsed|
  {
    hide Correlate;
    var n := |parsed| - 1;
    if e in Results(parsed[..n], ambiguous, head) {
      k := ResultComes(parsed[..n], ambiguous, head, e);
    } else {
      assert e == Judged(parsed[n], ambiguous, head);
      JudgedId(parsed[n], ambiguous, head);
      k := n;
    }
  }

  lemma JudgedId(p: Parsed, ambiguous: bool, head: string)
    requires p.event.Some?
    ensures Judged(p, ambiguous, head).commentId == p.id
  {
  }

  /** When the latest result is the active blocker's own comment, it is the blocker. */
  lemma BlockerIsLatest(issue: Issue)
    requires forall i, j :: 0 <= i < j < |issue.comments| ==> issue.comments[i].id != issue.comments[j].id
    requires var u := Derived(issue);
             u.blocker.Some? && u.results != [] && u.results[|u.results| - 1].commentId == u.blocker.value.commentId
    ensures Derived(issue).results[|Derived(issue).results| - 1].status == Blocked
  {
    var u := Derived(issue);
    var at := QueueInOrder(u.results);
    hide Queue, Judged, Results;
    assert u.blocker.value == u.results[at[0]];
    var i := ResultComes(ParsedOf(issue), u.ambiguous, u.head, u.blocker.value);
    var j := ResultComes(ParsedOf(issue), u.ambiguous, u.head, u.results[|u.results| - 1]);
    assert i == j;
  }

  lemma BlockerNeedsResults(issue: Issue)
    ensures Derived(issue).blocker.Some? ==> Derived(issue).results != []
  {
  }

  /**
   Under an active blocker the derived route sends no worker other than the Lead, except for one arm: a bound QA verdict
   that is inconclusive only because CI was queued is retried once CI succeeded. The arm is taken before the blocker is
   looked at.
   */
  lemma NonLeadUnderBlockerIff(qaRequired: bool, issue: Issue)
    requires forall i, j :: 0 <= i < j < |issue.comments| ==> issue.comments[i].id != issue.comments[j].id
    requires Derived(issue).blocker.Some?
    ensures var u := Derived(issue);
            var route := DeriveRoute(qaRequired, issue, u);
            (route.action.Dispatch? && route.action.to != Lead) <==>
            && !issue.closed && !issue.terminal && !u.ambiguous && !u.unsafeLatest && u.results != []
            && var r := u.results[|u.results| - 1];
               r.effective && !r.stale && DashboardBound(r) && r.role == QA && r.status == Inconclusive
               && r.ciQueued && r.findings == 0 && u.ci.conclusion == Success
  {
    var u := Derived(issue);
    if u.results != [] && u.results[|u.results| - 1].commentId == u.blocker.value.commentId {
      BlockerIsLatest(issue);
    }
    BlockerNeedsResults(issue);
    hide Derived, Matches, RouteByRole;
  }

  const STUCK: Evidence := Evidence(0, Implementor, Blocked, "", NoVerdict, NoDecision, None, Absent, Nobody, None, false, 0, false, false)
  const QUEUED: Evidence := Evidence(0, QA, Inconclusive, "a", InconclusiveVerdict, NoDecision, None, Absent, Nobody, Some(9), true, 0, false, false)
  const RETRIED: Issue := Issue(
    false, false, [Pull(true, 1, "a", CI("a", Success), Clean)],
    [Parsed(1, Envelope, true, false, Some(STUCK)), Parsed(2, Envelope, true, false, Some(QUEUED))], map[])

  lemma OnePull(pull: Pull)
    requires pull.open
    ensures OpenPulls([pull]) == [pull]
  {
    assert [pull][..0] == [];
  }

  lemma TwoResults(p: Parsed, q: Parsed, head: string)
    requires p.event.Some? && q.event.Some?
    ensures Results([p, q], false, head) == [Judged(p, false, head), Judged(q, false, head)]
  {
    hide Judged;
    assert [p, q][..1] == [p] && [p][..0] == [];
    assert Results([p], false, head) == [Judged(p, false, head)];
  }

  lemma OneQueued(a: Evidence, b: Evidence)
    requires a.role == Implementor && a.status == Blocked && a.effective && b.role == QA && b.status != Blocked
    ensures Queue([a, b]) == [a]
  {
    assert [a, b][..1] == [a] && [a][..0] == [];
    assert Queue([]) == [];
    assert Enters([], a);
    assert Queue([a]) == [a];
    assert !Resolving([a], b) && !Enters([a], b);
  }

  lemma SafeLatest(p: Parsed, q: Parsed)
    requires q.level == Envelope && !q.hardError && q.event.Some? && q.safe
    ensures !UnsafeLatest([p, q])
  {
  }

  lemma RetriedEvidence()
    ensures var a, b := Judged(RETRIED.comments[0], false, "a"), Judged(RETRIED.comments[1], false, "a");
            && a.role == Implementor && a.status == Blocked && a.effective
            && b.role == QA && b.status == Inconclusive && b.effective && !b.stale && DashboardBound(b) && b.ciQueued
              && b.findings == 0
  {
  }

  /** The exceptional arm exists: a blocker is active, and the route still dispatches QA. */
  lemma QaRetryUnderBlocker()
    ensures Derived(RETRIED).blocker.Some?
    ensures DeriveRoute(true, RETRIED, Derived(RETRIED)) == Route(Dispatch(QA), QaRetryAfterCi)
  {
    hide Judged, Correlate, OpenPulls, Results, Queue, UnsafeLatest, Latest, DashboardBound, Matches, RouteByRole;
    RetriedEvidence();
    var p, q := RETRIED.comments[0], RETRIED.comments[1];
    assert ParsedOf(RETRIED) == [p, q];
    OnePull(RETRIED.pulls[0]);
    TwoResults(p, q, "a");
    OneQueued(Judged(p, false, "a"), Judged(q, false, "a"));
    SafeLatest(p, q);
  }
}

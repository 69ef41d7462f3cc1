/**
 What the status of a workflow command says, in terms of what stands on GitHub and what the transport reported
 (backend/internal/workerloop). Nothing here is stated through the functions that compute it.
 */
module CommandStatus {
  import opened Prelude
  import opened WorkerResults

  // ---------------------------------------------------------------- transitions

  /** A command that no result and no failure has ended. */
  predicate Open(s: Status) {
    s == Created || s == DeliveryPending || s == AwaitingResult
  }

  /** The allowed transitions are exactly the upward ones, except that an ended command is never superseded. */
  lemma TransitionIff(was: Status, now: Status)
    ensures AllowedTransition(was, now) <==> Rank(was) < Rank(now) && (Open(was) || now == Ambiguous)
    ensures Open(was) <==> Rank(was) < 3
  {
  }

  /** What a transport callback leaves of a command, outcome by outcome. */
  lemma CallbackIff(c: Command, d: Delivery)
    ensures var s := AfterDelivery(c, d).status;
            && AfterDelivery(c, d) == c.(status := s)
            && (!Open(c.status) || d == UnknownDelivery ==> s == c.status)
            && (Open(c.status) && d == Delivered ==> s == AwaitingResult)
            && (Open(c.status) && d == Uncertain ==> s == Ambiguous)
            && (Open(c.status) && d == Invalidated ==> s == Superseded)
            && (Open(c.status) && d in {DeliveryFailed, Cancelled, Expired} ==> s == Failed)
            && (Open(c.status) && d in {Pending, Claimed} ==> s == if c.status == AwaitingResult then AwaitingResult else DeliveryPending)
  {
  }

  // ---------------------------------------------------------------- markers

  /** The payloads the protocol accepts. */
  predicate Proper(p: Payload, pat: Patterns) {
    && p.version == 1 && pat.isCommand(p.command)
    && (|| (p.role == Implementor
            && (|| (p.outcome == CandidateReady && p.pr > 0 && pat.isSha(p.head))
                || p.outcome == Continue
                || (p.outcome == Blocked && pat.isBlocker(p.blockerType) && pat.isReason(p.reasonCode))
                || (p.outcome == NoOp && pat.isReason(p.reasonCode))))
        || (p.role == QA && pat.isSha(p.reviewedHead) && p.findings.Some?
            && (|| (p.outcome == Approved && p.findings.value == 0)
                || (p.outcome == ChangesRequired && p.findings.value > 0 && pat.isCycle(p.cycleEscalation))
                || (p.outcome == BlockedInconclusive && p.findings.value == 0
                    && pat.isBlocker(p.blockerType) && pat.isReason(p.reasonCode))))
        || (p.role == Lead
            && (|| (p.outcome == Dispatch && (p.nextRole == Lead || p.nextRole == Implementor || p.nextRole == QA))
                || p.outcome == Continue
                || (p.outcome == Correct && p.nextRole == Implementor)
                || (p.outcome == ReadyToMerge && p.pr > 0 && pat.isSha(p.approvedHead))
                || ((p.outcome == OwnerRequired || p.outcome == Hold) && pat.isReason(p.reasonCode)))))
  }

  /** The outcomes a role has a word for. */
  predicate Spoken(p: Payload) {
    || (p.role == Implementor && p.outcome in {CandidateReady, Continue, Blocked, NoOp})
    || (p.role == QA && p.outcome in {Approved, ChangesRequired, BlockedInconclusive})
    || (p.role == Lead && p.outcome in {Dispatch, Continue, Correct, ReadyToMerge, OwnerRequired, Hold})
  }

  lemma AcceptedIff(p: Payload, pat: Patterns)
    ensures Validate(p, pat) in {Accepted, Malformed, Unsupported}
    ensures Validate(p, pat) == Accepted <==> Proper(p, pat)
    ensures Validate(p, pat) == Unsupported <==>
            || p.version != 1
            || (pat.isCommand(p.command) && !Spoken(p) && (p.role == QA ==> pat.isSha(p.reviewedHead) && p.findings.Some?))
  {
  }

  /** The candidate a verdict or a merge request speaks of is not the one its command expects. */
  predicate WrongHead(c: Command, p: Payload) {
    c.expectedHead != ""
    && ((p.role == QA && p.reviewedHead != c.expectedHead) || (p.role == Lead && p.outcome == ReadyToMerge && p.approvedHead != c.expectedHead))
  }

  /** The row of a marker records its text, and is accepted, or refused, for exactly these reasons. */
  lemma CorrelatedIff(cs: Commands, project: nat, issue: nat, m: Marker, pat: Patterns)
    ensures var row := Correlated(cs, project, issue, m, pat);
            var p := m.payload;
            var proper := m.decoded && Proper(p, pat);
            var here := p.command in cs && cs[p.command].project == project && cs[p.command].issue == issue;
            && row.issue == issue && row.command == p.command && row.payload == p
            && (row.validation == Accepted <==> proper && here && cs[p.command].role == p.role && !WrongHead(cs[p.command], p))
            && (row.validation == Unbound <==> proper && !here)
            && (row.validation == WrongRole <==> proper && here && cs[p.command].role != p.role)
            && (row.validation == StaleHead <==> proper && here && cs[p.command].role == p.role && WrongHead(cs[p.command], p))
            && (!m.decoded ==> row.validation == Malformed)
            && row.validation != Disputed
  {
    AcceptedIff(m.payload, pat);
    hide Validate, Proper, Spoken;
  }

  // ---------------------------------------------------------------- observation

  /** The status a payload speaks for. */
  predicate Says(p: Payload, s: Status) {
    var inconclusive := p.role == QA && p.outcome == BlockedInconclusive;
    var stopped := (p.role == Implementor && p.outcome == Blocked) || (p.role == Lead && p.outcome in {OwnerRequired, Hold});
    match s
    case Inconclusive => inconclusive
    case Stopped => stopped
    case Completed => !inconclusive && !stopped
    case _ => false
  }

  /** A comment of the snapshot carries this result of the command, and was not accepted with another before. */
  ghost predicate Stands(was: Store, s: Snapshot, pat: Patterns, id: Id, p: Payload) {
    exists a :: 0 <= a < |s.comments| && Asks(was.commands, s, pat, a, id, p) && !Edited(was.rows, s, a, p)
  }

  lemma OneSettles(c: Command, accepted: set<Payload>, p: Payload)
    requires accepted == {p} && KnownRole(p.role) && c.status !in {Ambiguous, Superseded}
    ensures var now := Settled(c, accepted);
            if Open(c.status) || Says(p, c.status) then Says(p, now) else now == Ambiguous
  {
    assert Single(accepted) == p;
  }

  /**
   What one observation makes of a command. Without a result that stands, an open command stays as it is and an ended one
   becomes ambiguous; with one result, an open command gets the status it speaks for and an ended one keeps its status
   only if it is that one; with several it is ambiguous. Ambiguous and superseded commands, and those of other issues,
   stay what they are.
   */
  lemma ObservationIff(was: Store, now: Store, s: Snapshot, pat: Patterns, id: Id)
    requires Observed(was, now, s, pat) && KeyedById(was.commands) && id in was.commands
    ensures id in now.commands && now.commands[id] == was.commands[id].(status := now.commands[id].status)
    ensures var c, d := was.commands[id], now.commands[id];
            if c.project != s.project || c.issue !in s.issues || c.status in {Ambiguous, Superseded} then d.status == c.status
            else if forall p :: !Stands(was, s, pat, id, p) then d.status == if Open(c.status) then c.status else Ambiguous
            else if exists p, q :: p != q && Stands(was, s, pat, id, p) && Stands(was, s, pat, id, q) then d.status == Ambiguous
            else exists p :: Stands(was, s, pat, id, p)
                             && (if Open(c.status) || Says(p, c.status) then Says(p, d.status) else d.status == Ambiguous)
  {
    hide Recorded, Settled, Stands, AcceptedPayloads, InConflict, Says;
    var done := Synced(was.commands, s.project, s.issues);
    var rows :| Recorded(was.rows, rows, was.commands, s, pat) && Reconciled(Store(was.commands, rows), now, s.project, done);
    var accepted := AcceptedPayloads(rows, s.project, id);
    forall p
      ensures p in accepted <==> Stands(was, s, pat, id, p)
    {
      StandsIff(was, rows, s, pat, id, p);
    }
    SettledFrom(was.commands[id], accepted);
    if p :| p in accepted {
      AcceptedIsGenuine(was.rows, rows, was.commands, s, pat, id, p);
      KnownSender(p, was.commands[id], pat);
      if q :| q in accepted && q != p { MoreThanOne(accepted, p, q); } else {
        assert accepted == {p};
        if was.commands[id].status !in {Ambiguous, Superseded} { OneSettles(was.commands[id], accepted, p); }
      }
    }
  }

  lemma StandsIff(was: Store, rows: Rows, s: Snapshot, pat: Patterns, id: Id, p: Payload)
    requires Recorded(was.rows, rows, was.commands, s, pat)
    ensures p in AcceptedPayloads(rows, s.project, id) <==> Stands(was, s, pat, id, p)
  {
    hide Recorded, Asks, Edited, AcceptedPayloads;
    RecordedPayload(was.rows, rows, was.commands, s, pat, id, p);
  }

  lemma SettledFrom(c: Command, accepted: set<Payload>)
    ensures var now := Settled(c, accepted);
            && (c.status in {Ambiguous, Superseded} ==> now == c.status)
            && (c.status !in {Ambiguous, Superseded} && accepted == {} ==> now == if Open(c.status) then c.status else Ambiguous)
            && (c.status !in {Ambiguous, Superseded} && |accepted| > 1 ==> now == Ambiguous)
  {
  }
}

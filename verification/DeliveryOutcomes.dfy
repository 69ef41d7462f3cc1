/**
 What each transaction of the delivery service decides, and on what evidence (backend/internal/delivery).

 The conditions are stated over what the transaction reads, without the functions that compute the decision.
 */
module DeliveryOutcomes {
  import opened Prelude
  import opened DeliveryCommands

  /** A binding that is ready for the lane and completely identified. */
  predicate Steady(b: Resolution, lane: Id) {
    && b.Ready? && b.lane == lane && b.bindingVersion > 0 && b.presence != NoToken
    && b.bindingId != BLANK && b.worker != BLANK && b.session != BLANK && b.target != BLANK
  }

  /** The plan is the one confirmed, and the route of this moment still asks for it. */
  predicate Confirmable(input: Confirmation, a: Authority) {
    && a.planPresent && a.planValid && a.planHash != BLANK && a.planLane != BLANK
    && input.planHash == a.planHash && input.contextHash == a.contextHash == a.planContext
    && input.head == a.currentHead == a.planHead && input.lane == a.routeLane == a.planLane
    && a.routeAction == Dispatch && a.planAction == Dispatch && a.planRole == a.routeRole
  }

  predicate SameBinding(input: Confirmation, b: Resolution)
    requires b.Ready?
  {
    input.bindingId == b.bindingId && input.bindingVersion == b.bindingVersion && input.presence == b.presence
  }

  /** Exactly when a confirmation is authorised, what it freezes, and the reason of a refusal. */
  lemma AuthorizeIff(id: Id, project: nat, issue: nat, input: Confirmation, v: View, ttl: nat)
    ensures var r := Authorize(id, project, issue, input, v, ttl);
            && (r.Ok? <==> v.authority.Some? && Confirmable(input, v.authority.value)
                           && Steady(v.binding, v.authority.value.planLane) && SameBinding(input, v.binding))
            && (r == Err(ErrOther) <==> v.authority.None?)
            && (r == Err(ErrUnavailable) <==> v.authority.Some? && Confirmable(input, v.authority.value)
                                              && !Steady(v.binding, v.authority.value.planLane))
            && (r.Ok? || r.error in {ErrOther, ErrUnavailable, ErrConflict})
    ensures var r := Authorize(id, project, issue, input, v, ttl);
            r.Ok? ==>
              var c, f, a, b := r.value, r.value.frozen, v.authority.value, v.binding;
              && c.id == id && c.status == Pending && c.claim.None? && c.terminalAt.None?
              && f.project == project && f.issue == issue && f.key == input.key && f.planId == input.planId
              && f.planHash == input.planHash && f.contextHash == input.contextHash && f.head == input.head
                && f.lane == input.lane
              && f.prompt == a.planPrompt && f.promptHash == Hash(a.planPrompt) && f.action == Dispatch && f.role == a.planRole
              && f.bindingId == input.bindingId && f.bindingVersion == input.bindingVersion && f.presence == input.presence
              && f.worker == b.worker && f.session == b.session && f.target == b.target
              && f.createdAt == v.now && f.expiresAt == v.now + ttl
  {
  }

  /** The plan, the context and the route of this moment are the frozen ones. */
  predicate StillPlanned(f: Frozen, a: Authority) {
    && a.planPresent && a.planValid && a.planHash == f.planHash && a.planAction == f.action == a.routeAction
    && a.planRole == f.role == a.routeRole && a.planLane == f.lane == a.routeLane
    && a.planHead == f.head == a.currentHead && a.planContext == f.contextHash == a.contextHash
  }

  /** The lane is still served by the frozen row, session, target and token. */
  predicate StillBound(f: Frozen, b: Resolution)
    requires b.Ready?
  {
    b.bindingId == f.bindingId && b.bindingVersion == f.bindingVersion && b.worker == f.worker && b.session == f.session
    && b.target == f.target && b.presence == f.presence
  }

  /** Exactly when a pending command's frozen authority is current. */
  lemma StaleIff(c: Command, v: View)
    ensures Stale(c, v).None? <==>
            && v.authority.Some? && StillPlanned(c.frozen, v.authority.value)
            && Steady(v.binding, c.frozen.lane) && StillBound(c.frozen, v.binding)
    ensures Stale(c, v) == Some(ErrOther) <==> v.authority.None?
    ensures Stale(c, v) == Some(ErrUnavailable) <==>
            v.authority.Some? && StillPlanned(c.frozen, v.authority.value) && !Steady(v.binding, c.frozen.lane)
    ensures Stale(c, v).Some? ==> Stale(c, v).value in {ErrOther, ErrUnavailable, ErrConflict}
  {
  }

  /** A row ended by a transaction: its status, when, and what for. */
  predicate Ended(c: Command, d: Command, to: Status, now: nat, reason: string, evidence: string) {
    && d.id == c.id && d.frozen == c.frozen && d.claim == c.claim
    && d.status == to && d.terminalAt == Some(now) && d.reason == reason && d.evidence == evidence
  }

  /** Only the row may differ. */
  ghost predicate OnlyRow(t: Table, u: Table, id: Id) {
    |u.rows| == |t.rows| && forall x: Id :: Has(t, x) && x != id ==> Row(u, x) == Row(t, x)
  }

  predicate Taken(t: Table, worker: Id, request: Id) {
    exists i :: 0 <= i < |t.rows| && t.rows[i].frozen.worker == worker && t.rows[i].claim.Some?
      && t.rows[i].claim.value.request == request
  }

  lemma TakenIff(t: Table, worker: Id, request: Id)
    ensures Taken(t, worker, request) <==> FindRequest(t.rows, worker, request, 0).Some?
  {
    var r := FindRequest(t.rows, worker, request, 0);
    if r.Some? { assert RequestedBy(t.rows[r.value], worker, request); }
    if Taken(t, worker, request) {
      var i :| 0 <= i < |t.rows| && t.rows[i].frozen.worker == worker && t.rows[i].claim.Some?
        && t.rows[i].claim.value.request == request;
      assert RequestedBy(t.rows[i], worker, request);
    }
  }

  /** The transaction of one pending candidate, outcome by outcome. */
  lemma ClaimIff(t: Table, id: Id, req: ClaimRequest, v: View, ttl: nat)
    requires Inv(t) && Has(t, id) && Row(t, id).status == Pending
    ensures var (u, verdict) := ClaimTx(t, id, req, v, ttl);
            var c := Row(t, id);
            var late, stale := v.now >= c.frozen.expiresAt, Stale(c, v);
            var mine := req.worker == c.frozen.worker && req.session == c.frozen.session;
            && OnlyRow(t, u, id)
            && (late ==> verdict == Passed && Ended(c, Row(u, id), Expired, v.now, "expired", ""))
            && (!late && stale in {Some(ErrConflict), Some(ErrUnavailable)} ==>
                  verdict == Passed && Ended(c, Row(u, id), Invalidated, v.now, "stale_authority", ""))
            && (!late && stale.Some? && stale.value !in {ErrConflict, ErrUnavailable} ==> verdict == Stopped(stale.value) && u == t)
            && (!late && stale.None? && !mine ==> verdict == Stopped(ErrConflict) && u == t)
            && (!late && stale.None? && mine && Taken(t, req.worker, req.request) ==> verdict == Duplicate && u == t)
            && (!late && stale.None? && mine && !Taken(t, req.worker, req.request) ==>
                  && verdict == Won(Row(u, id)) && u.claims == t.claims + 1
                  && Row(u, id) == c.(status := Claimed, claim := Some(Claim(t.claims + 1, req.request, v.now, v.now + ttl))))
  {
    TakenIff(t, req.worker, req.request);
    RowIsOk(t, id);
    hide Stale, Inv, FindRequest, Taken;
  }

  /** What a completion may report. */
  predicate Reportable(k: Completion) {
    k.outcome in {Delivered, Failed, Uncertain} && BLANK !in {k.command, k.claim} && |k.reason| <= 256 && |k.evidence| <= 4096
  }

  /** A completion, case by case: refused as malformed, unknown or of another claim, repeated, late, or accepted. */
  lemma CompleteIff(t: Table, k: Completion, now: nat)
    requires Inv(t)
    ensures var (u, r) := CompleteTx(t, k, now);
            && (!Reportable(k) ==> r == Err(ErrInvalid) && u == t)
            && (Reportable(k) && !Has(t, k.command) ==> r == Err(ErrNotFound) && u == t)
            && (Reportable(k) && Has(t, k.command) ==>
                  var c := Row(t, k.command);
                  var claimed := c.claim.Some? && c.claim.value.id == k.claim;
                  var again := c.status == k.outcome && c.reason == k.reason && c.evidence == k.evidence;
                  && OnlyRow(t, u, k.command)
                  && (!claimed || (c.status != Claimed && !again) ==> r == Err(ErrConflict) && u == t)
                  && (claimed && again ==> r == Ok(c) && u == t)
                  && (claimed && c.status == Claimed && now >= c.claim.value.deadline ==>
                        r == Err(ErrConflict) && Ended(c, Row(u, k.command), Uncertain, now, "claim_ack_deadline", ""))
                  && (claimed && c.status == Claimed && now < c.claim.value.deadline ==>
                        r == Ok(Row(u, k.command)) && Ended(c, Row(u, k.command), k.outcome, now, k.reason, k.evidence)))
  {
    if Has(t, k.command) { RowIsOk(t, k.command); }
    hide Inv;
  }

  /** The periodic reconciliation, row by row. */
  lemma ReconcileIff(t: Table, now: nat, id: Id)
    requires Inv(t) && Has(t, id)
    ensures var u := ReconcileTx(t, now);
            |u.rows| == |t.rows| && u.claims == t.claims
            && var c, d := Row(t, id), Row(u, id);
               && (c.status == Pending && now >= c.frozen.expiresAt ==> Ended(c, d, Expired, now, "expired", c.evidence))
               && (c.status == Claimed && now >= c.claim.value.deadline ==> Ended(c, d, Uncertain, now, "claim_ack_deadline", c.evidence))
               && (!(c.status == Pending && now >= c.frozen.expiresAt) && !(c.status == Claimed && now >= c.claim.value.deadline) ==> d == c)
  {
    RowIsOk(t, id);
  }

  /** Cancellation and the coordinator's withdrawal end a pending row and touch nothing else. */
  lemma WithdrawIff(t: Table, id: Id, now: nat, reason: string)
    requires Inv(t)
    ensures var (u, r) := CancelTx(t, id, now);
            && (id == BLANK ==> r == Err(ErrInvalid) && u == t)
            && (id != BLANK && !Has(t, id) ==> r == Err(ErrNotFound) && u == t)
            && (Has(t, id) && Row(t, id).status != Pending ==> r == Err(ErrConflict) && u == t)
            && (Has(t, id) && Row(t, id).status == Pending ==>
                  r == Ok(Row(u, id)) && OnlyRow(t, u, id) && Ended(Row(t, id), Row(u, id), Cancelled, now, "cancelled", ""))
    ensures var u := InvalidateTx(t, id, now, reason);
            if Has(t, id) && Row(t, id).status == Pending
            then OnlyRow(t, u, id) && u.claims == t.claims
              && Ended(Row(t, id), Row(u, id), Invalidated, now, reason, Row(t, id).evidence)
            else u == t
  {
    if Has(t, id) { RowIsOk(t, id); }
    hide Inv;
  }
}

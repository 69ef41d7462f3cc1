/**
 Withdrawal of a browser delivery whose confirmation failed after the delivery was created
 (DeliveryCoordinator.invalidatePendingDelivery, backend/internal/workerloop/delivery.go).

 One guarded update stands between a failed confirmation and the page. This module says exactly what it is worth, over
 everything the whole system may do afterwards.
 */
module Withdrawal {
  import opened Prelude
  import B = BrowserProtocol
  import D = DeliveryCommands
  import E = EndToEnd
  import G = BrowserBinding
  import K = DeliveryLinks
  import L = ClaimLedger
  import P = PresenceContinuity
  import W = WorkerResults

  /** The guarded update, as an event of the backend. */
  function Withdraw(k: Id, now: nat, reason: string): B.Event {
    B.Backend(D.Invalidate(k, now, reason))
  }

  /** A delivery of this installation. */
  ghost predicate Ours(t: D.Table, k: Id) {
    D.Has(t, k) && D.Row(t, k).frozen.worker == B.WORKER
  }

  lemma WithdrawnRow(s: B.State, k: Id, now: nat, reason: string)
    requires D.Inv(s.table) && D.Has(s.table, k)
    ensures var t := B.Step(s, Withdraw(k, now, reason));
            if D.Row(s.table, k).status == D.Pending
            then D.Has(t.table, k) && D.Row(t.table, k).status == D.Invalidated
                 && D.Row(t.table, k).claim == D.Row(s.table, k).claim && D.Row(t.table, k).frozen == D.Row(s.table, k).frozen
            else t == s
  {
    hide D.Inv;
    D.RowIsOk(s.table, k);
  }

  /** A command without a claim has no click. */
  lemma ClaimlessIsUnclicked(s: B.State, k: Id)
    requires B.Joint(s) && D.Has(s.table, k) && D.Row(s.table, k).claim.None?
    ensures s.clicks[k] == 0
  {
    forall i | 0 <= i < |s.messages|
      ensures s.messages[i].command != k
    {
      assert B.Owns(s.table, s.messages[i].claim, s.messages[i].command);
    }
  }

  /** A delivery withdrawn while it is pending is never clicked, even by service workers that reuse a session. */
  lemma InTime(s: B.State, k: Id, now: nat, reason: string, es: seq<B.Event>)
    requires B.Joint(s) && D.Has(s.table, k) && D.Row(s.table, k).status == D.Pending
    ensures B.Run(B.Step(s, Withdraw(k, now, reason)), es).clicks[k] == 0
  {
    var t := B.Step(s, Withdraw(k, now, reason));
    assert D.Inv(s.table);
    WithdrawnRow(s, k, now, reason);
    B.StepKeepsJoint(s, Withdraw(k, now, reason));
    D.RowIsOk(s.table, k);
    hide B.Joint, B.Step, B.Run, D.Inv, D.Evolves;
    B.RunKeepsJoint(t, es);
    B.RunEvolves(t, es);
    K.RowMoves(t.table, B.Run(t, es).table, k);
    ClaimlessIsUnclicked(B.Run(t, es), k);
  }

  // ---------------------------------------------------------------- who can never be claimed again

  /** The frozen authority is gone for good, or was not heard of for longer than the time to live. */
  ghost predicate Unsteady(w: G.World, f: D.Frozen, clock: nat, ttl: nat) {
    || P.Broken(w, f)
    || (P.Steady(w, f) && G.Lapsed(w.presence.sessions[f.worker][f.session], clock, ttl))
  }

  /** Time that goes on never makes an authority steady again; a look at the presence breaks it. */
  lemma UnsteadyStays(w: G.World, e: G.Event, f: D.Frozen, clock: nat, ttl: nat)
    requires G.Ok(w) && P.Grounded(w, f) && Unsteady(w, f, clock, ttl)
    requires G.Instant(e).Some? ==> clock <= G.Instant(e).value
    ensures Unsteady(G.Step(w, e, ttl), f, clock, ttl)
    ensures G.Instant(e).Some? ==> P.Broken(G.Step(w, e, ttl), f)
  {
    P.StepKeepsOrBreaks(w, e, f, ttl);
    hide P.Broken, P.Grounded, G.Ok, G.Registered, G.Pruned, G.Write;
  }

  lemma LaterIsUnsteady(w: G.World, f: D.Frozen, clock: nat, later: nat, ttl: nat)
    requires Unsteady(w, f, clock, ttl) && clock <= later
    ensures Unsteady(w, f, later, ttl)
  {
  }

  /** Nobody will ever claim the command. */
  ghost predicate Doomed(p: P.State, clock: nat, k: Id, ttl: nat) {
    D.Has(p.table, k)
    && var c := D.Row(p.table, k);
       c.claim.None? && (c.status != D.Pending || clock >= c.frozen.expiresAt || Unsteady(P.Current(p), c.frozen, clock, ttl))
  }

  /** Without a look at the binding nothing is won. */
  lemma NoLookNoWin(p: P.State, id: Id, req: D.ClaimRequest, authority: Option<D.Authority>, now: nat, ttl: nat)
    ensures !D.ClaimTx(p.table, id, req, P.ClaimView(p, id, authority, None, now), ttl).1.Won?
  {
    if D.Has(p.table, id) {
      var c, v := D.Row(p.table, id), P.ClaimView(p, id, authority, None, now);
      assert v.binding.NotReady?;
      assert D.Stale(c, v).Some?;
    }
  }

  lemma RowTraced(p: P.State, k: Id, ttl: nat)
    requires P.Joint(p, ttl) && D.Has(p.table, k)
    ensures P.Traced(p, D.Row(p.table, k), ttl) && P.Grounded(P.Current(p), D.Row(p.table, k).frozen)
            && G.Ok(P.Current(p)) && D.Inv(p.table)
  {
    assert P.Traced(p, p.table.rows[k - 1], ttl);
  }

  /** A doomed command is not won. */
  lemma DoomedIsNotWon(p: P.State, e: P.Event, clock: nat, k: Id, ttl: nat)
    requires P.Joint(p, ttl) && Doomed(p, clock, k, ttl) && e.ClaimOne? && e.id == k
    requires clock <= e.now && (e.look.Some? ==> clock <= e.look.value)
    ensures var l := P.Looked(p, e.look, ttl);
            !D.ClaimTx(l.table, k, e.req, P.ClaimView(l, k, e.authority, e.look, e.now), e.ttl).1.Won?
  {
    RowTraced(p, k, ttl);
    var l := P.Looked(p, e.look, ttl);
    var f := D.Row(p.table, k).frozen;
    hide P.Joint, P.Traced, P.Grounded, G.Ok, D.Inv, P.Broken, P.Steady, G.Step;
    if e.look.None? {
      NoLookNoWin(p, k, e.req, e.authority, e.now, e.ttl);
    } else if D.ClaimTx(l.table, k, e.req, P.ClaimView(l, k, e.authority, e.look, e.now), e.ttl).1.Won? {
      D.WonIsCurrent(l.table, k, e.req, P.ClaimView(l, k, e.authority, e.look, e.now), e.ttl);
      P.ExtendKeepsJoint(p, G.Check(e.look.value), ttl);
      assert G.Ok(P.Current(l)) by { JointIsOk(l, ttl); }
      P.WonIsSteady(l, e);
      UnsteadyStays(P.Current(p), G.Check(e.look.value), f, clock, ttl);
      assert false;
    }
  }

  lemma JointIsOk(p: P.State, ttl: nat)
    requires P.Joint(p, ttl)
    ensures G.Ok(P.Current(p)) && D.Inv(p.table)
  {
  }

  /** What an event leaves of a command that has no claim and is not won. */
  lemma ClaimlessRow(p: P.State, e: P.Event, k: Id, ttl: nat)
    requires D.Inv(p.table) && D.Has(p.table, k) && D.Row(p.table, k).claim.None?
    requires e.ClaimOne? && e.id == k ==>
               var l := P.Looked(p, e.look, ttl);
               !D.ClaimTx(l.table, k, e.req, P.ClaimView(l, k, e.authority, e.look, e.now), e.ttl).1.Won?
    ensures var u := P.Step(p, e, ttl).table;
            && D.Has(u, k) && D.Row(u, k).claim.None? && D.Row(u, k).frozen == D.Row(p.table, k).frozen
            && (D.Row(p.table, k).status != D.Pending ==> D.Row(u, k).status != D.Pending)
  {
    D.RowIsOk(p.table, k);
    var t, u := p.table, P.Step(p, e, ttl).table;
    hide D.Inv, D.CreateTx, D.ClaimTx, D.Apply, P.ConfirmView, P.ClaimView, D.Evolves;
    match e
    case Serve(_) =>
    case Confirm(project, issue, input, authority, look, now, pendingTTL) =>
      P.CreateRows(t, project, issue, input, P.ConfirmView(P.Looked(p, look, ttl), project, authority, look, now), pendingTTL);
    case ClaimOne(id, req, authority, look, now, claimTTL) =>
      var view := P.ClaimView(P.Looked(p, look, ttl), id, authority, look, now);
      P.ClaimRow(t, id, req, view, claimTTL, k - 1);
      D.ClaimSafe(t, id, req, view, claimTTL);
      K.RowMoves(t, u, k);
    case Complete(x, now) => OtherTx(t, D.Complete(x, now), k);
    case Reconcile(now) => OtherTx(t, D.Reconcile(now), k);
    case Cancel(id, now) => OtherTx(t, D.Cancel(id, now), k);
    case Invalidate(id, now, reason) => OtherTx(t, D.Invalidate(id, now, reason), k);
  }

  lemma OtherTx(t: D.Table, tx: D.Tx, k: Id)
    requires D.Inv(t) && D.Has(t, k) && D.Row(t, k).claim.None? && !tx.Create? && !tx.ClaimOne?
    ensures var u := D.Apply(t, tx);
            && D.Has(u, k) && D.Row(u, k).claim.None? && D.Row(u, k).frozen == D.Row(t, k).frozen
            && (D.Row(t, k).status != D.Pending ==> D.Row(u, k).status != D.Pending)
  {
    P.SameClaims(t, tx);
    D.ApplySafe(t, tx);
    D.RowIsOk(t, k);
    hide D.Apply, D.Evolves, D.Inv;
    K.RowMoves(t, D.Apply(t, tx), k);
  }

  /** The presence an event leaves: the same, or what one step of the binding service makes of it. */
  function WorldAfter(w: G.World, e: P.Event, ttl: nat): G.World {
    match e
    case Serve(event) => G.Step(w, event, ttl)
    case Confirm(_, _, _, _, look, _, _) => if look.Some? then G.Step(w, G.Check(look.value), ttl) else w
    case ClaimOne(_, _, _, look, _, _) => if look.Some? then G.Step(w, G.Check(look.value), ttl) else w
    case _ => w
  }

  lemma StepWorld(p: P.State, e: P.Event, ttl: nat)
    ensures P.Current(P.Step(p, e, ttl)) == WorldAfter(P.Current(p), e, ttl)
  {
    hide G.Step, D.CreateTx, D.ClaimTx, D.Apply, P.ConfirmView, P.ClaimView;
  }

  /** The readings of an event are not earlier than the clock. */
  predicate NotBefore(e: P.Event, clock: nat) {
    match e
    case Serve(event) => G.Instant(event).Some? ==> clock <= G.Instant(event).value
    case Confirm(_, _, _, _, look, now, _) => (look.Some? ==> clock <= look.value) && clock <= now
    case ClaimOne(_, _, _, look, now, _) => (look.Some? ==> clock <= look.value) && clock <= now
    case _ => true
  }

  /** Once doomed, always doomed. */
  lemma DoomedStays(p: P.State, e: P.Event, clock: nat, later: nat, k: Id, ttl: nat)
    requires P.Joint(p, ttl) && Doomed(p, clock, k, ttl) && NotBefore(e, clock) && clock <= later
    ensures Doomed(P.Step(p, e, ttl), later, k, ttl)
  {
    RowTraced(p, k, ttl);
    if e.ClaimOne? && e.id == k { DoomedIsNotWon(p, e, clock, k, ttl); }
    ClaimlessRow(p, e, k, ttl);
    StepWorld(p, e, ttl);
    var w, f := P.Current(p), D.Row(p.table, k).frozen;
    hide P.Joint, P.Step, P.Traced, P.Grounded, G.Ok, D.Inv, G.Step, Unsteady;
    if Unsteady(w, f, clock, ttl) {
      match e {
        case Serve(event) => UnsteadyStays(w, event, f, clock, ttl);
        case Confirm(_, _, _, _, look, _, _) => if look.Some? { UnsteadyStays(w, G.Check(look.value), f, clock, ttl); }
        case ClaimOne(_, _, _, look, _, _) => if look.Some? { UnsteadyStays(w, G.Check(look.value), f, clock, ttl); }
        case _ =>
      }
      LaterIsUnsteady(WorldAfter(w, e, ttl), f, clock, later, ttl);
    }
  }

  lemma DoomedInSystem(s: E.State, e: E.Event, k: Id, ttl: nat)
    requires E.Joined(s, ttl) && Doomed(s.presence, s.clock, k, ttl)
    ensures Doomed(E.Step(s, e, ttl).presence, E.Step(s, e, ttl).clock, k, ttl)
  {
    hide P.Joint, B.Joint, P.Step, B.Step, Doomed, E.Aimed, B.Enabled, E.Allowed;
    if E.Enabled(s, e, ttl) && E.InPresence(e).Some? {
      ReadingsNotBefore(e, s.clock);
      DoomedStays(s.presence, E.InPresence(e).value, s.clock, E.Latest(s.clock, E.Readings(e)), k, ttl);
    }
  }

  lemma ReadingsNotBefore(e: E.Event, clock: nat)
    requires E.InPresence(e).Some? && forall i :: 0 <= i < |E.Readings(e)| ==> clock <= E.Readings(e)[i]
    ensures NotBefore(E.InPresence(e).value, clock)
  {
    if e.Serve? && G.Instant(e.event).Some? { assert E.Readings(e)[0] == G.Instant(e.event).value; }
    if e.Confirm? { assert E.Readings(e)[|E.Readings(e)| - 1] == e.now; if e.look.Some? { assert E.Readings(e)[0] == e.look.value; } }
    if e.ClaimOne? { assert E.Readings(e)[|E.Readings(e)| - 1] == e.now; if e.look.Some? { assert E.Readings(e)[0] == e.look.value; } }
  }

  lemma {:induction false} DoomedIsNeverClicked(s: E.State, es: seq<E.Event>, k: Id, ttl: nat)
    requires E.Joined(s, ttl) && Doomed(s.presence, s.clock, k, ttl)
    ensures E.Run(s, es, ttl).browser.clicks[k] == 0
    decreases |es|
  {
    if es == [] {
      ClaimlessIsUnclicked(s.browser, k);
    } else {
      hide E.Joined, E.Step, Doomed;
      E.StepKeepsJoined(s, es[0], ttl);
      DoomedInSystem(s, es[0], k, ttl);
      DoomedIsNeverClicked(E.Step(s, es[0], ttl), es[1..], k, ttl);
    }
  }

  // ---------------------------------------------------------------- whose session is gone

  /** The service worker has another session than the one the command is frozen to, and holds nothing of the command. */
  ghost predicate Orphan(s: B.State, k: Id, session: Id) {
    && D.Has(s.table, k) && D.Row(s.table, k).frozen.session == session && s.session != session
    && (forall c :: c in s.ever ==> s.ever[c] != k)
    && (s.pc.Holding? ==> s.pc.execution.id != k)
  }

  lemma OrphanIsUnclicked(s: B.State, k: Id, session: Id)
    requires B.Joint(s) && Orphan(s, k, session)
    ensures s.clicks[k] == 0
  {
  }

  lemma ServeKeepsOrphan(s: B.State, e: B.Event, k: Id, session: Id)
    requires B.Joint(s) && Orphan(s, k, session) && B.Enabled(s, e) && B.OfBackend(e)
    ensures Orphan(B.Step(s, e), k, session)
  {
    assert D.Inv(s.table) && B.PcOk(s);
    B.StepEvolves(s, e);
    hide B.Joint, D.Inv, D.Evolves, D.ClaimTx, D.CompleteTx, D.Apply, D.FindRequest, B.Work, B.Browse;
    K.RowMoves(s.table, B.Step(s, e).table, k);
    match e
    case ServeClaim(id, req, v, ttl) =>
      if D.ClaimTx(s.table, id, req, v, ttl).1.Won? { D.WonIsCurrent(s.table, id, req, v, ttl); }
    case ServeReplay(req) => E.ReplayHeld(s, req);
    case _ =>
  }

  lemma WorkKeepsOrphan(s: B.State, e: B.Event, k: Id, session: Id)
    requires Orphan(s, k, session) && B.Enabled(s, e) && !B.OfBackend(e) && (e.Crash? ==> e.session != session)
    ensures Orphan(B.Step(s, e), k, session)
  {
    B.OnlyBackendWrites(s, e);
    hide B.Serve, B.Marked;
    if B.OfPage(e) {
      hide B.Work;
    } else {
      hide B.Browse;
    }
  }

  lemma OrphanInSystem(s: E.State, e: E.Event, k: Id, session: Id, ttl: nat)
    requires E.Joined(s, ttl) && Orphan(s.browser, k, session)
    ensures Orphan(E.Step(s, e, ttl).browser, k, session)
  {
    hide P.Joint, B.Joint, P.Step, B.Step, Orphan, E.Aimed, B.Enabled, P.ConfirmView, P.ClaimView, P.Looked;
    if E.Enabled(s, e, ttl) && E.InBrowser(s, e, ttl).Some? {
      var x := E.InBrowser(s, e, ttl).value;
      if B.OfBackend(x) {
        ServeKeepsOrphan(s.browser, x, k, session);
      } else {
        OrphanIsFrozen(s.browser, k, session);
        WorkKeepsOrphan(s.browser, x, k, session);
      }
    }
  }

  lemma OrphanIsFrozen(s: B.State, k: Id, session: Id)
    requires Orphan(s, k, session)
    ensures D.Has(s.table, k) && s.table.rows[k - 1].frozen.session == session
  {
  }

  lemma {:induction false} OrphanIsNeverClicked(s: E.State, es: seq<E.Event>, k: Id, session: Id, ttl: nat)
    requires E.Joined(s, ttl) && Orphan(s.browser, k, session)
    ensures E.Run(s, es, ttl).browser.clicks[k] == 0
    decreases |es|
  {
    if es == [] {
      OrphanIsUnclicked(s.browser, k, session);
    } else {
      hide E.Joined, E.Step, Orphan;
      E.StepKeepsJoined(s, es[0], ttl);
      OrphanInSystem(s, es[0], k, session, ttl);
      OrphanIsNeverClicked(E.Step(s, es[0], ttl), es[1..], k, session, ttl);
    }
  }

  // ---------------------------------------------------------------- what every confirmation freezes

  /** What every confirmation freezes is complete enough to be claimed; the time to live is positive. */
  predicate Claimable(f: D.Frozen) {
    && f.planHash != BLANK && f.lane != BLANK && f.bindingId != BLANK && f.bindingVersion > 0
    && f.worker != BLANK && f.session != BLANK && f.target != BLANK && f.presence != NoToken
  }

  ghost predicate AllClaimable(t: D.Table) {
    forall i {:trigger t.rows[i]} :: 0 <= i < |t.rows| ==> Claimable(t.rows[i].frozen)
  }

  lemma CreatedClaimable(t: D.Table, project: nat, issue: nat, input: D.Confirmation, v: D.View, ttl: nat)
    requires AllClaimable(t)
    ensures AllClaimable(D.CreateTx(t, project, issue, input, v, ttl).0)
  {
  }

  lemma EvolvedClaimable(t: D.Table, u: D.Table)
    requires AllClaimable(t) && D.Evolves(t, u) && |u.rows| == |t.rows|
    ensures AllClaimable(u)
  {
    forall i | 0 <= i < |u.rows|
      ensures Claimable(u.rows[i].frozen)
    {
      K.RowMoves(t, u, i + 1);
    }
  }

  lemma SameLength(t: D.Table, tx: D.Tx)
    requires !tx.Create?
    ensures |D.Apply(t, tx).rows| == |t.rows|
  {
  }

  lemma StepClaimable(s: B.State, e: B.Event)
    requires D.Inv(s.table) && AllClaimable(s.table)
    ensures AllClaimable(B.Step(s, e).table)
  {
    hide AllClaimable, D.Inv, D.Evolves, D.CreateTx, D.ClaimTx, D.CompleteTx, D.Apply, D.FindRequest, B.Work, B.Browse;
    B.StepEvolves(s, e);
    B.OnlyBackendWrites(s, e);
    if B.Enabled(s, e) && B.OfBackend(e) {
      match e
      case Backend(tx) => TxClaimable(s.table, tx);
      case ServeClaim(id, req, v, ttl) => TxClaimable(s.table, D.ClaimOne(id, req, v, ttl));
      case ServeCompletion(k, now) => TxClaimable(s.table, D.Complete(k, now));
      case ServeReplay(_) =>
    }
  }

  lemma TxClaimable(t: D.Table, tx: D.Tx)
    requires D.Inv(t) && AllClaimable(t)
    ensures AllClaimable(D.Apply(t, tx))
    ensures tx.ClaimOne? ==> AllClaimable(D.ClaimTx(t, tx.id, tx.req, tx.view, tx.ttl).0)
    ensures tx.Complete? ==> AllClaimable(D.CompleteTx(t, tx.completion, tx.now).0)
  {
    D.ApplySafe(t, tx);
    hide D.Inv, D.Evolves, AllClaimable, D.CreateTx, D.ClaimTx, D.CompleteTx;
    if tx.Create? {
      CreatedClaimable(t, tx.project, tx.issue, tx.input, tx.view, tx.ttl);
    } else {
      SameLength(t, tx);
      EvolvedClaimable(t, D.Apply(t, tx));
    }
  }

  /** In every run, every delivery was confirmed with everything a claim needs. */
  lemma {:induction false} RunClaimable(s: E.State, es: seq<E.Event>, ttl: nat)
    requires E.Joined(s, ttl) && AllClaimable(s.browser.table)
    ensures AllClaimable(E.Run(s, es, ttl).browser.table)
    decreases |es|
  {
    if es != [] {
      var t := E.Step(s, es[0], ttl);
      assert D.Inv(s.browser.table);
      if E.InBrowser(s, es[0], ttl).Some? { StepClaimable(s.browser, E.InBrowser(s, es[0], ttl).value); }
      assert AllClaimable(t.browser.table);
      hide E.Joined, E.Step, AllClaimable, D.Inv;
      E.StepKeepsJoined(s, es[0], ttl);
      RunClaimable(t, es[1..], ttl);
    }
  }

  /** A claim request identifier no row of the table carries. */
  function Unused(rows: seq<D.Command>): (r: Id)
    ensures r != BLANK && forall i :: 0 <= i < |rows| && rows[i].claim.Some? ==> rows[i].claim.value.request < r
  {
    if rows == [] then 1
    else
      var n := |rows| - 1;
      var r := Unused(rows[..n]);
      assert forall i :: 0 <= i < n ==> rows[..n][i] == rows[i];
      if rows[n].claim.Some? && rows[n].claim.value.request >= r then rows[n].claim.value.request + 1 else r
  }

  // ---------------------------------------------------------------- who can still be clicked

  /**
   A pending delivery the page can still get: its service worker session is the present one, it is not expired, and the
   worker holds the frozen row, session, target and token, heard of within the time to live.
   */
  ghost predicate StillReaches(s: E.State, k: Id, ttl: nat)
    requires D.Has(s.browser.table, k)
  {
    var f := D.Row(s.browser.table, k).frozen;
    && s.browser.session == f.session && s.clock < f.expiresAt && P.Steady(P.Current(s.presence), f)
    && !G.Lapsed(P.Current(s.presence).presence.sessions[f.worker][f.session], s.clock, ttl)
  }

  /** Steps of the service worker that only end what it is doing. */
  predicate EndsOnly(e: B.Event) {
    e.Recover? || e.Rest? || e.PollEnds? || e.Reject? || e.UnknownError? || e.SendAnswered? || e.MarkFaults?
  }

  lemma BothSteps(s: B.State, e: B.Event, f: B.Event)
    ensures B.Run(s, [e, f]) == B.Step(B.Step(s, e), f) && B.Run(s, [e]) == B.Step(s, e) && B.Run(s, []) == s
  {
    B.RunPair(s, e, f);
    assert [e][1..] == [];
  }

  /** Giving up on storing an outcome ends an execution. */
  lemma GivesUp(s: B.State)
    requires s.pc.Settling?
    ensures var t := B.Step(s, B.MarkFaults(false, "", 0)); t == s.(ledger := t.ledger, wire := t.wire, pc := B.Idle)
  {
    hide B.Serve, B.Browse, B.Reserved, B.Marked;
  }

  lemma Settles(s: B.State, e: B.Event)
    requires (s.pc.Owning? && e.UnknownError?) || (s.pc.Sending? && e == B.SendAnswered(L.Unsure) && s.pc.message < |s.messages|)
    ensures var t := B.Step(s, e); t.pc.Settling? && t == s.(pc := t.pc)
  {
    hide B.Serve, B.Browse, B.Reserved, B.Marked;
  }

  /** The steps that leave the service worker idle at once. */
  lemma IdleAtOnce(s: B.State, e: B.Event)
    requires (s.pc.Finishing? && e.Rest?) || (s.pc.Asking? && e.PollEnds?) || (s.pc.Holding? && e.Reject?)
    ensures B.Step(s, e) == s.(pc := B.Idle)
  {
    hide B.Serve, B.Browse, B.Reserved, B.Marked, B.GivenUp;
  }

  lemma RecoverStep(s: B.State)
    requires s.pc.Booting?
    ensures var t := B.Step(s, B.Recover(0)); t == s.(ledger := t.ledger, pc := B.Finishing)
  {
    hide B.Serve, B.Browse, B.Reserved, B.Marked, B.GivenUp;
  }

  /** The service worker can always end what it is doing and be idle. */
  lemma ComesToRest(s: B.State) returns (es: seq<B.Event>)
    requires B.PcOk(s)
    ensures forall e :: e in es ==> EndsOnly(e)
    ensures var t := B.Run(s, es); t == s.(ledger := t.ledger, wire := t.wire, pc := B.Idle)
  {
    var giveUp := B.MarkFaults(false, "", 0);
    assert s.pc.Sending? ==> s.pc.message < |s.messages|;
    hide B.Run, B.Step, B.PcOk;
    match s.pc
    case Booting =>
      es := [B.Recover(0), B.Rest];
      BothSteps(s, B.Recover(0), B.Rest);
      RecoverStep(s);
      IdleAtOnce(B.Step(s, B.Recover(0)), B.Rest);
    case Finishing => es := [B.Rest]; BothSteps(s, B.Rest, B.Rest); IdleAtOnce(s, B.Rest);
    case Idle => es := []; BothSteps(s, B.Rest, B.Rest);
    case Asking(_) => es := [B.PollEnds]; BothSteps(s, B.PollEnds, B.Rest); IdleAtOnce(s, B.PollEnds);
    case Holding(_) => es := [B.Reject]; BothSteps(s, B.Reject, B.Rest); IdleAtOnce(s, B.Reject);
    case Owning(_, _) =>
      es := [B.UnknownError, giveUp];
      BothSteps(s, es[0], giveUp);
      Settles(s, es[0]);
      GivesUp(B.Step(s, es[0]));
    case Sending(_, _, _) =>
      es := [B.SendAnswered(L.Unsure), giveUp];
      BothSteps(s, es[0], giveUp);
      Settles(s, es[0]);
      GivesUp(B.Step(s, es[0]));
    case Settling(_, _, _) => es := [giveUp]; BothSteps(s, giveUp, B.Rest); GivesUp(s);
  }

  function Lifted(es: seq<B.Event>): seq<E.Event> {
    seq(|es|, i requires 0 <= i < |es| => E.Browser(es[i]))
  }

  lemma {:induction false} LiftedRun(s: E.State, es: seq<B.Event>, ttl: nat)
    requires forall e :: e in es ==> EndsOnly(e)
    ensures E.Run(s, Lifted(es), ttl) == s.(browser := B.Run(s.browser, es))
    decreases |es|
  {
    hide B.Step, P.Step;
    if es != [] {
      assert Lifted(es)[1..] == Lifted(es[1..]);
      assert es[0] in es;
      LiftedStep(s, es[0], ttl);
      LiftedRun(s.(browser := B.Step(s.browser, es[0])), es[1..], ttl);
    }
  }

  lemma LiftedStep(s: E.State, e: B.Event, ttl: nat)
    requires EndsOnly(e)
    ensures E.Step(s, E.Browser(e), ttl) == s.(browser := B.Step(s.browser, e))
  {
    hide B.Serve, B.Browse, B.Work, P.Step;
  }

  /** The authority a delivery was frozen under. */
  function FrozenAuthority(f: D.Frozen): D.Authority {
    D.Authority(true, true, f.planHash, f.action, f.role, f.lane, f.head, f.contextHash, f.prompt,
                f.contextHash, f.head, f.action, f.role, f.lane)
  }

  function FrozenBinding(f: D.Frozen): D.Resolution {
    D.Ready(f.lane, f.bindingId, f.bindingVersion, f.worker, f.session, f.target, f.presence)
  }

  /** A steady authority projects to the frozen binding. */
  lemma SteadyIsReady(w: G.World, f: D.Frozen)
    requires P.Steady(w, f)
    ensures P.Resolved(w, (f.project, f.lane)) == FrozenBinding(f)
  {
    var ss := G.SessionsOf(w.presence.sessions, f.worker);
    G.OneSession(ss, f.session);
    assert G.Only(ss) == f.session;
  }

  /** A look inside the time to live leaves a steady authority steady. */
  lemma LookKeepsSteady(w: G.World, f: D.Frozen, now: nat, ttl: nat)
    requires G.Ok(w) && P.Steady(w, f) && !G.Lapsed(w.presence.sessions[f.worker][f.session], now, ttl)
    ensures P.Steady(G.Step(w, G.Check(now), ttl), f)
  {
    G.CheckHoldsOrGone(w.presence.sessions, now, ttl, w.presence.stamp + 1, w.presence.stamp, f.worker, f.session, f.target, f.presence);
    hide G.Pruned, G.Holds;
  }

  /** A pending delivery is won by a poll of its session under its own authority and binding. */
  lemma PollWins(s: B.State, k: Id, req: D.ClaimRequest, v: D.View)
    requires D.Inv(s.table) && Ours(s.table, k) && D.Row(s.table, k).status == D.Pending && Claimable(D.Row(s.table, k).frozen)
    requires s.pc == B.Asking(req) && req in s.asked && s.session == req.session
    requires req == D.ClaimRequest(B.WORKER, D.Row(s.table, k).frozen.session, Unused(s.table.rows))
    requires var f := D.Row(s.table, k).frozen;
             v.now < f.expiresAt && v.authority == Some(FrozenAuthority(f)) && v.binding == FrozenBinding(f)
    ensures B.Enabled(s, B.ServeClaim(k, req, v, 60))
    ensures var t := B.Step(s, B.ServeClaim(k, req, v, 60));
            && t == s.(table := t.table, pc := t.pc) && t.pc.Holding? && B.Acceptable(t, t.pc.execution)
            && t.pc.execution.id == k && t.pc.execution.claim.value.id == s.table.claims + 1
            && t.pc.execution.frozen == D.Row(s.table, k).frozen
  {
    D.RowIsOk(s.table, k);
    assert D.Stale(D.Row(s.table, k), v).None?;
    assert D.FindRequest(s.table.rows, req.worker, req.request, 0).None?;
    hide D.Inv, D.FindRequest, D.Stale;
    assert D.ClaimTx(s.table, k, req, v, 60).1.Won?;
  }

  lemma NextClaimIsNew(s: B.State)
    requires B.Joint(s)
    ensures s.table.claims + 1 !in s.ledger
  {
    if s.table.claims + 1 in s.ledger {
      var c := s.table.claims + 1;
      assert B.Owns(s.table, c, s.ever[c]);
      D.RowIsOk(s.table, s.ever[c]);
    }
  }

  /** A poll of the frozen session, answered at once, is handed the delivery. */
  lemma AskingIsHanded(t: E.State, k: Id, req: D.ClaimRequest, ttl: nat) returns (claim: E.Event)
    requires P.Joint(t.presence, ttl) && D.Inv(t.browser.table) && t.presence.table == t.browser.table && Ours(t.browser.table, k)
    requires D.Row(t.browser.table, k).status == D.Pending && Claimable(D.Row(t.browser.table, k).frozen)
            && StillReaches(t, k, ttl)
    requires t.browser.pc == B.Asking(req) && req in t.browser.asked
    requires req == D.ClaimRequest(B.WORKER, D.Row(t.browser.table, k).frozen.session, Unused(t.browser.table.rows))
    ensures var u := E.Step(t, claim, ttl).browser;
            && u.pc.Holding? && B.Acceptable(u, u.pc.execution) && u.pc.execution.id == k
            && u.pc.execution.claim.value.id == t.browser.table.claims + 1 && u.ledger == t.browser.ledger
  {
    var f := D.Row(t.browser.table, k).frozen;
    JointIsOk(t.presence, ttl);
    LookKeepsSteady(P.Current(t.presence), f, t.clock, ttl);
    var l := P.Looked(t.presence, Some(t.clock), ttl);
    assert P.Current(l) == G.Step(P.Current(t.presence), G.Check(t.clock), ttl) && l.table == t.presence.table;
    assert t.browser.session == f.session && t.clock < f.expiresAt;
    hide P.Joint, P.Steady, StillReaches, G.Step, G.Ok, D.Inv, B.Step, P.Looked, Claimable, B.Acceptable;
    SteadyIsReady(P.Current(l), f);
    var v := P.ClaimView(l, k, Some(FrozenAuthority(f)), Some(t.clock), t.clock);
    PollWins(t.browser, k, req, v);
    ClaimStep(t, k, req, Some(FrozenAuthority(f)), t.clock, ttl);
    claim := E.ClaimOne(k, req, Some(FrozenAuthority(f)), Some(t.clock), t.clock, 60);
  }

  /** An idle service worker polls and is handed the delivery. */
  lemma IdleIsHanded(s: E.State, k: Id, ttl: nat) returns (es: seq<E.Event>)
    requires E.Joined(s, ttl) && s.browser.pc == B.Idle && Ours(s.browser.table, k)
    requires D.Row(s.browser.table, k).status == D.Pending && Claimable(D.Row(s.browser.table, k).frozen)
            && StillReaches(s, k, ttl)
    ensures var t := E.Run(s, es, ttl);
            && t.browser.pc.Holding? && B.Acceptable(t.browser, t.browser.pc.execution) && t.browser.pc.execution.id == k
            && t.browser.pc.execution.claim.value.id !in t.browser.ledger
  {
    hide E.Joined, D.Inv, P.Joint, B.Joint, E.Run, E.Step, Claimable, B.Acceptable, P.Steady;
    JoinedParts(s, ttl);
    var req := D.ClaimRequest(B.WORKER, s.browser.session, Unused(s.browser.table.rows));
    var poll := E.Browser(B.Poll(req.request));
    var asking := s.browser.(pc := B.Asking(req), asked := s.browser.asked + {req});
    PollStep(s, req.request, asking, ttl);
    var t := s.(browser := asking);
    NextClaimIsNew(s.browser);
    assert StillReaches(t, k, ttl);
    hide StillReaches;
    var claim := AskingIsHanded(t, k, req, ttl);
    NothingRun(s, ttl);
    E.RunOne(s, [], poll, ttl);
    E.RunOne(s, [] + [poll], claim, ttl);
    es := [] + [poll] + [claim];
  }

  lemma NothingRun(s: E.State, ttl: nat)
    ensures E.Run(s, [], ttl) == s
  {
  }

  lemma PollStep(s: E.State, request: Id, asking: B.State, ttl: nat)
    requires s.browser.pc == B.Idle && request != BLANK
    requires var req := D.ClaimRequest(B.WORKER, s.browser.session, request);
             asking == s.browser.(pc := B.Asking(req), asked := s.browser.asked + {req})
    ensures E.Step(s, E.Browser(B.Poll(request)), ttl) == s.(browser := asking)
  {
    hide P.Step, B.Serve, B.Browse, B.Reserved, B.Marked, B.GivenUp;
    assert B.Step(s.browser, B.Poll(request)) == asking;
  }

  lemma ClaimStep(s: E.State, k: Id, req: D.ClaimRequest, authority: Option<D.Authority>, now: nat, ttl: nat)
    requires now == s.clock && req.worker == B.WORKER
    requires var v := P.ClaimView(P.Looked(s.presence, Some(now), ttl), k, authority, Some(now), now);
             B.Enabled(s.browser, B.ServeClaim(k, req, v, 60))
    ensures var v := P.ClaimView(P.Looked(s.presence, Some(now), ttl), k, authority, Some(now), now);
            E.Step(s, E.ClaimOne(k, req, authority, Some(now), now, 60), ttl).browser == B.Step(s.browser, B.ServeClaim(k, req, v, 60))
  {
    hide B.Step, P.Step, P.ClaimView, P.Looked, B.Enabled;
  }

  /** A held execution not in the ledger is reserved, sent to its page, and clicked. */
  lemma HeldIsClicked(s: E.State, ttl: nat) returns (es: seq<E.Event>)
    requires |s.expected| == |s.browser.messages| && s.browser.pc.Holding? && B.Acceptable(s.browser, s.browser.pc.execution)
    requires s.browser.pc.execution.claim.value.id !in s.browser.ledger
    ensures E.Run(s, es, ttl).browser.clicks[s.browser.pc.execution.id] > 0
  {
    var x := s.browser.pc.execution;
    var c, k, n := x.claim.value.id, x.id, |s.expected|;
    var s1 := ReserveOwned(s, ttl);
    var s2 := s1.(page := x.frozen.target);
    NavigateStep(s1, x.frozen.target, ttl);
    B.PostStep(s2.browser, c, k);
    var s3 := PostExpected(s2, ttl);
    var s4 := E.Step(s3, E.Browser(B.PageClicks(n)), ttl);
    ClickLands(s3, n, ttl);
    hide E.Step, E.Run, B.Step;
    assert E.Run(s, [], ttl) == s by { NothingRun(s, ttl); }
    E.RunOne(s, [], E.Browser(B.Reserve(1, 0)), ttl);
    E.RunOne(s, [] + [E.Browser(B.Reserve(1, 0))], E.Navigate(x.frozen.target), ttl);
    E.RunOne(s, [] + [E.Browser(B.Reserve(1, 0))] + [E.Navigate(x.frozen.target)], E.Browser(B.PostSend), ttl);
    es := [] + [E.Browser(B.Reserve(1, 0))] + [E.Navigate(x.frozen.target)] + [E.Browser(B.PostSend)];
    E.RunOne(s, es, E.Browser(B.PageClicks(n)), ttl);
    es := es + [E.Browser(B.PageClicks(n))];
  }

  lemma ReserveOwned(s: E.State, ttl: nat) returns (t: E.State)
    requires s.browser.pc.Holding? && B.Acceptable(s.browser, s.browser.pc.execution)
    requires s.browser.pc.execution.claim.value.id !in s.browser.ledger
    ensures t == E.Step(s, E.Browser(B.Reserve(1, 0)), ttl)
    ensures var x := s.browser.pc.execution;
            && t.browser.pc == B.Owning(x.claim.value.id, x.id) && t.aim == x.frozen.target
            && t.browser.messages == s.browser.messages && t.expected == s.expected
  {
    hide P.Step, B.Serve, B.Browse, B.Marked, B.GivenUp;
    t := E.Step(s, E.Browser(B.Reserve(1, 0)), ttl);
  }

  lemma NavigateStep(s: E.State, target: Id, ttl: nat)
    ensures E.Step(s, E.Navigate(target), ttl) == s.(page := target)
  {
    hide P.Step, B.Step;
  }

  lemma PostExpected(s: E.State, ttl: nat) returns (t: E.State)
    requires s.browser.pc.Owning? && B.Enabled(s.browser, B.PostSend)
    ensures t == E.Step(s, E.Browser(B.PostSend), ttl)
    ensures t.page == s.page && t.expected == s.expected + [s.aim]
    ensures t.browser.messages == s.browser.messages + [B.Message(s.browser.pc.claim, s.browser.pc.command, B.Posted)]
  {
    B.PostStep(s.browser, s.browser.pc.claim, s.browser.pc.command);
    hide P.Step, B.Step;
    t := E.Step(s, E.Browser(B.PostSend), ttl);
  }

  lemma ClickLands(s: E.State, n: nat, ttl: nat)
    requires n < |s.browser.messages| && s.browser.messages[n].phase == B.Posted && n < |s.expected| && s.page == s.expected[n]
    ensures E.Step(s, E.Browser(B.PageClicks(n)), ttl).browser.clicks[s.browser.messages[n].command] > 0
  {
    hide P.Step, B.Serve, B.Work;
  }

  /** A pending delivery the page can still get is clicked in some continuation. */
  lemma ReachesThePage(s: E.State, k: Id, ttl: nat) returns (es: seq<E.Event>)
    requires E.Joined(s, ttl) && Ours(s.browser.table, k) && D.Row(s.browser.table, k).status == D.Pending
    requires Claimable(D.Row(s.browser.table, k).frozen) && StillReaches(s, k, ttl)
    ensures E.Run(s, es, ttl).browser.clicks[k] > 0
  {
    assert B.PcOk(s.browser);
    hide E.Joined, E.Run, B.Run, B.PcOk, Claimable;
    var rest := ComesToRest(s.browser);
    LiftedRun(s, rest, ttl);
    var idle := E.Run(s, Lifted(rest), ttl);
    E.RunKeepsJoined(s, Lifted(rest), ttl);
    var handed := IdleIsHanded(idle, k, ttl);
    var t := E.Run(idle, handed, ttl);
    E.RunKeepsJoined(idle, handed, ttl);
    assert |t.expected| == |t.browser.messages| by { JoinedIsAimed(t, ttl); }
    var clicked := HeldIsClicked(t, ttl);
    E.RunAppend(s, Lifted(rest), handed, ttl);
    E.RunAppend(s, Lifted(rest) + handed, clicked, ttl);
    es := Lifted(rest) + handed + clicked;
  }

  lemma JoinedParts(s: E.State, ttl: nat)
    requires E.Joined(s, ttl)
    ensures P.Joint(s.presence, ttl) && B.Joint(s.browser) && s.presence.table == s.browser.table && D.Inv(s.browser.table)
  {
  }

  lemma JoinedIsAimed(s: E.State, ttl: nat)
    requires E.Joined(s, ttl)
    ensures |s.expected| == |s.browser.messages|
  {
  }

  // ---------------------------------------------------------------- exactly what the withdrawal is worth

  /** Nothing the system may still do clicks the delivery. */
  ghost predicate NeverClicked(s: E.State, k: Id, ttl: nat) {
    forall es :: E.Run(s, es, ttl).browser.clicks[k] == 0
  }

  /** A pending delivery the page can no longer get is doomed, or its session is gone. */
  lemma OutOfReach(s: E.State, k: Id, ttl: nat)
    requires E.Joined(s, ttl) && Ours(s.browser.table, k) && D.Row(s.browser.table, k).status == D.Pending
            && !StillReaches(s, k, ttl)
    ensures Doomed(s.presence, s.clock, k, ttl) || Orphan(s.browser, k, D.Row(s.browser.table, k).frozen.session)
  {
    var c := D.Row(s.browser.table, k);
    RowTraced(s.presence, k, ttl);
    D.RowIsOk(s.browser.table, k);
    if s.browser.session != c.frozen.session { PendingIsUnheld(s.browser, k); }
    hide P.Joint, B.Joint, D.Inv, G.Ok, P.Broken, P.Grounded, P.Steady;
  }

  lemma PendingIsUnheld(s: B.State, k: Id)
    requires B.Joint(s) && D.Has(s.table, k) && D.Row(s.table, k).claim.None?
    ensures (forall c :: c in s.ever ==> s.ever[c] != k) && (s.pc.Holding? ==> s.pc.execution.id != k)
  {
    forall c | c in s.ever
      ensures s.ever[c] != k
    {
      assert B.Owns(s.table, c, s.ever[c]);
    }
  }

  /** A pending delivery of this installation can still be clicked exactly when the page can still get it. */
  lemma PendingIff(s: E.State, k: Id, ttl: nat)
    requires E.Joined(s, ttl) && Ours(s.browser.table, k) && D.Row(s.browser.table, k).status == D.Pending
    requires Claimable(D.Row(s.browser.table, k).frozen)
    ensures NeverClicked(s, k, ttl) <==> !StillReaches(s, k, ttl)
  {
    hide E.Joined, E.Run, StillReaches, Doomed, Orphan, Claimable;
    if StillReaches(s, k, ttl) {
      var es := ReachesThePage(s, k, ttl);
    } else {
      OutOfReach(s, k, ttl);
      forall es
        ensures E.Run(s, es, ttl).browser.clicks[k] == 0
      {
        if Doomed(s.presence, s.clock, k, ttl) {
          DoomedIsNeverClicked(s, es, k, ttl);
        } else {
          OrphanIsNeverClicked(s, es, k, D.Row(s.browser.table, k).frozen.session, ttl);
        }
      }
    }
  }

  /** The withdrawal in the whole system. */
  lemma WithdrawStep(s: E.State, k: Id, now: nat, reason: string, ttl: nat)
    requires E.Joined(s, ttl) && D.Has(s.browser.table, k) && s.clock <= now
    ensures var t := E.Step(s, E.Invalidate(k, now, reason), ttl);
            if D.Row(s.browser.table, k).status == D.Pending then Doomed(t.presence, t.clock, k, ttl)
            else t == s.(clock := now)
  {
    var e := E.Invalidate(k, now, reason);
    var t := E.Step(s, e, ttl);
    JointIsOk(s.presence, ttl);
    D.RowIsOk(s.browser.table, k);
    WithdrawnRow(s.browser, k, now, reason);
    assert t.presence.table == t.browser.table by { E.SameTable(s, e, ttl); }
    hide D.Inv, P.Joint, B.Joint, G.Ok, B.Step, Unsteady;
    assert E.Readings(e) == [now] && E.Latest(s.clock, [now]) == now by { assert [now][..0] == []; }
    assert t.browser == B.Step(s.browser, Withdraw(k, now, reason));
  }

  /**
   In every run, a pending delivery of this installation is kept from the page for good exactly when its withdrawal takes
   effect or the page could no longer get it anyway; a withdrawal that finds it no longer pending changes nothing.
   */
  lemma WithdrawalIff(es: seq<E.Event>, k: Id, now: nat, reason: string, fails: bool, ttl: nat)
    requires var s := E.Run(E.START, es, ttl); Ours(s.browser.table, k) && s.clock <= now
    ensures var s := E.Run(E.START, es, ttl);
            var t := if fails then s else E.Step(s, E.Invalidate(k, now, reason), ttl);
            if D.Row(s.browser.table, k).status == D.Pending
            then NeverClicked(t, k, ttl) <==> !fails || !StillReaches(s, k, ttl)
            else t == s.(clock := t.clock)
  {
    E.StartIsJoined(ttl);
    E.RunKeepsJoined(E.START, es, ttl);
    RunClaimable(E.START, es, ttl);
    var s := E.Run(E.START, es, ttl);
    assert Claimable(s.browser.table.rows[k - 1].frozen);
    WithdrawStep(s, k, now, reason, ttl);
    hide E.Joined, E.Run, E.Step, StillReaches, Doomed, Claimable;
    if D.Row(s.browser.table, k).status == D.Pending {
      if fails {
        PendingIff(s, k, ttl);
      } else {
        var t := E.Step(s, E.Invalidate(k, now, reason), ttl);
        E.StepKeepsJoined(s, E.Invalidate(k, now, reason), ttl);
        forall more
          ensures E.Run(t, more, ttl).browser.clicks[k] == 0
        {
          DoomedIsNeverClicked(t, more, k, ttl);
        }
      }
    }
  }

  // ---------------------------------------------------------------- both sides are met

  /** A confirmed delivery that nobody has claimed yet. */
  lemma Confirmed() returns (es: seq<E.Event>, s: E.State)
    ensures s == E.Run(E.START, es, 30) && s.clock == 2
    ensures s.browser.table == D.Table([P.ROW], 0) && s.browser.session == P.SESSION
    ensures P.Current(s.presence) == G.World(G.Presence(P.HERE, 4), G.Lanes(P.BOUND, 2))
  {
    var e0, e1 := E.Browser(B.Crash(P.SESSION)), E.Serve(P.STORY[0].event);
    var e2, c := E.Serve(P.STORY[1].event), P.STORY[2];
    var e3 := E.Confirm(c.project, c.issue, c.input, c.authority, c.look, c.now, c.ttl);
    P.ConfirmedStory();
    hide P.Step, G.Step, E.Step, E.Run, B.Step;
    var s0 := E.START.(browser := B.START.(session := P.SESSION));
    CrashInSystem(E.START, P.SESSION, 30);
    ServeStep(s0, P.STORY[0].event, 1, 30);
    var s1 := E.Step(s0, e1, 30);
    ServeStep(s1, P.STORY[1].event, 1, 30);
    var s2 := E.Step(s1, e2, 30);
    StoryTable(s2.presence);
    s := E.Step(s2, e3, 30);
    ConfirmStep(s2, e3, c);
    NothingRun(E.START, 30);
    E.RunOne(E.START, [], e0, 30);
    E.RunOne(E.START, [] + [e0], e1, 30);
    E.RunOne(E.START, [] + [e0] + [e1], e2, 30);
    E.RunOne(E.START, [] + [e0] + [e1] + [e2], e3, 30);
    es := [] + [e0] + [e1] + [e2] + [e3];
  }

  lemma StoryTable(p: P.State)
    requires p == P.Step(P.Step(P.START, P.STORY[0], 30), P.STORY[1], 30)
    ensures p.table == D.EMPTY
  {
    hide G.Step;
  }

  lemma ServeStep(s: E.State, event: G.Event, now: nat, ttl: nat)
    requires s.clock <= now && (if G.Instant(event).Some? then G.Instant(event) == Some(now) else s.clock == now)
    ensures E.Step(s, E.Serve(event), ttl) == s.(presence := P.Step(s.presence, P.Serve(event), ttl), clock := now)
  {
    hide P.Step, B.Step;
    if G.Instant(event).Some? {
      assert E.Readings(E.Serve(event)) == [now] && [now][..0] == [];
      assert E.Latest(s.clock, []) == s.clock && E.Latest(s.clock, [now]) == now;
    }
  }

  lemma ConfirmStep(s: E.State, e: E.Event, c: P.Event)
    requires c == P.STORY[2] && e == E.Confirm(c.project, c.issue, c.input, c.authority, c.look, c.now, c.ttl)
    requires s.presence.table == s.browser.table && s.clock == 1
    ensures var t := E.Step(s, e, 30);
            && t.presence == P.Step(s.presence, c, 30) && t.browser == s.browser.(table := t.presence.table) && t.clock == 2
  {
    hide P.ConfirmView, P.Looked, D.CreateTx;
    assert E.Readings(e) == [2, 2] && E.Latest(1, [2, 2]) == 2 by { assert [2, 2][..1] == [2] && [2][..0] == []; }
  }

  /**
   A confirmed delivery whose withdrawal fails can still be clicked. Once the service worker has started again it cannot:
   its session is gone, although nobody withdrew it and it is still pending.
   */
  lemma SessionLost() returns (es: seq<E.Event>, s: E.State)
    ensures s == E.Run(E.START, es, 30) && Ours(s.browser.table, 1) && D.Row(s.browser.table, 1).status == D.Pending
    ensures StillReaches(s, 1, 30) && !NeverClicked(s, 1, 30)
    ensures var t := E.Step(s, E.Browser(B.Crash(9)), 30);
            t.browser.table == s.browser.table && t.browser.session == 9 && NeverClicked(t, 1, 30)
  {
    hide E.Joined, E.Run, P.Steady, B.Step;
    es, s := Confirmed();
    E.StartIsJoined(30);
    E.RunKeepsJoined(E.START, es, 30);
    var crash := E.Browser(B.Crash(9));
    CrashInSystem(s, 9, 30);
    E.StepKeepsJoined(s, crash, 30);
    ConfirmedReaches(s);
    var t := E.Step(s, crash, 30);
    hide E.Step, StillReaches, NeverClicked;
    PendingIff(s, 1, 30);
    PendingIff(t, 1, 30);
  }

  lemma ConfirmedReaches(s: E.State)
    requires s.clock == 2 && s.browser.table == D.Table([P.ROW], 0) && s.browser.session == P.SESSION
    requires P.Current(s.presence) == G.World(G.Presence(P.HERE, 4), G.Lanes(P.BOUND, 2))
    ensures StillReaches(s, 1, 30)
  {
  }

  lemma CrashInSystem(s: E.State, session: Id, ttl: nat)
    requires E.NewSession(s.browser.table, session)
    ensures E.Step(s, E.Browser(B.Crash(session)), ttl) == s.(browser := s.browser.(pc := B.Booting, session := session))
  {
    B.CrashStep(s.browser, session);
    hide B.Step, P.Step;
  }

  /**
   Over the runs of all four stores: a withdrawal that finds the delivery pending keeps it from the page in every later
   world; one that finds it anything else leaves the world as it was.
   */
  lemma WithdrawnInRun(worlds: seq<K.World>, events: seq<K.Event>, i: nat, n: nat, k: Id, now: nat, reason: string)
    requires K.IsRun(worlds, events) && i < n < |worlds| && events[i] == K.Protocol(Withdraw(k, now, reason))
    requires D.Has(worlds[i].browser.table, k)
    ensures if D.Row(worlds[i].browser.table, k).status == D.Pending then worlds[n].browser.clicks[k] == 0 else worlds[i + 1] == worlds[i]
  {
    assert K.Next(worlds[i], events[i], worlds[i + 1]);
    K.RunKeepsJoined(worlds, events, i, i);
    assert D.Inv(worlds[i].browser.table);
    WithdrawnRow(worlds[i].browser, k, now, reason);
    hide B.Joint, B.Step, D.Inv, D.Evolves, K.Next, K.IsRun;
    if D.Row(worlds[i].browser.table, k).status == D.Pending {
      K.RunKeepsJoined(worlds, events, i + 1, n);
      K.RowMoves(worlds[i + 1].browser.table, worlds[n].browser.table, k);
      ClaimlessIsUnclicked(worlds[n].browser, k);
    }
  }

  /**
   A claim that comes before the withdrawal stands: in some run the withdrawal of a delivery no workflow command is linked
   to finds it claimed, and afterwards it is clicked and delivered.
   */
  lemma TooLate() returns (worlds: seq<K.World>, events: seq<K.Event>, i: nat)
    ensures K.IsRun(worlds, events) && i < |events| && events[i] == K.Protocol(Withdraw(1, 0, ""))
    ensures var x := worlds[i].browser; x.clicks[1] == 0 && D.Has(x.table, 1) && D.Row(x.table, 1).status == D.Claimed
    ensures var x := worlds[|events|];
            x.links == map[] && x.work.commands == map[] && x.browser.clicks[1] == 1
            && D.Has(x.browser.table, 1) && D.Row(x.browser.table, 1).status == D.Delivered
  {
    var es, more := B.ClaimedThenDelivered();
    var late := Withdraw(1, 0, "");
    B.StartIsJoint();
    B.RunKeepsJoint(B.START, es);
    var s := B.Run(B.START, es);
    assert D.Inv(s.table);
    hide B.Joint, B.Step, B.Run, D.Inv;
    WithdrawnRow(s, 1, 0, "");
    B.RunAppend(B.START, es, [late]);
    BothSteps(s, late, late);
    B.RunAppend(B.START, es + [late], more);
    worlds, events := K.ProtocolChain(es + [late] + more);
    i := |es|;
    assert (es + [late] + more)[..i] == es && (es + [late] + more)[i] == late;
  }
}

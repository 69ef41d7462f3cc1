/**
 Browser delivery from confirmation to click as one system: the presence and bindings under which a command is confirmed
 and claimed, the command table, the extension with its ledger, and the page.

 `PresenceContinuity` and `BrowserProtocol` run side by side over one command table. What each of them leaves open is
 tied here: a claim sees the binding the presence of that moment projects to, time never goes back, a service worker that
 starts draws a session no delivery is frozen to, and the content script clicks only while the page shows the target the
 message asks for.
 */
module EndToEnd {
  import opened Prelude
  import B = BrowserProtocol
  import D = DeliveryCommands
  import G = BrowserBinding
  import K = DeliveryLinks
  import P = PresenceContinuity

  /**
   `page` is the conversation the page shows, `aim` the target of the execution in progress, `expected` the target each
   message asks for, and `landed` what the page showed when a message was clicked.
   */
  datatype State = State(
    presence: P.State, browser: B.State, clock: nat, page: Id, aim: Id, expected: seq<Id>, landed: map<nat, Id>)

  const START := State(P.START, B.START, 0, BLANK, BLANK, [], map[])

  datatype Event =
    | Serve(event: G.Event)
    | Confirm(project: nat, issue: nat, input: D.Confirmation, authority: Option<D.Authority>, look: Option<nat>, now: nat, ttl: nat)
    | ClaimOne(id: Id, req: D.ClaimRequest, authority: Option<D.Authority>, look: Option<nat>, now: nat, ttl: nat)
    | Complete(completion: D.Completion, now: nat)
    | Reconcile(now: nat)
    | Cancel(id: Id, now: nat)
    | Invalidate(id: Id, now: nat, reason: string)
    | Browser(step: B.Event)             // the service worker and the content script
    | Navigate(target: Id)

  // ---------------------------------------------------------------- the two halves of an event

  /** The transaction as the presence half sees it. */
  function InPresence(e: Event): Option<P.Event> {
    match e
    case Serve(event) => Some(P.Serve(event))
    case Confirm(project, issue, input, authority, look, now, ttl) => Some(P.Confirm(project, issue, input, authority, look, now, ttl))
    case ClaimOne(id, req, authority, look, now, ttl) => Some(P.ClaimOne(id, req, authority, look, now, ttl))
    case Complete(k, now) => Some(P.Complete(k, now))
    case Reconcile(now) => Some(P.Reconcile(now))
    case Cancel(id, now) => Some(P.Cancel(id, now))
    case Invalidate(id, now, reason) => Some(P.Invalidate(id, now, reason))
    case _ => None
  }

  function ClaimEvent(id: Id, req: D.ClaimRequest, view: D.View, ttl: nat): B.Event {
    if req.worker == B.WORKER then B.ServeClaim(id, req, view, ttl) else B.Backend(D.ClaimOne(id, req, view, ttl))
  }

  /** The transaction as the browser half sees it, with the binding this moment projects to. */
  function InBrowser(s: State, e: Event, ttl: nat): Option<B.Event> {
    match e
    case Serve(_) => None
    case Confirm(project, issue, input, authority, look, now, pendingTTL) =>
      var view := P.ConfirmView(P.Looked(s.presence, look, ttl), project, authority, look, now);
      Some(B.Backend(D.Create(project, issue, input, view, pendingTTL)))
    case ClaimOne(id, req, authority, look, now, claimTTL) =>
      Some(ClaimEvent(id, req, P.ClaimView(P.Looked(s.presence, look, ttl), id, authority, look, now), claimTTL))
    case Complete(k, now) => Some(if k in s.browser.wire then B.ServeCompletion(k, now) else B.Backend(D.Complete(k, now)))
    case Reconcile(now) => Some(B.Backend(D.Reconcile(now)))
    case Cancel(id, now) => Some(B.Backend(D.Cancel(id, now)))
    case Invalidate(id, now, reason) => Some(B.Backend(D.Invalidate(id, now, reason)))
    case Browser(step) => Some(step)
    case Navigate(_) => None
  }

  /** The clock readings of an event. */
  function Readings(e: Event): seq<nat> {
    match e
    case Serve(event) => (match G.Instant(event) case Some(now) => [now] case None => [])
    case Confirm(_, _, _, _, look, now, _) => (match look case Some(l) => [l, now] case None => [now])
    case ClaimOne(_, _, _, look, now, _) => (match look case Some(l) => [l, now] case None => [now])
    case Complete(_, now) => [now]
    case Reconcile(now) => [now]
    case Cancel(_, now) => [now]
    case Invalidate(_, now, _) => [now]
    case _ => []
  }

  function Latest(clock: nat, readings: seq<nat>): (r: nat)
    ensures clock <= r && forall i :: 0 <= i < |readings| ==> readings[i] <= r
  {
    if readings == [] then clock
    else
      var n := |readings| - 1;
      var r := Latest(clock, readings[..n]);
      assert forall i :: 0 <= i < n ==> readings[..n][i] == readings[i];
      if readings[n] > r then readings[n] else r
  }

  /** A session identifier drawn at random is not one a delivery is already frozen to. */
  predicate NewSession(t: D.Table, session: Id) {
    session != BLANK && forall i {:trigger t.rows[i]} :: 0 <= i < |t.rows| ==> t.rows[i].frozen.session != session
  }

  /** What the browser half may do on its own: nothing with the command table, and no click beside the target. */
  predicate Allowed(s: State, step: B.Event) {
    match step
    case Backend(_) => false
    case ServeClaim(_, _, _, _) => false
    case ServeCompletion(_, _) => false
    case Crash(session) => NewSession(s.browser.table, session)
    case PageClicks(i) => i < |s.expected| && s.page == s.expected[i]
    case PageConfirms(i) => i < |s.expected| && s.page == s.expected[i]
    case _ => true
  }

  predicate Enabled(s: State, e: Event, ttl: nat) {
    && (forall i :: 0 <= i < |Readings(e)| ==> s.clock <= Readings(e)[i])
    && (e.Browser? ==> Allowed(s, e.step))
    && (InBrowser(s, e, ttl).Some? ==> B.Enabled(s.browser, InBrowser(s, e, ttl).value))
  }

  function Step(s: State, e: Event, ttl: nat): State {
    if !Enabled(s, e, ttl) then s
    else
      var p := match InPresence(e) case Some(x) => P.Step(s.presence, x, ttl) case None => s.presence;
      var b := match InBrowser(s, e, ttl) case Some(x) => B.Step(s.browser, x) case None => s.browser;
      State(p, b, Latest(s.clock, Readings(e)),
            if e.Navigate? then e.target else s.page,
            if e.Browser? && e.step.Reserve? then s.browser.pc.execution.frozen.target else s.aim,
            if e.Browser? && e.step.PostSend? then s.expected + [s.aim] else s.expected,
            if e.Browser? && e.step.PageClicks? then s.landed[e.step.i := s.page] else s.landed)
  }

  function Run(s: State, es: seq<Event>, ttl: nat): State
    decreases |es|
  {
    if es == [] then s else Run(Step(s, es[0], ttl), es[1..], ttl)
  }

  // ---------------------------------------------------------------- the joint invariant

  ghost predicate FrozenTo(t: D.Table, k: Id, target: Id) {
    D.Has(t, k) && D.Row(t, k).frozen.target == target
  }

  /** The execution in progress, and every message, aims at the target its command was frozen to. */
  ghost predicate Aimed(s: State) {
    && |s.expected| == |s.browser.messages|
    && (forall i :: 0 <= i < |s.expected| ==>
          && FrozenTo(s.browser.table, s.browser.messages[i].command, s.expected[i])
          && (B.Hit(s.browser.messages[i].phase) ==> i in s.landed && s.landed[i] == s.expected[i]))
    && (s.browser.pc.Holding? ==> FrozenTo(s.browser.table, s.browser.pc.execution.id, s.browser.pc.execution.frozen.target))
    && (s.browser.pc.Owning? ==> FrozenTo(s.browser.table, s.browser.pc.command, s.aim))
  }

  ghost predicate Joined(s: State, ttl: nat) {
    && P.Joint(s.presence, ttl) && B.Joint(s.browser) && s.presence.table == s.browser.table && Aimed(s)
  }

  lemma StartIsJoined(ttl: nat)
    ensures Joined(START, ttl)
  {
    B.StartIsJoint();
  }

  /** Both halves carry out the same transaction. */
  lemma SameTable(s: State, e: Event, ttl: nat)
    requires s.presence.table == s.browser.table && Enabled(s, e, ttl)
    ensures Step(s, e, ttl).presence.table == Step(s, e, ttl).browser.table
  {
    hide D.CreateTx, D.ClaimTx, D.CompleteTx, D.CancelTx, D.InvalidateTx, D.ReconcileTx, P.ConfirmView, P.ClaimView, B.Work, B.Browse,
         NewSession, D.FindRequest;
    if e.Browser? { B.OnlyBackendWrites(s.browser, e.step); }
  }

  lemma FrozenStays(t: D.Table, u: D.Table, k: Id, target: Id)
    requires D.Evolves(t, u) && FrozenTo(t, k, target)
    ensures FrozenTo(u, k, target)
  {
    K.RowMoves(t, u, k);
  }

  /** The messages a browser step leaves: the same ones, at most one more, and clicked only by a click. */
  ghost predicate MessagesMove(s: B.State, e: B.Event, t: B.State) {
    && |t.messages| == |s.messages| + (if e.PostSend? && B.Enabled(s, e) then 1 else 0)
    && (forall i :: 0 <= i < |s.messages| ==>
          && t.messages[i].command == s.messages[i].command
          && (B.Hit(t.messages[i].phase) ==> B.Hit(s.messages[i].phase) || (e.PageClicks? && e.i == i)))
    && (e.PostSend? && B.Enabled(s, e) ==> t.messages[|s.messages|] == B.Message(s.pc.claim, s.pc.command, B.Posted))
  }

  lemma StepMovesMessages(s: B.State, e: B.Event)
    ensures MessagesMove(s, e, B.Step(s, e))
  {
    hide D.ClaimTx, D.CompleteTx, D.Apply, D.FindRequest;
  }

  /** Where a held execution or an owned reservation comes from. */
  ghost predicate PcMoves(s: B.State, e: B.Event, t: B.State) {
    && (t.pc.Holding? && t.pc != s.pc ==> D.Has(t.table, t.pc.execution.id) && D.Row(t.table, t.pc.execution.id) == t.pc.execution)
    && (t.pc.Owning? && t.pc != s.pc ==> e.Reserve? && s.pc.Holding? && t.pc.command == s.pc.execution.id && B.Enabled(s, e))
  }

  lemma StepMovesPc(s: B.State, e: B.Event)
    requires D.Inv(s.table)
    ensures PcMoves(s, e, B.Step(s, e))
  {
    hide B.Serve, B.Browse, B.Work, D.Inv, B.Enabled, PcMoves;
    if !B.Enabled(s, e) {
      assert PcMoves(s, e, s) by { PcStays(s, e, s); }
    } else if B.OfBackend(e) {
      ServeMovesPc(s, e);
    } else if B.OfPage(e) {
      BrowseMovesPc(s, e);
    } else {
      WorkMovesPc(s, e);
    }
  }

  lemma PcStays(s: B.State, e: B.Event, t: B.State)
    requires t.pc == s.pc
    ensures PcMoves(s, e, t)
  {
  }

  lemma BrowseMovesPc(s: B.State, e: B.Event)
    requires B.Enabled(s, e) && B.OfPage(e)
    ensures PcMoves(s, e, B.Browse(s, e))
  {
  }

  lemma WorkMovesPc(s: B.State, e: B.Event)
    requires B.Enabled(s, e) && !B.OfBackend(e) && !B.OfPage(e)
    ensures PcMoves(s, e, B.Work(s, e))
  {
    hide B.Marked;
  }

  lemma ServeMovesPc(s: B.State, e: B.Event)
    requires D.Inv(s.table) && B.Enabled(s, e) && B.OfBackend(e)
    ensures PcMoves(s, e, B.Serve(s, e))
  {
    hide D.Inv, D.CompleteTx, D.Apply, D.FindRequest, D.ClaimTx, B.Work, B.Browse;
    match e
    case ServeClaim(id, req, v, ttl) =>
      if D.ClaimTx(s.table, id, req, v, ttl).1.Won? { D.WonIsCurrent(s.table, id, req, v, ttl); }
    case ServeReplay(req) => ReplayHeld(s, req);
    case _ =>
  }

  lemma ReplayHeld(s: B.State, req: D.ClaimRequest)
    requires D.Inv(s.table) && B.Enabled(s, B.ServeReplay(req))
    ensures var t := B.Step(s, B.ServeReplay(req));
            t == s || (t == s.(pc := t.pc) && t.pc.Holding? && t.pc.execution.frozen.session == req.session
                       && D.Has(s.table, t.pc.execution.id) && D.Row(s.table, t.pc.execution.id) == t.pc.execution)
  {
    var found := D.FindRequest(s.table.rows, req.worker, req.request, 0);
    if found.Some? { D.RowIsOk(s.table, found.value + 1); }
  }

  /** The aim is kept by whatever a browser step does to the messages and the execution. */
  lemma MovesKeepAimed(s: State, x: B.Event, r: State)
    requires Aimed(s) && D.Evolves(s.browser.table, r.browser.table)
    requires MessagesMove(s.browser, x, r.browser) && PcMoves(s.browser, x, r.browser)
    requires r.aim == if x.Reserve? && s.browser.pc.Holding? then s.browser.pc.execution.frozen.target else s.aim
    requires r.expected == if x.PostSend? then s.expected + [s.aim] else s.expected
    requires x.PostSend? ==> B.Enabled(s.browser, x) && s.browser.pc.Owning?
    requires x.Reserve? ==> s.browser.pc.Holding?
    requires if x.PageClicks? then x.i < |s.expected| && r.landed == s.landed[x.i := s.expected[x.i]] else r.landed == s.landed
    requires r.browser.pc.Owning? && r.browser.pc == s.browser.pc ==> !x.Reserve?
    ensures Aimed(r)
  {
    hide D.Evolves, FrozenTo, B.Enabled;
    var t, u := s.browser.table, r.browser.table;
    forall i | 0 <= i < |r.expected|
      ensures FrozenTo(u, r.browser.messages[i].command, r.expected[i])
      ensures B.Hit(r.browser.messages[i].phase) ==> i in r.landed && r.landed[i] == r.expected[i]
    {
      if i < |s.expected| {
        FrozenStays(t, u, s.browser.messages[i].command, s.expected[i]);
      } else {
        FrozenStays(t, u, s.browser.pc.command, s.aim);
      }
    }
    if s.browser.pc.Holding? { FrozenStays(t, u, s.browser.pc.execution.id, s.browser.pc.execution.frozen.target); }
    if s.browser.pc.Owning? { FrozenStays(t, u, s.browser.pc.command, s.aim); }
    if r.browser.pc.Holding? && r.browser.pc != s.browser.pc { ExecutionIsFrozen(u, r.browser.pc.execution); }
  }

  lemma BrowserKeepsAimed(s: State, x: B.Event, e: Event, ttl: nat)
    requires Aimed(s) && B.Joint(s.browser) && Enabled(s, e, ttl) && InBrowser(s, e, ttl) == Some(x)
    ensures Aimed(Step(s, e, ttl))
  {
    assert D.Inv(s.browser.table);
    B.StepEvolves(s.browser, x);
    StepMovesMessages(s.browser, x);
    StepMovesPc(s.browser, x);
    assert (x.PostSend? ==> s.browser.pc.Owning?) && (x.Reserve? ==> s.browser.pc.Holding?);
    hide B.Joint, B.Step, D.Inv, D.Evolves, Aimed, MessagesMove, PcMoves, P.Step, NewSession;
    hide P.ConfirmView, P.ClaimView, P.Looked, B.Enabled;
    SameStep(s, x, e, ttl);
    MovesKeepAimed(s, x, Step(s, e, ttl));
  }

  /** What the browser half of an event does to the aim, the expectations and the landings. */
  lemma SameStep(s: State, x: B.Event, e: Event, ttl: nat)
    requires Enabled(s, e, ttl) && InBrowser(s, e, ttl) == Some(x)
    ensures var r := Step(s, e, ttl);
            && r.browser == B.Step(s.browser, x) && B.Enabled(s.browser, x)
            && r.aim == (if x.Reserve? && s.browser.pc.Holding? then s.browser.pc.execution.frozen.target else s.aim)
            && r.expected == (if x.PostSend? then s.expected + [s.aim] else s.expected)
            && (if x.PageClicks? then x.i < |s.expected| && r.landed == s.landed[x.i := s.expected[x.i]] else r.landed == s.landed)
  {
    hide P.Step, NewSession, P.ConfirmView, P.ClaimView, P.Looked, B.Step;
  }

  lemma ExecutionIsFrozen(t: D.Table, c: D.Command)
    requires D.Has(t, c.id) && D.Row(t, c.id) == c
    ensures FrozenTo(t, c.id, c.frozen.target)
  {
  }

  /** Every step of the whole system keeps both halves, their agreement, and the aim. */
  lemma StepKeepsJoined(s: State, e: Event, ttl: nat)
    requires Joined(s, ttl)
    ensures Joined(Step(s, e, ttl), ttl)
  {
    if Enabled(s, e, ttl) {
      SameTable(s, e, ttl);
      if InBrowser(s, e, ttl).Some? { BrowserKeepsAimed(s, InBrowser(s, e, ttl).value, e, ttl); }
      hide P.Joint, B.Joint, P.Step, B.Step, NewSession, P.ConfirmView, P.ClaimView, P.Looked, B.Enabled;
      if InPresence(e).Some? { P.StepKeepsJoint(s.presence, InPresence(e).value, ttl); }
      if InBrowser(s, e, ttl).Some? { B.StepKeepsJoint(s.browser, InBrowser(s, e, ttl).value); }
    }
  }

  lemma {:induction false} RunKeepsJoined(s: State, es: seq<Event>, ttl: nat)
    requires Joined(s, ttl)
    ensures Joined(Run(s, es, ttl), ttl)
    decreases |es|
  {
    hide Joined, Step;
    if es != [] {
      StepKeepsJoined(s, es[0], ttl);
      RunKeepsJoined(Step(s, es[0], ttl), es[1..], ttl);
    }
  }

  lemma {:induction false} RunAppend(s: State, es: seq<Event>, more: seq<Event>, ttl: nat)
    ensures Run(s, es + more, ttl) == Run(Run(s, es, ttl), more, ttl)
    decreases |es|
  {
    hide Step;
    if es == [] {
      assert es + more == more;
    } else {
      assert (es + more)[1..] == es[1..] + more;
      RunAppend(Step(s, es[0], ttl), es[1..], more, ttl);
    }
  }

  lemma RunOne(s: State, es: seq<Event>, e: Event, ttl: nat)
    ensures Run(s, es + [e], ttl) == Step(Run(s, es, ttl), e, ttl)
  {
    hide Step;
    RunAppend(s, es, [e], ttl);
    var t := Run(s, es, ttl);
    assert [e][1..] == [] && Run(t, [e], ttl) == Run(Step(t, e, ttl), [], ttl);
  }

  // ---------------------------------------------------------------- what every click rests on

  /** The command of the row was confirmed and claimed under one authority that held in between without a gap. */
  ghost predicate KeptPresence(s: P.State, k: Id, ttl: nat) {
    && D.Has(s.table, k) && k in s.confirmed && k in s.claimed
    && P.Continuous(s.trail, s.confirmed[k], s.claimed[k], D.Row(s.table, k).frozen, ttl)
  }

  /**
   Every click of every run was made for a claim of its command, while the page showed the target the command was frozen
   to, and from confirmation to that claim the worker kept the frozen row and its only unconflicted session on that target.
   */
  lemma EveryClick(es: seq<Event>, ttl: nat, i: nat)
    requires var s := Run(START, es, ttl).browser; i < |s.messages| && B.Hit(s.messages[i].phase)
    ensures var s := Run(START, es, ttl);
            var m := s.browser.messages[i];
            && B.Owns(s.browser.table, m.claim, m.command) && KeptPresence(s.presence, m.command, ttl)
            && i in s.landed && s.landed[i] == D.Row(s.browser.table, m.command).frozen.target
  {
    StartIsJoined(ttl);
    RunKeepsJoined(START, es, ttl);
    var s := Run(START, es, ttl);
    hide Run;
    ClickedIsOwned(s.browser, i);
    ClaimedKeptPresence(s.presence, s.browser.messages[i].command, ttl);
    assert FrozenTo(s.browser.table, s.browser.messages[i].command, s.expected[i]);
  }

  lemma ClickedIsOwned(s: B.State, i: nat)
    requires B.Joint(s) && i < |s.messages|
    ensures B.Owns(s.table, s.messages[i].claim, s.messages[i].command)
  {
    assert B.Owns(s.table, s.messages[i].claim, s.ever[s.messages[i].claim]);
  }

  lemma ClaimedKeptPresence(p: P.State, k: Id, ttl: nat)
    requires P.Joint(p, ttl) && D.Has(p.table, k) && D.Row(p.table, k).claim.Some?
    ensures KeptPresence(p, k, ttl)
  {
    P.InvRow(p.table, k - 1);
    hide D.Inv;
    assert P.Traced(p, p.table.rows[k - 1], ttl);
  }

  /** Every clicked command was clicked once, by such a click. */
  lemma EveryClickedCommand(es: seq<Event>, ttl: nat, k: Id)
    requires Run(START, es, ttl).browser.clicks[k] > 0
    ensures var s := Run(START, es, ttl);
            && s.browser.clicks[k] == 1 && KeptPresence(s.presence, k, ttl)
            && exists i :: 0 <= i < |s.browser.messages| && s.browser.messages[i].command == k && B.Hit(s.browser.messages[i].phase) && i in s.landed && FrozenTo(s.browser.table, k, s.landed[i])
  {
    StartIsJoined(ttl);
    RunKeepsJoined(START, es, ttl);
    var s := Run(START, es, ttl);
    var i :| 0 <= i < |s.browser.messages| && s.browser.messages[i].command == k;
    EveryClick(es, ttl, i);
  }
}

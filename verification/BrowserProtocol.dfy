/**
 Browser delivery end to end: the backend command table, the extension's durable ledger, the one executing service
 worker, the page of the bound conversation, and the requests travelling between them.

 The two stores never commit together. The service worker may die at any await; requests may be lost, delayed and
 repeated; a claim answer reaches only the poll that is still waiting for it; a message handed to the page survives
 the service worker that sent it. Nothing is assumed about clocks, and claim request identifiers need not be fresh.
 */
module BrowserProtocol {
  import opened Prelude
  import D = DeliveryCommands
  import L = ClaimLedger

  /** This installation; rows bound to other workers belong to other installations. */
  const WORKER: Id := 1

  /** What the content script has done with one send-prompt message. */
  datatype Phase = Posted | Refused | Clicked | Confirmed | Unconfirmed

  datatype Message = Message(claim: Id, command: Id, phase: Phase)

  /** Where the one service worker stands; every constructor is a point at which it may die. */
  datatype Pc =
    | Booting
    | Finishing
    | Idle
    | Asking(req: D.ClaimRequest)
    | Holding(execution: D.Command)
    | Owning(claim: Id, command: Id)
    | Sending(claim: Id, command: Id, message: nat)
    | Settling(claim: Id, command: Id, outcome: L.EntryState)

  datatype State = State(
    table: D.Table, ledger: L.Entries, session: Id, pc: Pc,
    asked: set<D.ClaimRequest>,       // claim requests ever sent; the backend may process one late or twice
    wire: set<D.Completion>,          // completion requests ever sent
    answered: set<Id>,                // claims for which a completion was answered with success or a conflict
    messages: seq<Message>,           // send-prompt messages ever handed to the page
    clicks: multiset<Id>,             // observed clicks of the Send control, by command
    ever: map<Id, Id>)                // history: every claim ever reserved, with its command

  const START := State(D.EMPTY, map[], BLANK, Booting, {}, {}, {}, [], multiset{}, map[])

  datatype Event =
    // the backend on its own, and for other installations
    | Backend(tx: D.Tx)
    // the backend serving this installation
    | ServeClaim(id: Id, req: D.ClaimRequest, view: D.View, ttl: nat)
    | ServeReplay(req: D.ClaimRequest)
    | ServeCompletion(completion: D.Completion, now: nat)
    // the service worker
    | Crash(session: Id)
    | Recover(now: nat)
    | Prune(pruned: L.Entries, limit: nat)
    | Rest
    | Poll(request: Id)
    | PollEnds
    | Reject
    | LedgerUnavailable
    | Reserve(origin: Id, now: nat)
    | ReserveFaults(persisted: bool, origin: Id, now: nat)
    | PreSendError
    | UnknownError
    | PostSend
    | SendAnswered(outcome: L.EntryState)
    | Mark(diagnostic: string, now: nat)
    | MarkFaults(persisted: bool, diagnostic: string, now: nat)
    // concurrent acknowledgement by execute or by a heartbeat
    | SendCompletion(claim: Id, reason: string)
    | RecordAnswer(claim: Id, diagnostic: string, now: nat)
    // the page
    | PageRefuses(i: nat)
    | PageClicks(i: nat)
    | PageConfirms(i: nat)
    | PageTimesOut(i: nat)

  function Outcome(e: L.EntryState): D.Status {
    match e
    case Sent => D.Delivered
    case FailedPreSend => D.Failed
    case _ => D.Uncertain
  }

  function UncertainCompletion(c: D.Command, reason: string): D.Completion
    requires c.claim.Some?
  {
    D.Completion(c.id, c.claim.value.id, D.Uncertain, reason, "extension_dom_executor")
  }

  function Abandoned(c: Id, k: Id): D.Completion {
    D.Completion(k, c, D.Uncertain, "ledger_terminal_persist_failed", "extension_dom_executor")
  }

  function SetPhase(ms: seq<Message>, i: nat, p: Phase): seq<Message>
    requires i < |ms|
  {
    ms[i := ms[i].(phase := p)]
  }

  /** validateExecution as far as this state sees it: the execution is a claim of this very session. */
  predicate Acceptable(s: State, c: D.Command) {
    c.status == D.Claimed && c.claim.Some? && c.claim.value.id != BLANK && c.id != BLANK
    && c.frozen.worker == WORKER && c.frozen.session == s.session
  }

  /** May the backend take this step without a request of this installation? */
  predicate Foreign(t: D.Table, tx: D.Tx) {
    match tx
    case ClaimOne(_, req, _, _) => req.worker != WORKER
    case Complete(k, _) => D.Has(t, k.command) && D.Row(t, k.command).frozen.worker != WORKER
    case _ => true
  }

  predicate Enabled(s: State, e: Event) {
    match e
    case Backend(tx) => Foreign(s.table, tx)
    case ServeClaim(_, req, _, _) => req in s.asked
    case ServeReplay(req) => s.pc == Asking(req)
    case ServeCompletion(k, _) => k in s.wire
    case Crash(_) => true
    case Recover(_) => s.pc.Booting?
    case Prune(m, limit) => s.pc.Finishing? && m.Keys <= s.ledger.Keys && (forall k :: k in m ==> m[k] == s.ledger[k])
                            && (forall k :: k in s.ledger && k !in m ==> L.Settled(s.ledger[k]))
    case Rest => s.pc.Finishing?
    case Poll(request) => s.pc.Idle? && request != BLANK
    case PollEnds => s.pc.Asking?
    case Reject => s.pc.Holding?
    case LedgerUnavailable => s.pc.Holding? && Acceptable(s, s.pc.execution)
    case Reserve(origin, _) => s.pc.Holding? && Acceptable(s, s.pc.execution) && origin != BLANK
    case ReserveFaults(_, origin, _) => s.pc.Holding? && Acceptable(s, s.pc.execution) && origin != BLANK
    case PreSendError => s.pc.Owning?
    case UnknownError => s.pc.Owning?
    case PostSend => s.pc.Owning?
    case SendAnswered(outcome) =>
      s.pc.Sending? && s.pc.message < |s.messages|
      && (outcome == L.Unsure
          || (outcome == L.Sent && s.messages[s.pc.message].phase == Confirmed)
          || (outcome == L.FailedPreSend && s.messages[s.pc.message].phase == Refused))
    case Mark(_, _) => s.pc.Settling?
    case MarkFaults(_, _, _) => s.pc.Settling?
    case SendCompletion(c, _) => c in s.ledger && s.ledger[c].state != L.Reserved && !s.ledger[c].acked
    case RecordAnswer(c, _, _) => c in s.ledger && s.ledger[c].state != L.Reserved && c in s.answered
    case PageRefuses(i) => i < |s.messages| && s.messages[i].phase == Posted
    case PageClicks(i) => i < |s.messages| && s.messages[i].phase == Posted
    case PageConfirms(i) => i < |s.messages| && s.messages[i].phase == Clicked
    case PageTimesOut(i) => i < |s.messages| && s.messages[i].phase == Clicked
  }

  /** Reservation of the held execution; `executor` says whether this execute goes on as the owner. */
  function Reserved(s: State, origin: Id, now: nat, executor: bool): State
    requires s.pc.Holding? && s.pc.execution.claim.Some?
  {
    var c := s.pc.execution.claim.value.id;
    var k := s.pc.execution.id;
    match L.ReserveIn(s.ledger, c, k, origin, now)
    case None => s.(pc := Idle)
    case Some((m, created)) =>
      if created then
        s.(ledger := m, ever := s.ever[c := k], pc := if executor then Owning(c, k) else Idle)
      else if m[c].command != k then
        s.(pc := Idle, wire := s.wire + {UncertainCompletion(s.pc.execution, "claim_authority_mismatch")})
      else s.(pc := Idle)
  }

  function Marked(s: State, diagnostic: string, now: nat): L.Entries
    requires s.pc.Settling?
  {
    match L.MarkIn(s.ledger, s.pc.claim, s.pc.outcome, diagnostic, now)
    case None => s.ledger
    case Some(m) => m
  }

  /** Where an execute that could not store its outcome leaves the world. */
  function GivenUp(s: State, m: L.Entries): State
    requires s.pc.Settling?
  {
    s.(ledger := m, pc := Idle, wire := s.wire + {Abandoned(s.pc.claim, s.pc.command)})
  }

  /** The backend's transactions. */
  function Serve(s: State, e: Event): State
    requires Enabled(s, e)
  {
    match e
    case Backend(tx) => s.(table := D.Apply(s.table, tx))
    case ServeClaim(id, req, v, ttl) =>
      var (u, verdict) := D.ClaimTx(s.table, id, req, v, ttl);
      s.(table := u, pc := if verdict.Won? && s.pc == Asking(req) then Holding(verdict.command) else s.pc)
    case ServeReplay(req) =>
      (match D.FindRequest(s.table.rows, req.worker, req.request, 0)
       case None => s
       case Some(i) =>
         var r := D.Replay(s.table.rows[i], req);
         if r.Ok? && r.value.Some? then s.(pc := Holding(r.value.value)) else s)
    case ServeCompletion(k, now) =>
      var (u, r) := D.CompleteTx(s.table, k, now);
      s.(table := u, answered := if r.Ok? || r == D.Err(D.ErrConflict) then s.answered + {k.claim} else s.answered)
    case _ => s
  }

  /** The content script. */
  function Browse(s: State, e: Event): State
    requires Enabled(s, e)
  {
    match e
    case PageRefuses(i) => s.(messages := SetPhase(s.messages, i, Phase.Refused))
    case PageClicks(i) =>
      s.(messages := SetPhase(s.messages, i, Clicked), clicks := s.clicks + multiset{s.messages[i].command})
    case PageConfirms(i) => s.(messages := SetPhase(s.messages, i, Confirmed))
    case PageTimesOut(i) => s.(messages := SetPhase(s.messages, i, Unconfirmed))
    case _ => s
  }

  /** The service worker. */
  function Work(s: State, e: Event): State
    requires Enabled(s, e)
  {
    match e
    case Crash(session) => s.(pc := Booting, session := session)
    case Recover(now) => s.(ledger := L.RecoverIn(s.ledger, now), pc := Finishing)
    case Prune(m, limit) => s.(ledger := m, pc := Idle)
    case Rest => s.(pc := Idle)
    case Poll(request) =>
      var req := D.ClaimRequest(WORKER, s.session, request);
      s.(pc := Asking(req), asked := s.asked + {req})
    case PollEnds => s.(pc := Idle)
    case Reject => s.(pc := Idle)
    case LedgerUnavailable =>
      s.(pc := Idle, wire := s.wire + {UncertainCompletion(s.pc.execution, "ledger_unavailable")})
    case Reserve(origin, now) => Reserved(s, origin, now, true)
    case ReserveFaults(persisted, origin, now) =>
      var t := if persisted then Reserved(s, origin, now, false) else s.(pc := Idle);
      t.(wire := t.wire + {UncertainCompletion(s.pc.execution, "ledger_unavailable")})
    case PreSendError => s.(pc := Settling(s.pc.claim, s.pc.command, L.FailedPreSend))
    case UnknownError => s.(pc := Settling(s.pc.claim, s.pc.command, L.Unsure))
    case PostSend =>
      s.(pc := Sending(s.pc.claim, s.pc.command, |s.messages|),
         messages := s.messages + [Message(s.pc.claim, s.pc.command, Posted)])
    case SendAnswered(outcome) => s.(pc := Settling(s.pc.claim, s.pc.command, outcome))
    case Mark(diagnostic, now) => s.(ledger := Marked(s, diagnostic, now), pc := Finishing)
    case MarkFaults(persisted, diagnostic, now) => GivenUp(s, if persisted then Marked(s, diagnostic, now) else s.ledger)
    case SendCompletion(c, reason) =>
      s.(wire := s.wire + {D.Completion(s.ledger[c].command, c, Outcome(s.ledger[c].state), reason, "extension_dom_executor")})
    case RecordAnswer(c, diagnostic, now) => s.(ledger := L.AcknowledgeIn(s.ledger, c, diagnostic, now))
    case _ => s
  }

  predicate OfBackend(e: Event) {
    e.Backend? || e.ServeClaim? || e.ServeReplay? || e.ServeCompletion?
  }

  predicate OfPage(e: Event) {
    e.PageRefuses? || e.PageClicks? || e.PageConfirms? || e.PageTimesOut?
  }

  function Step(s: State, e: Event): State {
    if !Enabled(s, e) then s else if OfBackend(e) then Serve(s, e) else if OfPage(e) then Browse(s, e) else Work(s, e)
  }

  // ---------------------------------------------------------------- what some steps do, stated outright

  /** A page step moves exactly one message: refused, clicked, confirmed or unconfirmed; only a click is a click. */
  lemma PageDoes(s: State, e: Event)
    requires OfPage(e) && Enabled(s, e)
    ensures var t := Step(s, e);
            && t == s.(messages := t.messages, clicks := t.clicks) && |t.messages| == |s.messages|
            && (forall j :: 0 <= j < |s.messages| && j != e.i ==> t.messages[j] == s.messages[j])
            && t.messages[e.i].claim == s.messages[e.i].claim && t.messages[e.i].command == s.messages[e.i].command
            && (e.PageRefuses? ==> t.messages[e.i].phase == Phase.Refused) && (e.PageClicks? ==> t.messages[e.i].phase == Clicked)
            && (e.PageConfirms? ==> t.messages[e.i].phase == Confirmed) && (e.PageTimesOut? ==> t.messages[e.i].phase == Unconfirmed)
            && t.clicks == if e.PageClicks? then s.clicks + multiset{s.messages[e.i].command} else s.clicks
  {
  }

  /** A claim request answered again gives the waiting poll the execution it got before, while that is still claimed. */
  lemma ReplayDoes(s: State, req: D.ClaimRequest, c: D.Command)
    requires D.Inv(s.table) && s.pc == Asking(req) && D.Granted(s.table, req, c)
    ensures Step(s, ServeReplay(req)) == s.(pc := Holding(c))
  {
    assert D.RequestedBy(s.table.rows[c.id - 1], req.worker, req.request);
    var found := D.FindRequest(s.table.rows, req.worker, req.request, 0);
    assert D.RequestedBy(s.table.rows[found.value], req.worker, req.request);
    OneRequest(s.table, req, found.value, c.id - 1);
  }

  lemma OneRequest(t: D.Table, req: D.ClaimRequest, i: nat, j: nat)
    requires D.Inv(t) && i < |t.rows| && j < |t.rows|
    requires D.RequestedBy(t.rows[i], req.worker, req.request) && D.RequestedBy(t.rows[j], req.worker, req.request)
    ensures i == j
  {
  }

  /** An execution that cannot store its outcome leaves the entry as it was, or marked without knowing. */
  lemma MarkFaultsDoes(s: State, persisted: bool, diagnostic: string, now: nat)
    requires s.pc.Settling? && s.pc.claim in s.ledger && s.pc.outcome != L.Reserved
    ensures var t := Step(s, MarkFaults(persisted, diagnostic, now));
            && t.pc.Idle? && t.ledger.Keys == s.ledger.Keys && (forall c :: c in s.ledger && c != s.pc.claim ==> t.ledger[c] == s.ledger[c])
            && t.ledger[s.pc.claim].state == if persisted then s.pc.outcome else s.ledger[s.pc.claim].state
  {
  }

  /** One that cannot reserve leaves the ledger as it was, or with the reservation that nobody owns. */
  lemma ReserveFaultsDoes(s: State, persisted: bool, origin: Id, now: nat)
    requires s.pc.Holding? && Acceptable(s, s.pc.execution) && origin != BLANK && s.pc.execution.claim.value.id !in s.ledger
    ensures var t, c := Step(s, ReserveFaults(persisted, origin, now)), s.pc.execution.claim.value.id;
            && t.pc.Idle? && t.messages == s.messages && (forall x :: x in s.ledger ==> x in t.ledger && t.ledger[x] == s.ledger[x])
            && t.ledger.Keys == s.ledger.Keys + (if persisted then {c} else {})
            && (persisted ==> t.ledger[c].state == L.Reserved && t.ledger[c].command == s.pc.execution.id)
  {
  }

  function Run(s: State, es: seq<Event>): State
    decreases |es|
  {
    if es == [] then s else Run(Step(s, es[0]), es[1..])
  }

  // ---------------------------------------------------------------- the joint invariant

  ghost predicate Owns(t: D.Table, c: Id, k: Id) {
    D.Has(t, k) && D.Row(t, k).claim.Some? && D.Row(t, k).claim.value.id == c && D.Row(t, k).frozen.worker == WORKER
  }

  predicate Hit(p: Phase) {
    p == Clicked || p == Confirmed || p == Unconfirmed
  }

  /** The page acknowledged a click for the claim. */
  ghost predicate Acknowledged(ms: seq<Message>, c: Id) {
    exists i :: 0 <= i < |ms| && ms[i].claim == c && ms[i].phase == Confirmed
  }

  /** No message of the claim has been or can still be clicked. */
  ghost predicate Harmless(ms: seq<Message>, c: Id) {
    forall i :: 0 <= i < |ms| && ms[i].claim == c ==> ms[i].phase == Phase.Refused
  }

  /** No execute can still own the claim. */
  ghost predicate Closed(m: L.Entries, ever: map<Id, Id>, c: Id) {
    c in ever && (c in m ==> m[c].state != L.Reserved)
  }

  /** Reserved claims are claims of this installation, and the ledger records their command. */
  ghost predicate LedgerOk(t: D.Table, m: L.Entries, ever: map<Id, Id>) {
    && (forall c :: c in ever ==> Owns(t, c, ever[c]))
    && (forall c :: c in m ==> c in ever && m[c].command == ever[c] && m[c].claim == c)
  }

  /** A claim answered or already forgotten is no longer claimed in the backend. */
  ghost predicate SettledOk(t: D.Table, m: L.Entries, ever: map<Id, Id>, answered: set<Id>) {
    && (forall c :: c in answered ==> c <= t.claims)
    && (forall i :: 0 <= i < |t.rows| && t.rows[i].claim.Some? && t.rows[i].claim.value.id in answered ==> t.rows[i].status != D.Claimed)
    && (forall c :: c in m && m[c].acked ==> c in answered)
    && (forall c :: c in ever && c !in m ==> c in answered)
  }

  /** At most one message per command, and clicks are exactly the messages that were clicked. */
  ghost predicate PageOk(ms: seq<Message>, clicks: multiset<Id>, ever: map<Id, Id>) {
    && (forall i :: 0 <= i < |ms| ==> ms[i].claim in ever && ever[ms[i].claim] == ms[i].command)
    && (forall i, j :: 0 <= i < j < |ms| ==> ms[i].command != ms[j].command)
    && (forall i :: 0 <= i < |ms| ==> clicks[ms[i].command] == if Hit(ms[i].phase) then 1 else 0)
    && (forall k :: k in clicks ==> exists i :: 0 <= i < |ms| && ms[i].command == k)
  }

  /** Terminal ledger entries tell the truth about the page. */
  ghost predicate EntriesOk(m: L.Entries, ms: seq<Message>) {
    forall c :: c in m ==> (m[c].state == L.Sent ==> Acknowledged(ms, c)) && (m[c].state == L.FailedPreSend ==> Harmless(ms, c))
  }

  ghost predicate Truthful(status: D.Status, c: Id, m: L.Entries, ever: map<Id, Id>, ms: seq<Message>) {
    && (status == D.Delivered ==> Acknowledged(ms, c) && Closed(m, ever, c))
    && (status == D.Failed ==> Harmless(ms, c) && Closed(m, ever, c))
  }

  /** So does every completion under way ... */
  ghost predicate WireOk(t: D.Table, m: L.Entries, ever: map<Id, Id>, ms: seq<Message>, wire: set<D.Completion>) {
    forall k :: k in wire ==>
      Owns(t, k.claim, k.command) && Truthful(k.outcome, k.claim, m, ever, ms)
      && k.outcome in {D.Delivered, D.Failed, D.Uncertain}
  }

  /** ... and every backend row of this installation. */
  ghost predicate RowsOk(t: D.Table, m: L.Entries, ever: map<Id, Id>, ms: seq<Message>) {
    forall i {:trigger t.rows[i]} :: 0 <= i < |t.rows| && t.rows[i].frozen.worker == WORKER && t.rows[i].claim.Some? ==>
      Truthful(t.rows[i].status, t.rows[i].claim.value.id, m, ever, ms)
  }

  ghost predicate Owned(s: State, c: Id, k: Id) {
    c in s.ledger && s.ledger[c].state == L.Reserved && s.ledger[c].command == k
  }

  ghost predicate PcOk(s: State) {
    match s.pc
    case Asking(req) => req.worker == WORKER && req.session == s.session
    case Holding(x) => x.claim.Some? && Owns(s.table, x.claim.value.id, x.id)
                       && (x.claim.value.id in s.ever ==> x.claim.value.id in s.ledger)
    case Owning(c, k) => Owned(s, c, k) && forall i :: 0 <= i < |s.messages| ==> s.messages[i].claim != c
    case Sending(c, k, i) => Owned(s, c, k) && i < |s.messages| && s.messages[i].claim == c
    case Settling(c, k, o) => Owned(s, c, k) && o != L.Reserved && (o == L.Sent ==> Acknowledged(s.messages, c))
                              && (o == L.FailedPreSend ==> Harmless(s.messages, c))
    case _ => true
  }

  ghost predicate Joint(s: State) {
    && D.Inv(s.table)
    && (forall req :: req in s.asked ==> req.worker == WORKER)
    && LedgerOk(s.table, s.ledger, s.ever)
    && SettledOk(s.table, s.ledger, s.ever, s.answered)
    && PageOk(s.messages, s.clicks, s.ever)
    && EntriesOk(s.ledger, s.messages)
    && WireOk(s.table, s.ledger, s.ever, s.messages, s.wire)
    && RowsOk(s.table, s.ledger, s.ever, s.messages)
    && PcOk(s)
  }

  // ---------------------------------------------------------------- backend steps

  /** What a table step that completes none of our claims may do to a row. */
  ghost predicate QuietRow(t: D.Table, u: D.Table, i: nat)
    requires i < |u.rows|
  {
    var d := u.rows[i];
    d.claim.Some? ==>
      || (i < |t.rows| && d == t.rows[i])
      || (d.status == D.Claimed && d.claim.value.id > t.claims)
      || d.status == D.Uncertain
      || (d.frozen.worker != WORKER && d.status != D.Claimed)
  }

  ghost predicate Quiet(t: D.Table, u: D.Table) {
    forall i {:trigger u.rows[i]} :: 0 <= i < |u.rows| ==> QuietRow(t, u, i)
  }

  lemma ClaimIsQuiet(t: D.Table, id: Id, req: D.ClaimRequest, v: D.View, ttl: nat)
    requires D.Inv(t)
    ensures Quiet(t, D.ClaimTx(t, id, req, v, ttl).0)
  {
    var u := D.ClaimTx(t, id, req, v, ttl).0;
    forall i | 0 <= i < |t.rows|
      ensures QuietRow(t, u, i)
    {
      assert D.RowOk(t.rows[i], i + 1, t.claims);
      assert i != id - 1 ==> u.rows[i] == t.rows[i];
    }
  }

  lemma ForeignIsQuiet(t: D.Table, tx: D.Tx)
    requires D.Inv(t) && Foreign(t, tx)
    ensures Quiet(t, D.Apply(t, tx))
  {
    match tx
    case ClaimOne(id, req, v, ttl) => ClaimIsQuiet(t, id, req, v, ttl);
    case Create(_, _, _, _, _) =>
      var u := D.Apply(t, tx);
      assert |u.rows| > |t.rows| ==> u.rows[..|t.rows|] == t.rows && u.rows[|t.rows|].claim.None?;
      forall i | 0 <= i < |u.rows|
        ensures QuietRow(t, u, i)
      {
        if i < |t.rows| { assert u.rows[i] == t.rows[i]; }
      }
    case _ =>
      forall i | 0 <= i < |t.rows|
        ensures QuietRow(t, D.Apply(t, tx), i)
      {
        assert D.RowOk(t.rows[i], i + 1, t.claims);
      }
  }

  lemma OwnsEvolves(t: D.Table, u: D.Table, c: Id, k: Id)
    requires D.Evolves(t, u) && Owns(t, c, k)
    ensures Owns(u, c, k)
  {
    assert D.RowEvolves(t.rows[k - 1], u.rows[k - 1]);
  }

  /** Moving the table forward keeps every clause that only looks claims up in it. */
  lemma TableMoves(s: State, u: D.Table, answered: set<Id>)
    requires Joint(s) && D.Inv(u) && D.Evolves(s.table, u)
    requires RowsOk(u, s.ledger, s.ever, s.messages)
    requires SettledOk(u, s.ledger, s.ever, answered)
    ensures Joint(s.(table := u, answered := answered))
  {
    forall c | c in s.ever
      ensures Owns(u, c, s.ever[c])
    {
      OwnsEvolves(s.table, u, c, s.ever[c]);
    }
    forall k | k in s.wire
      ensures Owns(u, k.claim, k.command)
    {
      OwnsEvolves(s.table, u, k.claim, k.command);
    }
    if s.pc.Holding? {
      OwnsEvolves(s.table, u, s.pc.execution.claim.value.id, s.pc.execution.id);
    }
  }

  lemma QuietKeeps(s: State, u: D.Table)
    requires Joint(s) && D.Inv(u) && D.Evolves(s.table, u) && Quiet(s.table, u)
    ensures Joint(s.(table := u))
  {
    forall i | 0 <= i < |u.rows| && u.rows[i].claim.Some?
      ensures u.rows[i].claim.value.id in s.answered ==> u.rows[i].status != D.Claimed
      ensures u.rows[i].frozen.worker == WORKER ==>
              Truthful(u.rows[i].status, u.rows[i].claim.value.id, s.ledger, s.ever, s.messages)
    {
      assert QuietRow(s.table, u, i);
    }
    TableMoves(s, u, s.answered);
  }

  lemma BackendKeeps(s: State, e: Event)
    requires Joint(s) && e.Backend? && Enabled(s, e)
    ensures Joint(Serve(s, e))
  {
    D.ApplySafe(s.table, e.tx);
    ForeignIsQuiet(s.table, e.tx);
    QuietKeeps(s, D.Apply(s.table, e.tx));
  }

  /** A fresh or replayed claim reaches the waiting poll: it is ours, and if it was ever reserved it still is in the ledger. */
  lemma ClaimArrives(s: State, c: D.Command)
    requires Joint(s) && D.Inv(s.table) && c.status == D.Claimed && c.claim.Some?
    requires D.Has(s.table, c.id) && D.Row(s.table, c.id) == c && c.frozen.worker == WORKER
    ensures Joint(s.(pc := Holding(c)))
  {
    assert s.table.rows[c.id - 1] == c;
  }

  lemma ServeClaimKeeps(s: State, id: Id, req: D.ClaimRequest, v: D.View, ttl: nat)
    requires Joint(s) && req in s.asked
    ensures Joint(Serve(s, ServeClaim(id, req, v, ttl)))
  {
    var (u, verdict) := D.ClaimTx(s.table, id, req, v, ttl);
    D.ClaimSafe(s.table, id, req, v, ttl);
    ClaimIsQuiet(s.table, id, req, v, ttl);
    QuietKeeps(s, u);
    if verdict.Won? && s.pc == Asking(req) {
      D.WonIsCurrent(s.table, id, req, v, ttl);
      ClaimArrives(s.(table := u), verdict.command);
    }
  }

  lemma ServeReplayKeeps(s: State, req: D.ClaimRequest)
    requires Joint(s) && s.pc == Asking(req)
    ensures Joint(Serve(s, ServeReplay(req)))
  {
    var found := D.FindRequest(s.table.rows, req.worker, req.request, 0);
    if found.Some? && D.Replay(s.table.rows[found.value], req).Ok? {
      var c := s.table.rows[found.value];
      assert D.RowOk(c, found.value + 1, s.table.claims);
      ClaimArrives(s, c);
    }
  }

  /** What a completion under way leaves of one row. */
  lemma CompletionRow(s: State, k: D.Completion, now: nat, i: nat)
    requires Joint(s) && k in s.wire && i < |s.table.rows|
    ensures var (u, r) := D.CompleteTx(s.table, k, now);
            && |u.rows| == |s.table.rows|
            && (i != k.command - 1 ==> u.rows[i] == s.table.rows[i])
            && (u.rows[i].claim.Some? ==>
                  && (u.rows[i].claim.value.id == k.claim && (r.Ok? || r == D.Err(D.ErrConflict)) ==> u.rows[i].status != D.Claimed)
                  && (i == k.command - 1 && u.rows[i] != s.table.rows[i] ==>
                        u.rows[i].status != D.Claimed && u.rows[i].claim == s.table.rows[i].claim
                        && u.rows[i].claim.value.id == k.claim && u.rows[i].status in {k.outcome, D.Uncertain}))
  {
    hide Truthful, LedgerOk, SettledOk, PageOk, EntriesOk, RowsOk, PcOk;
    var t := s.table;
    assert Owns(t, k.claim, k.command);
    assert D.RowOk(t.rows[k.command - 1], k.command, t.claims);
    if i < k.command - 1 { assert D.Apart(t.rows[i], t.rows[k.command - 1]); }
    if i > k.command - 1 { assert D.Apart(t.rows[k.command - 1], t.rows[i]); }
  }

  lemma CompletionKeepsRows(s: State, k: D.Completion, now: nat)
    requires Joint(s) && k in s.wire
    ensures RowsOk(D.CompleteTx(s.table, k, now).0, s.ledger, s.ever, s.messages)
  {
    var u := D.CompleteTx(s.table, k, now).0;
    assert Truthful(k.outcome, k.claim, s.ledger, s.ever, s.messages);
    D.ApplySafe(s.table, D.Complete(k, now));
    CompletionLength(s, k, now);
    hide D.CompleteTx, D.Inv, D.Evolves, LedgerOk, SettledOk, WireOk, PageOk, EntriesOk, PcOk, Closed, Acknowledged, Harmless;
    forall i | 0 <= i < |u.rows| && u.rows[i].claim.Some? && u.rows[i].frozen.worker == WORKER
      ensures Truthful(u.rows[i].status, u.rows[i].claim.value.id, s.ledger, s.ever, s.messages)
    {
      CompletionRow(s, k, now, i);
      RowMovesOn(s.table, u, i);
    }
  }

  lemma CompletionSettled(s: State, k: D.Completion, now: nat, answered: set<Id>)
    requires Joint(s) && k in s.wire
    requires var r := D.CompleteTx(s.table, k, now).1;
             answered == if r.Ok? || r == D.Err(D.ErrConflict) then s.answered + {k.claim} else s.answered
    ensures SettledOk(D.CompleteTx(s.table, k, now).0, s.ledger, s.ever, answered)
  {
    var u := D.CompleteTx(s.table, k, now).0;
    WireClaims(s, k);
    D.ApplySafe(s.table, D.Complete(k, now));
    CompletionLength(s, k, now);
    CompletionClaims(s, k, now);
    hide D.CompleteTx, D.Inv, D.Evolves, LedgerOk, RowsOk, WireOk, PageOk, EntriesOk, PcOk;
    forall i | 0 <= i < |u.rows| && u.rows[i].claim.Some? && u.rows[i].claim.value.id in answered
      ensures u.rows[i].status != D.Claimed
    {
      CompletionRow(s, k, now, i);
    }
  }

  lemma ServeCompletionKeeps(s: State, k: D.Completion, now: nat)
    requires Joint(s) && k in s.wire
    ensures Joint(Serve(s, ServeCompletion(k, now)))
  {
    var u := D.CompleteTx(s.table, k, now).0;
    var answered := Serve(s, ServeCompletion(k, now)).answered;
    D.ApplySafe(s.table, D.Complete(k, now));
    hide D.CompleteTx, D.Inv, D.Evolves, LedgerOk, SettledOk, RowsOk, WireOk, PageOk, EntriesOk, PcOk;
    CompletionKeepsRows(s, k, now);
    CompletionSettled(s, k, now, answered);
    TableMoves(s, u, answered);
  }

  lemma CompletionClaims(s: State, k: D.Completion, now: nat)
    ensures D.CompleteTx(s.table, k, now).0.claims == s.table.claims
  {
  }

  lemma CompletionLength(s: State, k: D.Completion, now: nat)
    ensures |D.CompleteTx(s.table, k, now).0.rows| == |s.table.rows|
  {
  }

  lemma WireClaims(s: State, k: D.Completion)
    requires Joint(s) && k in s.wire
    ensures k.claim <= s.table.claims
  {
    assert Owns(s.table, k.claim, k.command);
    assert D.RowOk(s.table.rows[k.command - 1], k.command, s.table.claims);
  }

  lemma RowMovesOn(t: D.Table, u: D.Table, i: nat)
    requires D.Evolves(t, u) && i < |t.rows|
    ensures i < |u.rows| && D.RowEvolves(t.rows[i], u.rows[i]) && t.claims <= u.claims
  {
  }

  // ---------------------------------------------------------------- truth is stable

  /** From one ledger, history and page to the next, nothing that has been told becomes false. */
  ghost predicate Grows(m: L.Entries, ever: map<Id, Id>, ms: seq<Message>, m': L.Entries, ever': map<Id, Id>, ms': seq<Message>) {
    && (forall c :: Acknowledged(ms, c) ==> Acknowledged(ms', c))
    && (forall c :: Closed(m, ever, c) ==> Closed(m', ever', c))
    && (forall c :: Closed(m, ever, c) && Harmless(ms, c) ==> Harmless(ms', c))
  }

  lemma TruthMoves(t: D.Table, m: L.Entries, ever: map<Id, Id>, ms: seq<Message>, wire: set<D.Completion>,
                   m': L.Entries, ever': map<Id, Id>, ms': seq<Message>)
    requires WireOk(t, m, ever, ms, wire) && RowsOk(t, m, ever, ms) && Grows(m, ever, ms, m', ever', ms')
    ensures WireOk(t, m', ever', ms', wire) && RowsOk(t, m', ever', ms')
  {
    forall k | k in wire
      ensures Owns(t, k.claim, k.command) && Truthful(k.outcome, k.claim, m', ever', ms')
      ensures k.outcome in {D.Delivered, D.Failed, D.Uncertain}
    {
      assert Truthful(k.outcome, k.claim, m, ever, ms);
    }
    forall i | 0 <= i < |t.rows| && t.rows[i].frozen.worker == WORKER && t.rows[i].claim.Some?
      ensures Truthful(t.rows[i].status, t.rows[i].claim.value.id, m', ever', ms')
    {
      assert Truthful(t.rows[i].status, t.rows[i].claim.value.id, m, ever, ms);
    }
  }

  /** A ledger rewrite that keeps keys and commands, reopens nothing and acknowledges only answered claims. */
  ghost predicate Rewrites(m: L.Entries, m': L.Entries, answered: set<Id>) {
    && m'.Keys == m.Keys
    && (forall c :: c in m ==> m'[c].command == m[c].command && m'[c].claim == m[c].claim)
    && (forall c :: c in m && m[c].state != L.Reserved ==> m'[c].state == m[c].state)
    && (forall c :: c in m && m'[c].acked ==> m[c].acked || c in answered)
  }

  lemma RewriteMoves(t: D.Table, m: L.Entries, ever: map<Id, Id>, answered: set<Id>, ms: seq<Message>, m': L.Entries)
    requires Rewrites(m, m', answered) && LedgerOk(t, m, ever) && SettledOk(t, m, ever, answered)
    ensures LedgerOk(t, m', ever) && SettledOk(t, m', ever, answered) && Grows(m, ever, ms, m', ever, ms)
  {
  }

  /** Exchanging the ledger for a rewrite of it that still tells the truth. */
  lemma LedgerStep(s: State, m: L.Entries, pc: Pc)
    requires Joint(s) && Rewrites(s.ledger, m, s.answered) && EntriesOk(m, s.messages)
    requires PcOk(s.(ledger := m, pc := pc))
    ensures Joint(s.(ledger := m, pc := pc))
  {
    RewriteMoves(s.table, s.ledger, s.ever, s.answered, s.messages, m);
    TruthMoves(s.table, s.ledger, s.ever, s.messages, s.wire, m, s.ever, s.messages);
  }

  /** Exchanging the page for one on which nothing told becomes false. */
  lemma PageStep(s: State, ms: seq<Message>, clicks: multiset<Id>, pc: Pc)
    requires Joint(s) && PageOk(ms, clicks, s.ever) && Grows(s.ledger, s.ever, s.messages, s.ledger, s.ever, ms)
    requires PcOk(s.(messages := ms, pc := pc))
    ensures Joint(s.(messages := ms, clicks := clicks, pc := pc))
  {
    EntriesMove(s.table, s.ledger, s.ever, s.messages, ms);
    TruthMoves(s.table, s.ledger, s.ever, s.messages, s.wire, s.ledger, s.ever, ms);
  }

  // ---------------------------------------------------------------- ledger steps

  lemma RecoverKeeps(s: State, now: nat)
    requires Joint(s) && s.pc.Booting?
    ensures Joint(s.(ledger := L.RecoverIn(s.ledger, now), pc := Finishing))
  {
    hide D.Inv, LedgerOk, PageOk, WireOk, RowsOk, Acknowledged, Harmless;
    LedgerStep(s, L.RecoverIn(s.ledger, now), Finishing);
  }

  lemma AcknowledgeRewrites(s: State, c: Id, diagnostic: string, now: nat)
    requires c in s.ledger && s.ledger[c].state != L.Reserved && c in s.answered && EntriesOk(s.ledger, s.messages) && PcOk(s)
    ensures var m := L.AcknowledgeIn(s.ledger, c, diagnostic, now);
            Rewrites(s.ledger, m, s.answered) && EntriesOk(m, s.messages) && PcOk(s.(ledger := m))
  {
    var m := L.AcknowledgeIn(s.ledger, c, diagnostic, now);
    assert forall x :: x in m && x != c ==> m[x] == s.ledger[x];
  }

  lemma RecordAnswerKeeps(s: State, c: Id, diagnostic: string, now: nat)
    requires Joint(s) && c in s.ledger && s.ledger[c].state != L.Reserved && c in s.answered
    ensures Joint(s.(ledger := L.AcknowledgeIn(s.ledger, c, diagnostic, now)))
  {
    AcknowledgeRewrites(s, c, diagnostic, now);
    LedgerStep(s, L.AcknowledgeIn(s.ledger, c, diagnostic, now), s.pc);
  }

  lemma MarkRewrites(s: State, diagnostic: string, now: nat)
    requires s.pc.Settling? && EntriesOk(s.ledger, s.messages) && PcOk(s)
    ensures var m := Marked(s, diagnostic, now); Rewrites(s.ledger, m, s.answered) && EntriesOk(m, s.messages)
  {
    var m := Marked(s, diagnostic, now);
    assert forall x :: x in m && x != s.pc.claim ==> m[x] == s.ledger[x];
  }

  lemma MarkKeeps(s: State, diagnostic: string, now: nat)
    requires Joint(s) && s.pc.Settling?
    ensures Joint(s.(ledger := Marked(s, diagnostic, now), pc := Finishing))
  {
    MarkRewrites(s, diagnostic, now);
    LedgerStep(s, Marked(s, diagnostic, now), Finishing);
  }

  /** Only settled entries are forgotten, and every one of them has been answered. */
  lemma PruneKeeps(s: State, m: L.Entries, limit: nat)
    requires Joint(s) && Enabled(s, Prune(m, limit))
    ensures Joint(Work(s, Prune(m, limit)))
  {
    assert LedgerOk(s.table, m, s.ever);
    assert SettledOk(s.table, m, s.ever, s.answered);
    assert Grows(s.ledger, s.ever, s.messages, m, s.ever, s.messages);
    TruthMoves(s.table, s.ledger, s.ever, s.messages, s.wire, m, s.ever, s.messages);
  }

  /** Reserving a held claim for the first time: no message of it can exist. */
  lemma ReserveKeeps(s: State, origin: Id, now: nat, executor: bool)
    requires Joint(s) && s.pc.Holding? && Acceptable(s, s.pc.execution) && origin != BLANK
    ensures Joint(Reserved(s, origin, now, executor))
    ensures Reserved(s, origin, now, executor).table == s.table
  {
    var c := s.pc.execution.claim.value.id;
    if c !in s.ledger {
      FirstReservation(s, origin, now, executor, Reserved(s, origin, now, executor));
    }
  }

  lemma FirstReservation(s: State, origin: Id, now: nat, executor: bool, t: State)
    requires Joint(s) && s.pc.Holding? && Acceptable(s, s.pc.execution) && origin != BLANK
    requires s.pc.execution.claim.value.id !in s.ledger && t == Reserved(s, origin, now, executor)
    ensures Joint(t)
  {
    var c, k := s.pc.execution.claim.value.id, s.pc.execution.id;
    ReserveMoves(s.table, s.ledger, s.ever, s.answered, s.messages, s.clicks, t.ledger, t.ever, c, k);
    TruthMoves(s.table, s.ledger, s.ever, s.messages, s.wire, t.ledger, t.ever, s.messages);
  }

  lemma ReserveMoves(t: D.Table, m: L.Entries, ever: map<Id, Id>, answered: set<Id>, ms: seq<Message>, clicks: multiset<Id>,
                     m': L.Entries, ever': map<Id, Id>, c: Id, k: Id)
    requires LedgerOk(t, m, ever) && SettledOk(t, m, ever, answered) && PageOk(ms, clicks, ever) && EntriesOk(m, ms)
    requires Owns(t, c, k) && c !in m && c !in ever && ever' == ever[c := k]
    requires m'.Keys == m.Keys + {c} && (forall x :: x in m ==> m'[x] == m[x])
    requires m'[c].claim == c && m'[c].command == k && m'[c].state == L.Reserved && !m'[c].acked
    ensures LedgerOk(t, m', ever') && SettledOk(t, m', ever', answered) && PageOk(ms, clicks, ever') && EntriesOk(m', ms)
    ensures Grows(m, ever, ms, m', ever', ms)
    ensures forall i :: 0 <= i < |ms| ==> ms[i].claim != c
  {
    hide PageOk, Acknowledged, Harmless;
    ReserveMovesPage(ms, clicks, ever, c, k);
  }

  lemma ReserveMovesPage(ms: seq<Message>, clicks: multiset<Id>, ever: map<Id, Id>, c: Id, k: Id)
    requires PageOk(ms, clicks, ever) && c !in ever
    ensures PageOk(ms, clicks, ever[c := k])
    ensures forall i :: 0 <= i < |ms| ==> ms[i].claim != c
  {
    assert forall i :: 0 <= i < |ms| ==> ms[i].claim in ever;
  }

  // ---------------------------------------------------------------- page steps

  lemma EntriesMove(t: D.Table, m: L.Entries, ever: map<Id, Id>, ms: seq<Message>, ms': seq<Message>)
    requires LedgerOk(t, m, ever) && EntriesOk(m, ms) && Grows(m, ever, ms, m, ever, ms')
    ensures EntriesOk(m, ms')
  {
    forall c | c in m && m[c].state == L.FailedPreSend
      ensures Harmless(ms', c)
    {
      assert Closed(m, ever, c);
    }
  }

  /** One message moves on: acknowledgements stay, and no harmless claim is touched. */
  lemma PhaseGrows(ms: seq<Message>, i: nat, p: Phase, c: Id)
    requires i < |ms| && p != Posted && ms[i].phase in {Posted, Clicked}
    ensures Acknowledged(ms, c) ==> Acknowledged(SetPhase(ms, i, p), c)
    ensures Harmless(ms, c) ==> Harmless(SetPhase(ms, i, p), c)
  {
    var ms' := SetPhase(ms, i, p);
    if Acknowledged(ms, c) {
      var j :| 0 <= j < |ms| && ms[j].claim == c && ms[j].phase == Confirmed;
      assert ms'[j] == ms[j];
    }
  }

  lemma PhasePage(ms: seq<Message>, i: nat, p: Phase, clicks: multiset<Id>, clicks': multiset<Id>, ever: map<Id, Id>)
    requires PageOk(ms, clicks, ever) && i < |ms| && p != Posted && ms[i].phase in {Posted, Clicked}
    requires p == Phase.Refused || p == Clicked <==> ms[i].phase == Posted
    requires clicks' == if p == Clicked then clicks + multiset{ms[i].command} else clicks
    ensures PageOk(SetPhase(ms, i, p), clicks', ever)
  {
    var ms' := SetPhase(ms, i, p);
    assert forall j :: 0 <= j < |ms| ==> ms'[j].command == ms[j].command && ms'[j].claim == ms[j].claim;
    assert forall j :: 0 <= j < |ms| && j != i ==> ms'[j] == ms[j];
    forall k | k in clicks'
      ensures exists j :: 0 <= j < |ms'| && ms'[j].command == k
    {
      if k in clicks {
        var j :| 0 <= j < |ms| && ms[j].command == k;
        assert ms'[j].command == k;
      } else {
        assert ms'[i].command == k;
      }
    }
  }

  lemma PhaseMoves(s: State, i: nat, p: Phase)
    requires i < |s.messages| && p != Posted && s.messages[i].phase in {Posted, Clicked} && PcOk(s)
    ensures var ms := SetPhase(s.messages, i, p);
            Grows(s.ledger, s.ever, s.messages, s.ledger, s.ever, ms) && PcOk(s.(messages := ms))
  {
    var ms := SetPhase(s.messages, i, p);
    forall c
      ensures Acknowledged(s.messages, c) ==> Acknowledged(ms, c)
      ensures Harmless(s.messages, c) ==> Harmless(ms, c)
    {
      PhaseGrows(s.messages, i, p, c);
    }
  }

  lemma PhaseKeeps(s: State, i: nat, p: Phase, clicks: multiset<Id>)
    requires Joint(s) && i < |s.messages| && p != Posted && s.messages[i].phase in {Posted, Clicked}
    requires p == Phase.Refused || p == Clicked <==> s.messages[i].phase == Posted
    requires clicks == if p == Clicked then s.clicks + multiset{s.messages[i].command} else s.clicks
    ensures Joint(s.(messages := SetPhase(s.messages, i, p), clicks := clicks))
  {
    PhaseMoves(s, i, p);
    PhasePage(s.messages, i, p, s.clicks, clicks, s.ever);
    PageStep(s, SetPhase(s.messages, i, p), clicks, s.pc);
  }

  lemma PageKeeps(s: State, e: Event)
    requires Joint(s) && Enabled(s, e)
    requires OfPage(e)
    ensures Joint(Browse(s, e))
  {
    match e
    case PageRefuses(i) => PhaseKeeps(s, i, Phase.Refused, s.clicks);
    case PageClicks(i) => PhaseKeeps(s, i, Clicked, s.clicks + multiset{s.messages[i].command});
    case PageConfirms(i) => PhaseKeeps(s, i, Confirmed, s.clicks);
    case PageTimesOut(i) => PhaseKeeps(s, i, Unconfirmed, s.clicks);
  }

  /** One claim per command and one command per claim: a claim without messages is a command without messages. */
  lemma NoMessageNoCommand(t: D.Table, m: L.Entries, ever: map<Id, Id>, ms: seq<Message>, clicks: multiset<Id>, c: Id, k: Id)
    requires LedgerOk(t, m, ever) && PageOk(ms, clicks, ever) && Owns(t, c, k)
    requires forall i :: 0 <= i < |ms| ==> ms[i].claim != c
    ensures forall i :: 0 <= i < |ms| ==> ms[i].command != k
    ensures clicks[k] == 0
  {
    forall i | 0 <= i < |ms|
      ensures ms[i].command != k
    {
      assert Owns(t, ms[i].claim, ever[ms[i].claim]);
    }
  }

  lemma PostPage(ms: seq<Message>, clicks: multiset<Id>, ever: map<Id, Id>, c: Id, k: Id)
    requires PageOk(ms, clicks, ever) && c in ever && ever[c] == k && clicks[k] == 0
    requires forall i :: 0 <= i < |ms| ==> ms[i].command != k
    ensures PageOk(ms + [Message(c, k, Posted)], clicks, ever)
  {
    var ms' := ms + [Message(c, k, Posted)];
    assert forall i :: 0 <= i < |ms| ==> ms'[i] == ms[i];
    forall x | x in clicks
      ensures exists j :: 0 <= j < |ms'| && ms'[j].command == x
    {
      var j :| 0 <= j < |ms| && ms[j].command == x;
      assert ms'[j].command == x;
    }
  }

  lemma PostGrows(ms: seq<Message>, x: Message, c: Id)
    ensures Acknowledged(ms, c) ==> Acknowledged(ms + [x], c)
    ensures Harmless(ms, c) && c != x.claim ==> Harmless(ms + [x], c)
  {
    if Acknowledged(ms, c) {
      var j :| 0 <= j < |ms| && ms[j].claim == c && ms[j].phase == Confirmed;
      assert (ms + [x])[j] == ms[j];
    }
  }

  lemma PostMoves(m: L.Entries, ever: map<Id, Id>, ms: seq<Message>, x: Message)
    requires !Closed(m, ever, x.claim)
    ensures Grows(m, ever, ms, m, ever, ms + [x])
  {
    forall d
      ensures Acknowledged(ms, d) ==> Acknowledged(ms + [x], d)
      ensures Closed(m, ever, d) && Harmless(ms, d) ==> Harmless(ms + [x], d)
    {
      PostGrows(ms, x, d);
    }
  }

  lemma PostMovesPage(s: State, c: Id, k: Id)
    requires Joint(s) && s.pc == Owning(c, k)
    ensures PageOk(s.messages + [Message(c, k, Posted)], s.clicks, s.ever)
    ensures Grows(s.ledger, s.ever, s.messages, s.ledger, s.ever, s.messages + [Message(c, k, Posted)])
  {
    NoMessageNoCommand(s.table, s.ledger, s.ever, s.messages, s.clicks, c, k);
    PostPage(s.messages, s.clicks, s.ever, c, k);
    PostMoves(s.ledger, s.ever, s.messages, Message(c, k, Posted));
  }

  /** The owner of a fresh reservation hands its one message to the page. */
  lemma PostKeeps(s: State, c: Id, k: Id)
    requires Joint(s) && s.pc == Owning(c, k)
    ensures Joint(s.(messages := s.messages + [Message(c, k, Posted)], pc := Sending(c, k, |s.messages|)))
  {
    PostMovesPage(s, c, k);
    PageStep(s, s.messages + [Message(c, k, Posted)], s.clicks, Sending(c, k, |s.messages|));
  }

  /** The answer the executor reads decides an outcome that the page backs. */
  lemma AnswerKeeps(s: State, outcome: L.EntryState)
    requires Joint(s) && Enabled(s, SendAnswered(outcome))
    ensures Joint(Work(s, SendAnswered(outcome)))
  {
    var c, i := s.pc.claim, s.pc.message;
    forall j | 0 <= j < |s.messages| && s.messages[j].claim == c
      ensures j == i
    {
      assert s.messages[j].command == s.messages[i].command;
    }
  }

  // ---------------------------------------------------------------- wire and control steps

  lemma WireGrows(s: State, k: D.Completion)
    requires Joint(s) && Owns(s.table, k.claim, k.command) && Truthful(k.outcome, k.claim, s.ledger, s.ever, s.messages)
    requires k.outcome in {D.Delivered, D.Failed, D.Uncertain}
    ensures Joint(s.(wire := s.wire + {k}))
  {
  }

  /** A completion reports exactly what the terminal ledger entry says. */
  lemma SendCompletionKeeps(s: State, c: Id, reason: string)
    requires Joint(s) && Enabled(s, SendCompletion(c, reason))
    ensures Joint(Work(s, SendCompletion(c, reason)))
  {
    assert Owns(s.table, c, s.ever[c]) && Closed(s.ledger, s.ever, c);
    WireGrows(s, D.Completion(s.ledger[c].command, c, Outcome(s.ledger[c].state), reason, "extension_dom_executor"));
  }

  lemma ReserveFaultsKeeps(s: State, persisted: bool, origin: Id, now: nat)
    requires Joint(s) && Enabled(s, ReserveFaults(persisted, origin, now))
    ensures Joint(Work(s, ReserveFaults(persisted, origin, now)))
  {
    ReserveKeeps(s, origin, now, false);
    var t := if persisted then Reserved(s, origin, now, false) else s.(pc := Idle);
    WireGrows(t, UncertainCompletion(s.pc.execution, "ledger_unavailable"));
  }

  lemma MarkFaultsKeeps(s: State, persisted: bool, diagnostic: string, now: nat)
    requires Joint(s) && s.pc.Settling?
    ensures Joint(GivenUp(s, if persisted then Marked(s, diagnostic, now) else s.ledger))
  {
    if persisted {
      MarkKeeps(s, diagnostic, now);
      AbandonKeeps(s.(ledger := Marked(s, diagnostic, now), pc := Finishing), s.pc.claim, s.pc.command);
    } else {
      AbandonKeeps(s, s.pc.claim, s.pc.command);
    }
  }

  /** An executor that gave up reports `uncertain` for a claim still in the ledger. */
  lemma AbandonKeeps(s: State, c: Id, k: Id)
    requires Joint(s) && c in s.ledger && s.ledger[c].command == k
    ensures Joint(s.(pc := Idle, wire := s.wire + {Abandoned(c, k)}))
  {
    GoesIdle(s);
    assert Owns(s.table, c, s.ever[c]);
    WireGrows(s.(pc := Idle), Abandoned(c, k));
  }

  lemma GoesIdle(s: State)
    requires Joint(s)
    ensures Joint(s.(pc := Idle))
  {
  }

  lemma ControlKeeps(s: State, e: Event)
    requires Joint(s) && Enabled(s, e)
    requires e.Crash? || e.Rest? || e.Poll? || e.PollEnds? || e.Reject? || e.LedgerUnavailable? || e.PreSendError? || e.UnknownError?
    ensures Joint(Work(s, e))
  {
  }

  lemma ServeKeeps(s: State, e: Event)
    requires Joint(s) && Enabled(s, e) && OfBackend(e)
    ensures Joint(Serve(s, e))
  {
    match e
    case Backend(_) => BackendKeeps(s, e);
    case ServeClaim(id, req, v, ttl) => ServeClaimKeeps(s, id, req, v, ttl);
    case ServeReplay(req) => ServeReplayKeeps(s, req);
    case ServeCompletion(k, now) => ServeCompletionKeeps(s, k, now);
  }

  /** What the service worker does to the ledger, and the message it hands over. */
  lemma LedgerWorkKeeps(s: State, e: Event)
    requires Joint(s) && Enabled(s, e)
    requires e.Recover? || e.Reserve? || e.PostSend? || e.Mark? || e.MarkFaults? || e.RecordAnswer?
    ensures Joint(Work(s, e))
  {
    hide Joint, Reserved, Marked, GivenUp, L.RecoverIn, L.AcknowledgeIn;
    match e
    case Recover(now) => RecoverKeeps(s, now);
    case Reserve(origin, now) => ReserveKeeps(s, origin, now, true);
    case PostSend => PostKeeps(s, s.pc.claim, s.pc.command);
    case Mark(diagnostic, now) => MarkKeeps(s, diagnostic, now);
    case MarkFaults(persisted, diagnostic, now) => MarkFaultsKeeps(s, persisted, diagnostic, now);
    case RecordAnswer(c, diagnostic, now) => RecordAnswerKeeps(s, c, diagnostic, now);
  }

  /** Everything the service worker itself does. */
  lemma WorkerKeeps(s: State, e: Event)
    requires Joint(s) && Enabled(s, e)
    requires !OfBackend(e) && !OfPage(e)
    ensures Joint(Work(s, e))
  {
    hide Joint, Work, Enabled;
    match e
    case Prune(m, limit) => PruneKeeps(s, m, limit);
    case ReserveFaults(persisted, origin, now) => ReserveFaultsKeeps(s, persisted, origin, now);
    case SendAnswered(outcome) => AnswerKeeps(s, outcome);
    case SendCompletion(c, reason) => SendCompletionKeeps(s, c, reason);
    case Recover(_) => LedgerWorkKeeps(s, e);
    case Reserve(_, _) => LedgerWorkKeeps(s, e);
    case PostSend => LedgerWorkKeeps(s, e);
    case Mark(_, _) => LedgerWorkKeeps(s, e);
    case MarkFaults(_, _, _) => LedgerWorkKeeps(s, e);
    case RecordAnswer(_, _, _) => LedgerWorkKeeps(s, e);
    case _ => ControlKeeps(s, e);
  }

  // ---------------------------------------------------------------- theorems

  /** Every step of every party keeps the joint invariant of the two stores, the wire and the page. */
  lemma StepKeepsJoint(s: State, e: Event)
    requires Joint(s)
    ensures Joint(Step(s, e))
  {
    if Enabled(s, e) {
      if OfBackend(e) {
        ServeKeeps(s, e);
      } else if OfPage(e) {
        PageKeeps(s, e);
      } else {
        WorkerKeeps(s, e);
      }
    }
  }

  lemma {:induction false} RunKeepsJoint(s: State, es: seq<Event>)
    requires Joint(s)
    ensures Joint(Run(s, es))
    decreases |es|
  {
    if es != [] {
      StepKeepsJoint(s, es[0]);
      RunKeepsJoint(Step(s, es[0]), es[1..]);
    }
  }

  lemma StartIsJoint()
    ensures Joint(START)
  {
  }

  /** No step removes a row, changes a frozen field, replaces a claim, or takes a status back. */
  lemma OnlyBackendWrites(s: State, e: Event)
    ensures !OfBackend(e) ==> Step(s, e).table == s.table
  {
  }

  lemma StepEvolves(s: State, e: Event)
    requires D.Inv(s.table)
    ensures D.Evolves(s.table, Step(s, e).table)
  {
    hide D.Inv, D.CreateTx, D.ClaimTx, D.CompleteTx, D.ReconcileTx, D.CancelTx, D.InvalidateTx, Browse, Work, Joint;
    OnlyBackendWrites(s, e);
    if Enabled(s, e) && OfBackend(e) {
      match e
      case Backend(tx) => D.ApplySafe(s.table, tx);
      case ServeClaim(id, req, v, ttl) => D.ClaimSafe(s.table, id, req, v, ttl);
      case ServeCompletion(k, now) => D.ApplySafe(s.table, D.Complete(k, now));
      case _ =>
    }
  }

  lemma {:induction false} RunEvolves(s: State, es: seq<Event>)
    requires Joint(s)
    ensures D.Evolves(s.table, Run(s, es).table)
    decreases |es|
  {
    if es != [] {
      var t := Step(s, es[0]);
      StepKeepsJoint(s, es[0]);
      StepEvolves(s, es[0]);
      RunEvolves(t, es[1..]);
      D.EvolvesTransitive(s.table, t.table, Run(s, es).table);
    }
  }

  /** In every run the Send control is clicked at most once for a command, and only for a claim reserved before. */
  lemma AtMostOneClick(es: seq<Event>, k: Id)
    ensures var s := Run(START, es);
            s.clicks[k] <= 1 && (s.clicks[k] > 0 ==> exists c :: c in s.ever && s.ever[c] == k)
  {
    StartIsJoint();
    RunKeepsJoint(START, es);
    var s := Run(START, es);
    if k in s.clicks {
      var i :| 0 <= i < |s.messages| && s.messages[i].command == k;
      assert s.messages[i].claim in s.ever;
    }
  }

  /**
   In every run a command keeps its first claim forever and never becomes pending again, and every claim ever reserved
   for it, then or later, is that one.
   */
  lemma OneClaimPerCommand(es: seq<Event>, more: seq<Event>, k: Id)
    ensures var s := Run(START, es); forall c :: c in s.ever && s.ever[c] == k ==> Owns(s.table, c, k)
    ensures var s := Run(START, es);
            D.Has(s.table, k) && D.Row(s.table, k).claim.Some? ==>
              var t := Run(s, more);
              && D.Has(t.table, k) && D.Row(t.table, k).claim == D.Row(s.table, k).claim
              && D.Row(t.table, k).frozen == D.Row(s.table, k).frozen && D.Row(t.table, k).status != D.Pending
              && forall c :: c in t.ever && t.ever[c] == k ==> c == D.Row(s.table, k).claim.value.id
  {
    StartIsJoint();
    RunKeepsJoint(START, es);
    if D.Has(Run(START, es).table, k) && D.Row(Run(START, es).table, k).claim.Some? { ClaimStays(es, more, k); }
  }

  lemma ClaimStays(es: seq<Event>, more: seq<Event>, k: Id)
    requires D.Has(Run(START, es).table, k) && D.Row(Run(START, es).table, k).claim.Some?
    ensures var c, t := D.Row(Run(START, es).table, k), Run(Run(START, es), more);
            && D.Has(t.table, k) && D.Row(t.table, k).claim == c.claim && D.Row(t.table, k).frozen == c.frozen
            && D.Row(t.table, k).status != D.Pending
            && forall x :: x in t.ever && t.ever[x] == k ==> x == c.claim.value.id
  {
    hide Joint, Step, Run, D.Evolves;
    StartIsJoint();
    RunKeepsJoint(START, es);
    var s := Run(START, es);
    RunEvolves(s, more);
    RunKeepsJoint(s, more);
    ClaimOfRow(s.table, Run(s, more), k);
  }

  lemma ClaimOfRow(t: D.Table, u: State, k: Id)
    requires D.Has(t, k) && D.Row(t, k).claim.Some? && D.Evolves(t, u.table) && Joint(u)
    ensures D.Has(u.table, k) && D.Row(u.table, k).claim == D.Row(t, k).claim && D.Row(u.table, k).frozen == D.Row(t, k).frozen
    ensures D.Row(u.table, k).status != D.Pending
    ensures forall x :: x in u.ever && u.ever[x] == k ==> x == D.Row(t, k).claim.value.id
  {
    RowMovesOn(t, u.table, k - 1);
    D.RowIsOk(u.table, k);
    hide D.Inv, D.Evolves, SettledOk, PageOk, EntriesOk, WireOk, RowsOk, PcOk;
    forall x | x in u.ever && u.ever[x] == k
      ensures x == D.Row(t, k).claim.value.id
    {
      assert Owns(u.table, x, k);
    }
  }

  /** What the backend says about a command of this installation is what happened on the page. */
  lemma HonestRow(s: State, k: Id)
    requires Joint(s) && D.Has(s.table, k) && D.Row(s.table, k).frozen.worker == WORKER
    ensures D.Row(s.table, k).status == D.Delivered ==>
              s.clicks[k] == 1 && exists c :: Owns(s.table, c, k) && Acknowledged(s.messages, c)
    ensures D.Row(s.table, k).status == D.Failed ==> s.clicks[k] == 0
  {
    var row := s.table.rows[k - 1];
    assert D.RowOk(row, k, s.table.claims);
    if row.status == D.Delivered || row.status == D.Failed {
      var c := row.claim.value.id;
      assert Owns(s.table, c, s.ever[c]);
      forall i | 0 <= i < |s.messages| && (s.messages[i].claim == c || s.messages[i].command == k)
        ensures s.messages[i].claim == c && s.messages[i].command == k
      {
        assert Owns(s.table, s.messages[i].claim, s.ever[s.messages[i].claim]);
      }
    }
  }

  /**
   Outcomes are honest in every reachable state and stay so in every continuation: a delivered command was clicked
   exactly once and the page acknowledged that click; a failed command is never clicked, not even later.
   */
  lemma OutcomesAreHonest(es: seq<Event>, more: seq<Event>, k: Id)
    requires D.Has(Run(START, es).table, k) && D.Row(Run(START, es).table, k).frozen.worker == WORKER
    ensures var s, t := Run(START, es), Run(Run(START, es), more);
            && (D.Row(s.table, k).status == D.Delivered ==>
                  t.clicks[k] == 1 && exists c :: Owns(t.table, c, k) && Acknowledged(t.messages, c))
            && (D.Row(s.table, k).status == D.Failed ==> t.clicks[k] == 0)
  {
    StartIsJoint();
    RunKeepsJoint(START, es);
    var s := Run(START, es);
    assert D.RowOk(s.table.rows[k - 1], k, s.table.claims);
    RunEvolves(s, more);
    RunKeepsJoint(s, more);
    assert D.RowEvolves(s.table.rows[k - 1], Run(s, more).table.rows[k - 1]);
    HonestRow(Run(s, more), k);
  }

  /**
   In every reachable state an acknowledged or already forgotten claim is terminal in the backend, so the ledger
   never loses an entry that a poll could still bring back.
   */
  lemma AcknowledgedIsTerminal(es: seq<Event>, c: Id)
    requires var s := Run(START, es); c in s.ever && (c in s.ledger ==> s.ledger[c].acked)
    ensures var s := Run(START, es);
            && Owns(s.table, c, s.ever[c])
            && D.Row(s.table, s.ever[c]).status in {D.Delivered, D.Failed, D.Uncertain}
  {
    StartIsJoint();
    RunKeepsJoint(START, es);
    var s := Run(START, es);
    assert D.RowOk(s.table.rows[s.ever[c] - 1], s.ever[c], s.table.claims);
  }

  // ---------------------------------------------------------------- crashes surface as uncertain

  ghost predicate Handling(pc: Pc, c: Id) {
    match pc
    case Owning(d, _) => d == c
    case Sending(d, _, _) => d == c
    case Settling(d, _, _) => d == c
    case _ => false
  }

  /** Nobody handles the reserved claim any more, and the ledger knows no outcome for it. */
  ghost predicate Abandons(s: State, c: Id, k: Id) {
    && c in s.ever && s.ever[c] == k && !Handling(s.pc, c)
    && (c in s.ledger ==> s.ledger[c].state == L.Reserved || s.ledger[c].state == L.Unsure)
  }

  ghost predicate OnlyUncertain(wire: set<D.Completion>, c: Id) {
    forall x :: x in wire && x.claim == c ==> x.outcome == D.Uncertain
  }

  ghost predicate StillOpen(t: D.Table, c: Id, k: Id) {
    Owns(t, c, k) && D.Row(t, k).status in {D.Claimed, D.Uncertain}
  }

  /** Nobody can ever report more than `uncertain` for the claim. */
  ghost predicate Orphaned(s: State, c: Id, k: Id) {
    Abandons(s, c, k) && OnlyUncertain(s.wire, c) && StillOpen(s.table, c, k)
  }

  lemma QuietLeavesOpen(t: D.Table, u: D.Table, c: Id, k: Id)
    requires StillOpen(t, c, k) && D.Evolves(t, u) && Quiet(t, u)
    ensures StillOpen(u, c, k)
  {
    OwnsEvolves(t, u, c, k);
    assert QuietRow(t, u, k - 1);
    RowMovesOn(t, u, k - 1);
  }

  lemma UncertainLeavesOpen(t: D.Table, c: Id, k: Id, x: D.Completion, now: nat)
    requires D.Inv(t) && StillOpen(t, c, k) && (x.claim == c ==> x.outcome == D.Uncertain)
    ensures StillOpen(D.CompleteTx(t, x, now).0, c, k)
  {
    hide D.Inv, D.Evolves;
    D.ApplySafe(t, D.Complete(x, now));
    OwnsEvolves(t, D.CompleteTx(t, x, now).0, c, k);
  }

  lemma OrphanTable(s: State, e: Event, c: Id, k: Id)
    requires D.Inv(s.table) && StillOpen(s.table, c, k) && OnlyUncertain(s.wire, c)
    ensures StillOpen(Step(s, e).table, c, k)
  {
    hide D.Inv, D.Evolves, D.ClaimTx, D.CompleteTx, D.Apply, D.FindRequest, StillOpen, Quiet, Browse, Work;
    StepEvolves(s, e);
    OnlyBackendWrites(s, e);
    if Enabled(s, e) && OfBackend(e) {
      match e
      case Backend(tx) =>
        ForeignIsQuiet(s.table, tx);
        QuietLeavesOpen(s.table, Step(s, e).table, c, k);
      case ServeClaim(id, req, v, ttl) =>
        ClaimIsQuiet(s.table, id, req, v, ttl);
        QuietLeavesOpen(s.table, Step(s, e).table, c, k);
      case ServeCompletion(x, now) => UncertainLeavesOpen(s.table, c, k, x, now);
      case ServeReplay(_) =>
    }
  }

  lemma OrphanServe(s: State, e: Event, c: Id, k: Id)
    requires Abandons(s, c, k) && PcOk(s) && Enabled(s, e) && OfBackend(e)
    ensures Abandons(Serve(s, e), c, k)
  {
    hide D.ClaimTx, D.CompleteTx, D.Apply;
  }

  lemma OrphanWork(s: State, e: Event, c: Id, k: Id)
    requires Abandons(s, c, k) && PcOk(s) && Enabled(s, e) && !OfBackend(e) && !OfPage(e)
    ensures Abandons(Work(s, e), c, k)
  {
  }

  lemma OrphanLedger(s: State, e: Event, c: Id, k: Id)
    requires Abandons(s, c, k) && PcOk(s)
    ensures Abandons(Step(s, e), c, k)
  {
    hide Serve, Work, PcOk;
    if Enabled(s, e) {
      if OfBackend(e) { OrphanServe(s, e, c, k); } else if !OfPage(e) { OrphanWork(s, e, c, k); }
    }
  }

  lemma OrphanWire(s: State, e: Event, c: Id, k: Id)
    requires Abandons(s, c, k) && OnlyUncertain(s.wire, c)
    ensures OnlyUncertain(Step(s, e).wire, c)
  {
    hide Serve, Browse, Abandons;
    OnlyWorkerSends(s, e);
    if Enabled(s, e) && !OfBackend(e) && !OfPage(e) { OrphanWorkWire(s, e, c, k); }
  }

  lemma OnlyWorkerSends(s: State, e: Event)
    ensures OfBackend(e) || OfPage(e) ==> Step(s, e).wire == s.wire
  {
    hide D.ClaimTx, D.CompleteTx, D.Apply, D.FindRequest;
  }

  lemma OrphanWorkWire(s: State, e: Event, c: Id, k: Id)
    requires Abandons(s, c, k) && OnlyUncertain(s.wire, c) && Enabled(s, e) && !OfBackend(e) && !OfPage(e)
    ensures OnlyUncertain(Work(s, e).wire, c)
  {
    hide L.RecoverIn, L.AcknowledgeIn, L.MarkIn;
  }

  lemma StepKeepsOrphaned(s: State, e: Event, c: Id, k: Id)
    requires Joint(s) && Orphaned(s, c, k)
    ensures Orphaned(Step(s, e), c, k)
  {
    OrphanTable(s, e, c, k);
    OrphanLedger(s, e, c, k);
    OrphanWire(s, e, c, k);
  }

  lemma {:induction false} RunKeepsOrphaned(s: State, es: seq<Event>, c: Id, k: Id)
    requires Joint(s) && Orphaned(s, c, k)
    ensures Orphaned(Run(s, es), c, k)
    decreases |es|
  {
    if es != [] {
      StepKeepsJoint(s, es[0]);
      StepKeepsOrphaned(s, es[0], c, k);
      RunKeepsOrphaned(Step(s, es[0]), es[1..], c, k);
    }
  }

  /**
   If the service worker dies while a claim is still reserved, at whatever await, then in every continuation the
   backend can only ever say `uncertain` about its command (or still `claimed`), whether the page clicked or not.
   */
  lemma CrashSurfacesAsUncertain(es: seq<Event>, c: Id, session: Id, more: seq<Event>)
    requires var s := Run(START, es); c in s.ledger && s.ledger[c].state == L.Reserved
    ensures var s := Run(START, es);
            StillOpen(Run(Step(s, Crash(session)), more).table, c, s.ledger[c].command)
  {
    hide Joint, StillOpen, Step, Run;
    StartIsJoint();
    RunKeepsJoint(START, es);
    CrashStep(Run(START, es), session);
    CrashOrphans(Run(START, es), c, session, more);
  }

  lemma CrashStep(s: State, session: Id)
    ensures Step(s, Crash(session)) == s.(pc := Booting, session := session)
  {
  }

  lemma CrashIsJoint(s: State, session: Id)
    requires Joint(s)
    ensures Joint(s.(pc := Booting, session := session))
  {
    hide LedgerOk, SettledOk, PageOk, EntriesOk, WireOk, RowsOk, D.Inv;
  }

  /** A reservation whose holder is gone is orphaned. */
  lemma ReservedIsOrphaned(s: State, c: Id, session: Id)
    requires Joint(s) && c in s.ledger && s.ledger[c].state == L.Reserved
    ensures Orphaned(s.(pc := Booting, session := session), c, s.ledger[c].command)
  {
    hide D.Inv, SettledOk, PageOk, EntriesOk, PcOk, Acknowledged, Harmless;
    var k := s.ledger[c].command;
    assert Owns(s.table, c, k);
    D.RowIsOk(s.table, k);
    assert !Closed(s.ledger, s.ever, c);
    assert Truthful(s.table.rows[k - 1].status, c, s.ledger, s.ever, s.messages);
  }

  lemma CrashOrphans(s: State, c: Id, session: Id, more: seq<Event>)
    requires Joint(s) && c in s.ledger && s.ledger[c].state == L.Reserved
    ensures StillOpen(Run(s.(pc := Booting, session := session), more).table, c, s.ledger[c].command)
  {
    hide Joint, Run, Step;
    ReservedIsOrphaned(s, c, session);
    CrashIsJoint(s, session);
    RunKeepsOrphaned(s.(pc := Booting, session := session), more, c, s.ledger[c].command);
  }

  // ---------------------------------------------------------------- the protocol does deliver

  lemma {:induction false} RunAppend(s: State, es: seq<Event>, more: seq<Event>)
    ensures Run(s, es + more) == Run(Run(s, es), more)
    decreases |es|
  {
    if es == [] {
      assert es + more == more;
    } else {
      assert (es + more)[1..] == es[1..] + more;
      RunAppend(Step(s, es[0]), es[1..], more);
    }
  }

  lemma RunPair(s: State, e: Event, f: Event)
    ensures Run(s, [e, f]) == Step(Step(s, e), f)
  {
    assert [e, f][1..] == [f];
    assert [f][1..] == [];
    var t := Step(s, e);
    assert Run(t, [f]) == Run(Step(t, f), []);
    assert Run(Step(t, f), []) == Step(t, f);
  }

  /** One row of this installation's current session, and nothing handed to the page yet. */
  ghost predicate Fresh(s: State, c: D.Command) {
    && s.messages == [] && s.clicks == multiset{} && s.session == 5
    && s.table.rows == [c] && c.id == 1 && c.frozen.worker == WORKER && c.frozen.session == 5
  }

  ghost predicate Waiting(s: State, c: D.Command, v: D.View) {
    && Fresh(s, c) && s.pc == Idle && s.ledger == map[] && s.table.claims == 0
    && c.status == D.Pending && c.claim.None? && v.now < c.frozen.expiresAt && D.Stale(c, v).None?
  }

  ghost predicate Won(c: D.Command, now: nat) {
    c.status == D.Claimed && c.claim == Some(D.Claim(1, 7, now, now + 60))
  }

  ghost predicate InLedger(s: State, state: L.EntryState, acked: bool) {
    s.ledger.Keys == {1} && s.ledger[1].claim == 1 && s.ledger[1].command == 1 && s.ledger[1].state == state
      && s.ledger[1].acked == acked
  }

  lemma CreateStep(v: D.View, input: D.Confirmation) returns (s: State)
    requires v == D.View(0, Some(D.Authority(true, true, 2, D.Dispatch, 3, 4, 5, 6, 7, 6, 5, D.Dispatch, 3, 4)),
                         D.Ready(4, 8, 1, WORKER, 5, 9, Token(1, WORKER, 5)))
    requires input == D.Confirmation(11, 12, 2, 6, 5, 4, 8, 1, Token(1, WORKER, 5))
    ensures s == Step(START, Backend(D.Create(1, 1, input, v, 300)))
    ensures |s.table.rows| == 1 && Waiting(s.(pc := Idle, session := 5), s.table.rows[0], v)
  {
    s := Step(START, Backend(D.Create(1, 1, input, v, 300)));
    assert D.FindKey(D.EMPTY.rows, 1, 1, 12, 0).None?;
    assert D.Authorize(1, 1, 1, input, v, 300).Ok?;
    assert s.table.rows == [D.Authorize(1, 1, 1, input, v, 300).value];
  }

  lemma ReachWaiting() returns (es: seq<Event>, c: D.Command, v: D.View)
    ensures Waiting(Run(START, es), c, v)
  {
    var input := D.Confirmation(11, 12, 2, 6, 5, 4, 8, 1, Token(1, WORKER, 5));
    v := D.View(0, Some(D.Authority(true, true, 2, D.Dispatch, 3, 4, 5, 6, 7, 6, 5, D.Dispatch, 3, 4)),
                D.Ready(4, 8, 1, WORKER, 5, 9, Token(1, WORKER, 5)));
    var s := CreateStep(v, input);
    c := s.table.rows[0];
    var create := Backend(D.Create(1, 1, input, v, 300));
    var t := s.(pc := Booting, session := 5);
    hide Step, Run, D.Stale;
    CrashStep(s, 5);
    RunPair(START, create, Crash(5));
    assert Run(START, [create, Crash(5)]) == t;
    BootSteps(t);
    RunAppend(START, [create, Crash(5)], [Recover(0), Rest]);
    es := [create, Crash(5)] + [Recover(0), Rest];
  }

  lemma BootSteps(s: State)
    requires s.pc == Booting && s.ledger == map[]
    ensures Run(s, [Recover(0), Rest]) == s.(pc := Idle)
  {
    RunPair(s, Recover(0), Rest);
    assert L.RecoverIn(s.ledger, 0) == map[];
  }

  lemma ClaimSteps(s: State, c: D.Command, v: D.View)
    requires Waiting(s, c, v)
    ensures var t := Run(s, [Poll(7), ServeClaim(1, D.ClaimRequest(WORKER, 5, 7), v, 60)]);
            |t.table.rows| == 1 && var d := t.table.rows[0];
            Fresh(t, d) && Won(d, v.now) && t.pc == Holding(d) && t.ledger == map[]
  {
    var req := D.ClaimRequest(WORKER, 5, 7);
    var s1 := Step(s, Poll(7));
    assert D.FindRequest(s1.table.rows, WORKER, 7, 1).None?;
    assert D.FindRequest(s1.table.rows, WORKER, 7, 0).None?;
    assert D.Row(s1.table, 1) == c;
    RunPair(s, Poll(7), ServeClaim(1, req, v, 60));
  }

  lemma ReserveStep(s: State, c: D.Command, now: nat)
    requires Fresh(s, c) && Won(c, now) && s.pc == Holding(c) && s.ledger == map[]
    ensures var t := Step(s, Reserve(3, now));
            && t.pc == Owning(1, 1) && t.messages == [] && t.clicks == multiset{} && t.table == s.table
            && InLedger(t, L.Reserved, false)
  {
    hide Serve, Browse, Marked, GivenUp;
  }

  lemma PostStep(s: State, c: Id, k: Id)
    requires s.pc == Owning(c, k)
    ensures Step(s, PostSend) == s.(pc := Sending(c, k, |s.messages|), messages := s.messages + [Message(c, k, Posted)])
  {
    hide Serve, Browse, Reserved, Marked, GivenUp;
  }

  lemma PostSteps(s: State, c: D.Command, now: nat)
    requires Fresh(s, c) && Won(c, now) && s.pc == Holding(c) && s.ledger == map[]
    ensures var t := Run(s, [Reserve(3, now), PostSend]);
            t.pc == Sending(1, 1, 0) && t.messages == [Message(1, 1, Posted)] && t.clicks == multiset{} && t.table == s.table
            && InLedger(t, L.Reserved, false)
  {
    hide Step, Run;
    RunPair(s, Reserve(3, now), PostSend);
    ReserveStep(s, c, now);
    PostStep(Step(s, Reserve(3, now)), 1, 1);
  }

  lemma ClickSteps(s: State, now: nat)
    requires s.pc == Sending(1, 1, 0) && s.messages == [Message(1, 1, Posted)] && s.clicks == multiset{}
            && InLedger(s, L.Reserved, false)
    ensures var t := Run(s, [PageClicks(0), PageConfirms(0)]);
            t == s.(messages := [Message(1, 1, Confirmed)], clicks := multiset{1})
  {
    hide Serve, Work, Run, InLedger;
    RunPair(s, PageClicks(0), PageConfirms(0));
    assert SetPhase(s.messages, 0, Clicked) == [Message(1, 1, Clicked)];
    var clicked := s.(messages := [Message(1, 1, Clicked)], clicks := multiset{1});
    assert Step(s, PageClicks(0)) == clicked;
    assert SetPhase(clicked.messages, 0, Confirmed) == [Message(1, 1, Confirmed)];
  }

  lemma MarkSteps(s: State, now: nat)
    requires s.pc == Sending(1, 1, 0) && s.messages == [Message(1, 1, Confirmed)] && InLedger(s, L.Reserved, false)
    ensures var t := Run(s, [SendAnswered(L.Sent), Mark("", now)]);
            t.pc == Finishing && InLedger(t, L.Sent, false) && t.table == s.table && t.clicks == s.clicks
  {
    hide Run;
    RunPair(s, SendAnswered(L.Sent), Mark("", now));
    AnswerStep(s);
    hide Serve, Browse, Reserved, GivenUp;
  }

  lemma AnswerStep(s: State)
    requires s.pc == Sending(1, 1, 0) && s.messages == [Message(1, 1, Confirmed)]
    ensures Step(s, SendAnswered(L.Sent)) == s.(pc := Settling(1, 1, L.Sent))
  {
    hide Serve, Browse, Reserved, Marked, GivenUp;
  }

  lemma ReportSteps(s: State, c: D.Command, now: nat)
    requires s.pc == Finishing && InLedger(s, L.Sent, false) && s.table.rows == [c] && c.id == 1 && Won(c, now)
    ensures var t := Run(s, [SendCompletion(1, ""), ServeCompletion(D.Completion(1, 1, D.Delivered, "", "extension_dom_executor"), now)]);
            t.pc == Finishing && t.ledger == s.ledger && t.clicks == s.clicks && 1 in t.answered
            && D.Has(t.table, 1) && D.Row(t.table, 1).status == D.Delivered
  {
    var k := D.Completion(1, 1, D.Delivered, "", "extension_dom_executor");
    RunPair(s, SendCompletion(1, ""), ServeCompletion(k, now));
    assert k in Step(s, SendCompletion(1, "")).wire;
  }

  lemma ForgetSteps(s: State, now: nat)
    requires s.pc == Finishing && InLedger(s, L.Sent, false) && 1 in s.answered
    ensures var t := Run(s, [RecordAnswer(1, "", now), Prune(map[], 0)]);
            t.ledger == map[] && t.table == s.table && t.clicks == s.clicks
  {
    RunPair(s, RecordAnswer(1, "", now), Prune(map[], 0));
  }

  /** Some run wins a claim, and from there one goes on to a click, its acknowledgement and a delivered row. */
  lemma ClaimedThenDelivered() returns (es: seq<Event>, more: seq<Event>)
    ensures var s := Run(START, es); D.Has(s.table, 1) && D.Row(s.table, 1).status == D.Claimed && s.clicks[1] == 0
    ensures var s := Run(Run(START, es), more);
            D.Has(s.table, 1) && D.Row(s.table, 1).status == D.Delivered && s.clicks[1] == 1 && s.ledger == map[]
  {
    var c, v;
    es, c, v := ReachWaiting();
    var now := v.now;
    var k := D.Completion(1, 1, D.Delivered, "", "extension_dom_executor");
    ClaimSteps(Run(START, es), c, v);
    RunAppend(START, es, [Poll(7), ServeClaim(1, D.ClaimRequest(WORKER, 5, 7), v, 60)]);
    es := es + [Poll(7), ServeClaim(1, D.ClaimRequest(WORKER, 5, 7), v, 60)];
    var s := Run(START, es);
    var d := s.table.rows[0];
    PostSteps(s, d, now);
    more := [Reserve(3, now), PostSend];
    ClickSteps(Run(s, more), now);
    RunAppend(s, more, [PageClicks(0), PageConfirms(0)]);
    more := more + [PageClicks(0), PageConfirms(0)];
    MarkSteps(Run(s, more), now);
    RunAppend(s, more, [SendAnswered(L.Sent), Mark("", now)]);
    more := more + [SendAnswered(L.Sent), Mark("", now)];
    ReportSteps(Run(s, more), d, now);
    RunAppend(s, more, [SendCompletion(1, ""), ServeCompletion(k, now)]);
    more := more + [SendCompletion(1, ""), ServeCompletion(k, now)];
    ForgetSteps(Run(s, more), now);
    RunAppend(s, more, [RecordAnswer(1, "", now), Prune(map[], 0)]);
    more := more + [RecordAnswer(1, "", now), Prune(map[], 0)];
  }

  /**
   The protocol does deliver: some run wins a claim, clicks once, has the click acknowledged, reaches `delivered` in
   the backend, and only then forgets the ledger entry.
   */
  lemma DeliveryIsReachable() returns (es: seq<Event>)
    ensures var s := Run(START, es);
            D.Has(s.table, 1) && D.Row(s.table, 1).status == D.Delivered && s.clicks[1] == 1 && s.ledger == map[]
  {
    var more;
    es, more := ClaimedThenDelivered();
    RunAppend(START, es, more);
    es := es + more;
  }
}

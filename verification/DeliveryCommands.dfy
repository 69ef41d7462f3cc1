/**
 The backend command table of browser delivery (backend/internal/delivery).

 Every SQL transaction of the service is one function on `Table`; the class `DeliveryService` runs them in the
 order and with the loops of the source. Row `id` lives at index `id - 1`: the random row identifier is renamed to
 the position of the row, which is fresh and only ever compared for equality.
 */
module DeliveryCommands {
  import opened Prelude

  datatype Status = Pending | Claimed | Delivered | Failed | Uncertain | Cancelled | Expired | Invalidated

  datatype Action = Dispatch | OtherAction(name: Id)

  /** What a confirmation freezes; no later transaction writes any of it. */
  datatype Frozen = Frozen(
    project: nat, issue: nat, key: Id, planId: Id, planHash: Id, contextHash: Id, prompt: Id, promptHash: Id,
    action: Action, role: Id, lane: Id, head: Id, bindingId: Id, bindingVersion: nat, worker: Id, session: Id,
    presence: Token, target: Id, createdAt: nat, expiresAt: nat)

  datatype Claim = Claim(id: Id, request: Id, at: nat, deadline: nat)

  datatype Command = Command(
    id: Id, frozen: Frozen, status: Status, claim: Option<Claim>,
    terminalAt: Option<nat>, reason: string, evidence: string)

  datatype Confirmation = Confirmation(
    planId: Id, key: Id, planHash: Id, contextHash: Id, head: Id, lane: Id,
    bindingId: Id, bindingVersion: nat, presence: Token)

  datatype ClaimRequest = ClaimRequest(worker: Id, session: Id, request: Id)

  datatype Completion = Completion(command: Id, claim: Id, outcome: Status, reason: string, evidence: string)

  datatype Error = ErrConflict | ErrUnavailable | ErrNotFound | ErrInvalid | ErrOther

  datatype Result<+T> = Ok(value: T) | Err(error: Error)

  /** What the planning reader answers for a plan and for the current context summary. */
  datatype Authority = Authority(
    planPresent: bool, planValid: bool, planHash: Id, planAction: Action, planRole: Id, planLane: Id, planHead: Id,
    planContext: Id, planPrompt: Id, contextHash: Id, currentHead: Id, routeAction: Action, routeRole: Id, routeLane: Id)

  /** What the binding resolver answers. */
  datatype Resolution =
    | NotReady
    | Ready(lane: Id, bindingId: Id, bindingVersion: nat, worker: Id, session: Id, target: Id, presence: Token)

  /** Everything a transaction reads from outside the table, sampled when the transaction runs. */
  datatype View = View(now: nat, authority: Option<Authority>, binding: Resolution)

  /** The stored rows and the number of claim identifiers handed out so far. */
  datatype Table = Table(rows: seq<Command>, claims: nat)

  predicate Has(t: Table, id: Id) {
    1 <= id <= |t.rows|
  }

  function Row(t: Table, id: Id): Command
    requires Has(t, id)
  {
    t.rows[id - 1]
  }

  function Store(t: Table, c: Command): Table
    requires Has(t, c.id)
  {
    t.(rows := t.rows[c.id - 1 := c])
  }

  // ---------------------------------------------------------------- reading

  /** SHA-256 of the prompt, taken as injective. */
  function Hash(prompt: Id): Id {
    prompt
  }

  datatype Fingerprint = Fingerprint(
    planId: Id, planHash: Id, contextHash: Id, head: Id, lane: Id, bindingId: Id, bindingVersion: nat, presence: Token)

  function ConfirmationFingerprint(c: Confirmation): Fingerprint {
    Fingerprint(c.planId, c.planHash, c.contextHash, c.head, c.lane, c.bindingId, c.bindingVersion, c.presence)
  }

  function ExistingFingerprint(c: Command): Fingerprint {
    var f := c.frozen;
    Fingerprint(f.planId, f.planHash, f.contextHash, f.head, f.lane, f.bindingId, f.bindingVersion, f.presence)
  }

  predicate KeyedBy(c: Command, project: nat, issue: nat, key: Id) {
    c.frozen.project == project && c.frozen.issue == issue && c.frozen.key == key
  }

  predicate RequestedBy(c: Command, worker: Id, request: Id) {
    c.frozen.worker == worker && c.claim.Some? && c.claim.value.request == request
  }

  /** Position of the first row at or after `from` stored under an idempotency key. */
  function FindKey(rows: seq<Command>, project: nat, issue: nat, key: Id, from: nat): (r: Option<nat>)
    requires from <= |rows|
    ensures r.Some? ==> from <= r.value < |rows| && KeyedBy(rows[r.value], project, issue, key)
    ensures r.Some? ==> var f := rows[r.value].frozen; f.project == project && f.issue == issue && f.key == key
    ensures r.None? ==> forall i :: from <= i < |rows| ==> !KeyedBy(rows[i], project, issue, key)
    decreases |rows| - from
  {
    if from == |rows| then None
    else if KeyedBy(rows[from], project, issue, key) then Some(from)
    else FindKey(rows, project, issue, key, from + 1)
  }

  /** Position of the first row at or after `from` claimed under a claim request. */
  function FindRequest(rows: seq<Command>, worker: Id, request: Id, from: nat): (r: Option<nat>)
    requires from <= |rows|
    ensures r.Some? ==> from <= r.value < |rows| && RequestedBy(rows[r.value], worker, request)
    ensures r.None? ==> forall i :: from <= i < |rows| ==> !RequestedBy(rows[i], worker, request)
    decreases |rows| - from
  {
    if from == |rows| then None
    else if RequestedBy(rows[from], worker, request) then Some(from)
    else FindRequest(rows, worker, request, from + 1)
  }

  predicate Waits(c: Command, worker: Id) {
    c.frozen.worker == worker && c.status == Pending
  }

  /** Identifiers of exactly the pending rows of a worker at or after `from`, oldest first. */
  function Candidates(rows: seq<Command>, worker: Id, from: nat): (r: seq<Id>)
    requires from <= |rows|
    ensures forall id :: id in r <==> from < id <= |rows| && Waits(rows[id - 1], worker)
    ensures forall i :: 0 <= i < |r| ==> from < r[i] <= |rows|
    ensures forall i, j :: 0 <= i < j < |r| ==> r[i] < r[j]
    decreases |rows| - from
  {
    if from == |rows| then []
    else
      var rest := Candidates(rows, worker, from + 1);
      if rows[from].frozen.worker == worker && rows[from].status == Pending then [from + 1] + rest else rest
  }

  function Resolve(b: Resolution, lane: Id): Resolution {
    if b.Ready? && b.lane == lane && b.bindingId != BLANK && b.bindingVersion > 0 && b.worker != BLANK
       && b.session != BLANK && b.target != BLANK && b.presence != NoToken
    then b else NotReady
  }

  // ---------------------------------------------------------------- transactions

  function Finish(c: Command, to: Status, now: nat, reason: string, evidence: string): Command {
    c.(status := to, terminalAt := Some(now), reason := reason, evidence := evidence)
  }

  /** The command a confirmation is authorised to create. */
  function Authorize(id: Id, project: nat, issue: nat, input: Confirmation, v: View, ttl: nat): Result<Command> {
    if v.authority.None? then Err(ErrOther)
    else
      var a := v.authority.value;
      if !a.planPresent || !a.planValid || a.planHash == BLANK then Err(ErrConflict)
      else if input.planHash != a.planHash || input.contextHash != a.contextHash || input.head != a.currentHead
              || input.lane != a.routeLane || a.routeAction != Dispatch || a.planAction != a.routeAction
              || a.planRole != a.routeRole || a.planLane == BLANK || a.planLane != a.routeLane
              || a.planHead != a.currentHead || a.planContext != a.contextHash
      then Err(ErrConflict)
      else
        var b := Resolve(v.binding, a.planLane);
        if b.NotReady? then Err(ErrUnavailable)
        else if b.bindingId != input.bindingId || b.bindingVersion != input.bindingVersion || b.presence != input.presence
        then Err(ErrConflict)
        else Ok(Command(
                  id,
                  Frozen(project, issue, input.key, input.planId, a.planHash, a.contextHash, a.planPrompt, Hash(a.planPrompt),
                         a.planAction, a.planRole, a.planLane, a.currentHead, b.bindingId, b.bindingVersion, b.worker,
                         b.session, b.presence, b.target, v.now, v.now + ttl),
                  Pending, None, None, "", ""))
  }

  function CreateTx(t: Table, project: nat, issue: nat, input: Confirmation, v: View, ttl: nat): (Table, Result<Command>) {
    match FindKey(t.rows, project, issue, input.key, 0)
    case Some(i) =>
      (t, if ExistingFingerprint(t.rows[i]) == ConfirmationFingerprint(input) then Ok(t.rows[i]) else Err(ErrConflict))
    case None =>
      match Authorize(|t.rows| + 1, project, issue, input, v, ttl)
      case Err(e) => (t, Err(e))
      case Ok(c) => (t.(rows := t.rows + [c]), Ok(c))
  }

  /** Is the frozen authority of a pending command still the current one? `None` means yes. */
  function Stale(c: Command, v: View): Option<Error> {
    var f := c.frozen;
    if v.authority.None? then Some(ErrOther)
    else
      var a := v.authority.value;
      if !a.planPresent || !a.planValid || a.planHash != f.planHash || a.planAction != f.action || a.planRole != f.role
         || a.planLane != f.lane || a.planHead != f.head || a.planContext != f.contextHash || a.contextHash != f.contextHash
         || a.currentHead != f.head || a.routeAction != f.action || a.routeRole != f.role || a.routeLane != f.lane
      then Some(ErrConflict)
      else
        var b := Resolve(v.binding, f.lane);
        if b.NotReady? then Some(ErrUnavailable)
        else if b.bindingId != f.bindingId || b.bindingVersion != f.bindingVersion || b.worker != f.worker
                || b.session != f.session || b.target != f.target || b.presence != f.presence
        then Some(ErrConflict)
        else None
  }

  datatype Verdict = Passed | Stopped(error: Error) | Won(command: Command) | Duplicate

  /** The transaction ClaimNext runs for one candidate. */
  function ClaimTx(t: Table, id: Id, req: ClaimRequest, v: View, ttl: nat): (Table, Verdict) {
    if !Has(t, id) || Row(t, id).status != Pending || Row(t, id).id != id then (t, Passed)
    else
      var c := Row(t, id);
      if v.now >= c.frozen.expiresAt then (Store(t, Finish(c, Expired, v.now, "expired", "")), Passed)
      else
        match Stale(c, v)
        case Some(e) =>
          if e == ErrConflict || e == ErrUnavailable
          then (Store(t, Finish(c, Invalidated, v.now, "stale_authority", "")), Passed)
          else (t, Stopped(e))
        case None =>
          if req.worker != c.frozen.worker || req.session != c.frozen.session then (t, Stopped(ErrConflict))
          else if FindRequest(t.rows, req.worker, req.request, 0).Some? then (t, Duplicate)
          else
            var won := c.(status := Claimed, claim := Some(Claim(t.claims + 1, req.request, v.now, v.now + ttl)));
            (Store(t, won).(claims := t.claims + 1), Won(won))
  }

  /** What a claim request gets when its identifier is already recorded on a row. */
  function Replay(c: Command, req: ClaimRequest): Result<Option<Command>> {
    if c.frozen.session != req.session || c.status != Claimed then Err(ErrConflict) else Ok(Some(c))
  }

  /** The candidate loop of ClaimNext; `views[i]` is what the i-th candidate's transaction reads. */
  function ClaimLoop(t: Table, ids: seq<Id>, req: ClaimRequest, views: nat -> View, ttl: nat, from: nat): (Table, Result<Option<Command>>)
    requires from <= |ids|
    decreases |ids| - from
  {
    if from == |ids| then (t, Ok(None))
    else
      var (u, verdict) := ClaimTx(t, ids[from], req, views(from), ttl);
      match verdict
      case Won(c) => (u, Ok(Some(c)))
      case Stopped(e) => (u, Err(e))
      case Duplicate =>
        (u, match FindRequest(u.rows, req.worker, req.request, 0)
            case None => Err(ErrOther)
            case Some(i) => Replay(u.rows[i], req))
      case Passed => ClaimLoop(u, ids, req, views, ttl, from + 1)
  }

  function ClaimNextTx(t: Table, req: ClaimRequest, views: nat -> View, ttl: nat): (Table, Result<Option<Command>>) {
    match FindRequest(t.rows, req.worker, req.request, 0)
    case Some(i) => (t, Replay(t.rows[i], req))
    case None => ClaimLoop(t, Candidates(t.rows, req.worker, 0), req, views, ttl, 0)
  }

  predicate WellFormed(k: Completion) {
    (k.outcome == Delivered || k.outcome == Failed || k.outcome == Uncertain) && k.command != BLANK && k.claim != BLANK
    && |k.reason| <= 256 && |k.evidence| <= 4096
  }

  function CompleteTx(t: Table, k: Completion, now: nat): (Table, Result<Command>) {
    if !WellFormed(k) then (t, Err(ErrInvalid))
    else if !Has(t, k.command) || Row(t, k.command).id != k.command then (t, Err(ErrNotFound))
    else
      var c := Row(t, k.command);
      if c.claim.None? || c.claim.value.id != k.claim then (t, Err(ErrConflict))
      else if c.status == k.outcome && c.reason == k.reason && c.evidence == k.evidence then (t, Ok(c))
      else if c.status != Claimed then (t, Err(ErrConflict))
      else if now >= c.claim.value.deadline
      then (Store(t, Finish(c, Uncertain, now, "claim_ack_deadline", "")), Err(ErrConflict))
      else
        var done := Finish(c, k.outcome, now, k.reason, k.evidence);
        (Store(t, done), Ok(done))
  }

  function ReconcileRow(c: Command, now: nat): Command {
    if c.status == Pending && c.frozen.expiresAt <= now
    then c.(status := Expired, terminalAt := Some(now), reason := "expired")
    else if c.status == Claimed && c.claim.Some? && c.claim.value.deadline <= now
    then c.(status := Uncertain, terminalAt := Some(now), reason := "claim_ack_deadline")
    else c
  }

  function ReconcileTx(t: Table, now: nat): Table {
    t.(rows := seq(|t.rows|, i requires 0 <= i < |t.rows| => ReconcileRow(t.rows[i], now)))
  }

  function CancelTx(t: Table, id: Id, now: nat): (Table, Result<Command>) {
    if id == BLANK then (t, Err(ErrInvalid))
    else if !Has(t, id) || Row(t, id).id != id then (t, Err(ErrNotFound))
    else if Row(t, id).status != Pending then (t, Err(ErrConflict))
    else
      var done := Finish(Row(t, id), Cancelled, now, "cancelled", "");
      (Store(t, done), Ok(done))
  }

  /** DeliveryCoordinator.invalidatePendingDelivery: a guarded update that ignores rows no longer pending. */
  function InvalidateTx(t: Table, id: Id, now: nat, reason: string): Table {
    if Has(t, id) && Row(t, id).id == id && Row(t, id).status == Pending
    then Store(t, Row(t, id).(status := Invalidated, terminalAt := Some(now), reason := reason))
    else t
  }

  // ---------------------------------------------------------------- invariant

  ghost predicate RowOk(c: Command, id: Id, claims: nat) {
    && c.id == id
    && (c.status in {Pending, Cancelled, Expired, Invalidated} <==> c.claim.None?)
    && (c.claim.Some? ==> 1 <= c.claim.value.id <= claims)
  }

  /** Two rows differ in key, in claim identifier, and in claim request within a worker. */
  ghost predicate Apart(c: Command, d: Command) {
    && !(c.frozen.project == d.frozen.project && c.frozen.issue == d.frozen.issue && c.frozen.key == d.frozen.key)
    && (c.claim.Some? && d.claim.Some? ==>
          && c.claim.value.id != d.claim.value.id
          && !(c.frozen.worker == d.frozen.worker && c.claim.value.request == d.claim.value.request))
  }

  ghost predicate Inv(t: Table) {
    && (forall i {:trigger t.rows[i]} :: 0 <= i < |t.rows| ==> RowOk(t.rows[i], i + 1, t.claims))
    && (forall i, j {:trigger t.rows[i], t.rows[j]} :: 0 <= i < j < |t.rows| ==> Apart(t.rows[i], t.rows[j]))
  }

  // ---------------------------------------------------------------- runs

  /** One committed transaction of the service, with what it read. */
  datatype Tx =
    | Create(project: nat, issue: nat, input: Confirmation, view: View, ttl: nat)
    | ClaimOne(id: Id, req: ClaimRequest, view: View, ttl: nat)
    | Complete(completion: Completion, now: nat)
    | Reconcile(now: nat)
    | Cancel(id: Id, now: nat)
    | Invalidate(id: Id, now: nat, reason: string)

  function Apply(t: Table, tx: Tx): Table {
    match tx
    case Create(p, i, input, v, ttl) => CreateTx(t, p, i, input, v, ttl).0
    case ClaimOne(id, req, v, ttl) => ClaimTx(t, id, req, v, ttl).0
    case Complete(k, now) => CompleteTx(t, k, now).0
    case Reconcile(now) => ReconcileTx(t, now)
    case Cancel(id, now) => CancelTx(t, id, now).0
    case Invalidate(id, now, reason) => InvalidateTx(t, id, now, reason)
  }

  function Run(t: Table, txs: seq<Tx>): Table
    decreases |txs|
  {
    if txs == [] then t else Run(Apply(t, txs[0]), txs[1..])
  }

  /** How far a row has moved; every status change climbs. */
  function Rank(s: Status): nat {
    match s
    case Pending => 0
    case Claimed => 1
    case _ => 2
  }

  /** What one row may become over any number of transactions. */
  ghost predicate RowEvolves(c: Command, d: Command) {
    && d.id == c.id && d.frozen == c.frozen
    && (c.claim.Some? ==> d.claim == c.claim)
    && (d.status == c.status || Rank(c.status) < Rank(d.status))
    && (Rank(c.status) == 2 ==> d == c)
  }

  ghost predicate Evolves(t: Table, u: Table) {
    && |t.rows| <= |u.rows| && t.claims <= u.claims
    && (forall i {:trigger t.rows[i]} {:trigger u.rows[i]} :: 0 <= i < |t.rows| ==> RowEvolves(t.rows[i], u.rows[i]))
  }

  /** Rewriting one row forward, without a clash, keeps the invariant. */
  lemma StoreSafe(t: Table, c: Command, claims: nat)
    requires Inv(t) && Has(t, c.id) && t.claims <= claims
    requires RowEvolves(Row(t, c.id), c) && RowOk(c, c.id, claims)
    requires forall j {:trigger t.rows[j]} :: 0 <= j < |t.rows| && j != c.id - 1 ==> Apart(c, t.rows[j])
    ensures Inv(Store(t, c).(claims := claims))
    ensures Evolves(t, Store(t, c).(claims := claims))
  {
    var u := Store(t, c).(claims := claims);
    assert forall j :: 0 <= j < |t.rows| && j != c.id - 1 ==> u.rows[j] == t.rows[j];
  }

  /** A row that only changes status, stamps and outcome never clashes. */
  lemma FinishSafe(t: Table, c: Command)
    requires Inv(t) && Has(t, c.id)
    requires RowEvolves(Row(t, c.id), c) && RowOk(c, c.id, t.claims) && c.claim == Row(t, c.id).claim
    ensures Inv(Store(t, c))
    ensures Evolves(t, Store(t, c))
  {
    var was := Row(t, c.id);
    forall j | 0 <= j < |t.rows| && j != c.id - 1
      ensures Apart(c, t.rows[j])
    {
      if j < c.id - 1 { assert Apart(t.rows[j], was); } else { assert Apart(was, t.rows[j]); }
    }
    StoreSafe(t, c, t.claims);
  }

  /** A won claim gets an identifier and a request no other row carries. */
  lemma ClaimSafe(t: Table, id: Id, req: ClaimRequest, v: View, ttl: nat)
    requires Inv(t)
    ensures Inv(ClaimTx(t, id, req, v, ttl).0)
    ensures Evolves(t, ClaimTx(t, id, req, v, ttl).0)
  {
    var (u, verdict) := ClaimTx(t, id, req, v, ttl);
    if verdict.Won? {
      var was, c := Row(t, id), verdict.command;
      forall j | 0 <= j < |t.rows| && j != id - 1
        ensures Apart(c, t.rows[j])
      {
        if j < id - 1 { assert Apart(t.rows[j], was); } else { assert Apart(was, t.rows[j]); }
        assert !RequestedBy(t.rows[j], req.worker, req.request);
      }
      StoreSafe(t, c, t.claims + 1);
    } else if u != t {
      FinishSafe(t, Row(u, id));
    }
  }

  lemma ReconcileSafe(t: Table, now: nat)
    requires Inv(t)
    ensures Inv(ReconcileTx(t, now))
    ensures Evolves(t, ReconcileTx(t, now))
  {
    var u := ReconcileTx(t, now);
    forall i, j | 0 <= i < j < |t.rows|
      ensures Apart(u.rows[i], u.rows[j])
    {
      assert Apart(t.rows[i], t.rows[j]);
    }
  }

  lemma CreateSafe(t: Table, project: nat, issue: nat, input: Confirmation, v: View, ttl: nat)
    requires Inv(t)
    ensures Inv(CreateTx(t, project, issue, input, v, ttl).0)
    ensures Evolves(t, CreateTx(t, project, issue, input, v, ttl).0)
  {
    hide ExistingFingerprint, ConfirmationFingerprint;
    var u := CreateTx(t, project, issue, input, v, ttl).0;
    if |u.rows| > |t.rows| {
      assert u.rows[..|t.rows|] == t.rows;
    }
  }

  /** The transactions that finish a single row. */
  lemma FinishingSafe(t: Table, tx: Tx)
    requires Inv(t) && (tx.Complete? || tx.Cancel? || tx.Invalidate?)
    ensures Inv(Apply(t, tx)) && Evolves(t, Apply(t, tx))
  {
    hide Inv, Evolves, CreateTx, ClaimTx, ReconcileTx;
    EvolvesSelf(t);
    var id := match tx case Complete(k, _) => k.command case Cancel(id, _) => id case Invalidate(id, _, _) => id case _ => 0;
    if Apply(t, tx) != t {
      RowIsOk(t, id);
      FinishSafe(t, Row(Apply(t, tx), id));
    }
  }

  lemma EvolvesSelf(t: Table)
    ensures Evolves(t, t)
  {
  }

  lemma RowIsOk(t: Table, id: Id)
    requires Inv(t) && Has(t, id)
    ensures RowOk(Row(t, id), id, t.claims)
  {
  }

  /** One transaction keeps the table invariant and moves every row only forward. */
  lemma ApplySafe(t: Table, tx: Tx)
    requires Inv(t)
    ensures Inv(Apply(t, tx))
    ensures Evolves(t, Apply(t, tx))
  {
    hide Inv, Evolves, CreateTx, ClaimTx, ReconcileTx, CompleteTx, CancelTx, InvalidateTx;
    match tx
    case Create(p, i, input, v, ttl) => CreateSafe(t, p, i, input, v, ttl);
    case ClaimOne(id, req, v, ttl) => ClaimSafe(t, id, req, v, ttl);
    case Reconcile(now) => ReconcileSafe(t, now);
    case _ => FinishingSafe(t, tx);
  }

  lemma EvolvesTransitive(t: Table, u: Table, w: Table)
    requires Evolves(t, u) && Evolves(u, w)
    ensures Evolves(t, w)
  {
    forall i | 0 <= i < |t.rows|
      ensures RowEvolves(t.rows[i], w.rows[i])
    {
      assert RowEvolves(t.rows[i], u.rows[i]);
      assert RowEvolves(u.rows[i], w.rows[i]);
    }
  }

  /** Over any run: rows are never removed, a command keeps its frozen fields and its only claim, no status goes back. */
  lemma {:induction false} RunSafe(t: Table, txs: seq<Tx>)
    requires Inv(t)
    ensures Inv(Run(t, txs))
    ensures Evolves(t, Run(t, txs))
    decreases |txs|
  {
    if txs != [] {
      var u := Apply(t, txs[0]);
      ApplySafe(t, txs[0]);
      RunSafe(u, txs[1..]);
      EvolvesTransitive(t, u, Run(t, txs));
    }
  }

  const EMPTY := Table([], 0)

  // ---------------------------------------------------------------- idempotent confirmation

  /** The fingerprint rebuilt from an authorised command is the confirmation's own. */
  lemma AuthorizedFingerprint(id: Id, project: nat, issue: nat, input: Confirmation, v: View, ttl: nat)
    requires Authorize(id, project, issue, input, v, ttl).Ok?
    ensures var c := Authorize(id, project, issue, input, v, ttl).value;
            ExistingFingerprint(c) == ConfirmationFingerprint(input) && KeyedBy(c, project, issue, input.key)
  {
  }

  lemma FindKeyUnique(t: Table, project: nat, issue: nat, key: Id, i: nat)
    requires Inv(t) && i < |t.rows| && KeyedBy(t.rows[i], project, issue, key)
    ensures FindKey(t.rows, project, issue, key, 0) == Some(i)
  {
    var found := FindKey(t.rows, project, issue, key, 0);
    assert KeyedBy(t.rows[found.value], project, issue, key);
  }

  /**
   Once a confirmation has been accepted, any later confirmation under its key, after any further transactions and
   whatever the authority has become, writes nothing: an identical one gets that command in its current status, a
   different one is refused.
   */
  lemma CreateIsIdempotent(t: Table, project: nat, issue: nat, input: Confirmation, v: View, ttl: nat,
                           txs: seq<Tx>, again: Confirmation, v': View, ttl': nat)
    requires Inv(t)
    requires CreateTx(t, project, issue, input, v, ttl).1.Ok?
    requires again.key == input.key
    ensures var (u, created) := CreateTx(t, project, issue, input, v, ttl);
            var w := Run(u, txs);
            && Has(w, created.value.id) && Row(w, created.value.id).frozen == created.value.frozen
            && CreateTx(w, project, issue, again, v', ttl')
               == (w, if again == input then Ok(Row(w, created.value.id)) else Err(ErrConflict))
  {
    var (u, created) := CreateTx(t, project, issue, input, v, ttl);
    var c := created.value;
    ApplySafe(t, Create(project, issue, input, v, ttl));
    RunSafe(u, txs);
    var found := FindKey(t.rows, project, issue, input.key, 0);
    if found.None? {
      AuthorizedFingerprint(|t.rows| + 1, project, issue, input, v, ttl);
    }
    assert Has(u, c.id) && Row(u, c.id) == c;
    assert RowEvolves(c, Row(Run(u, txs), c.id));
    FindKeyUnique(Run(u, txs), project, issue, input.key, c.id - 1);
  }

  // ---------------------------------------------------------------- claiming

  predicate OnlyClaimsBy(txs: seq<Tx>, req: ClaimRequest) {
    forall i :: 0 <= i < |txs| ==> txs[i].ClaimOne? && txs[i].req == req
  }

  /** The candidate loop is nothing but a sequence of single-candidate transactions of its own request. */
  lemma {:induction false} ClaimLoopIsRun(t: Table, ids: seq<Id>, req: ClaimRequest, views: nat -> View, ttl: nat, from: nat)
    returns (txs: seq<Tx>)
    requires from <= |ids|
    ensures OnlyClaimsBy(txs, req)
    ensures Run(t, txs) == ClaimLoop(t, ids, req, views, ttl, from).0
    decreases |ids| - from
  {
    if from == |ids| {
      txs := [];
    } else {
      var tx := ClaimOne(ids[from], req, views(from), ttl);
      var rest: seq<Tx> := [];
      if ClaimTx(t, ids[from], req, views(from), ttl).1.Passed? {
        rest := ClaimLoopIsRun(Apply(t, tx), ids, req, views, ttl, from + 1);
      } else {
        assert Run(Apply(t, tx), []) == Apply(t, tx);
      }
      txs := [tx] + rest;
      assert txs[1..] == rest;
    }
  }

  /** What an execution handed to a worker says about the table it leaves behind. */
  ghost predicate Granted(u: Table, req: ClaimRequest, c: Command) {
    && Has(u, c.id) && Row(u, c.id) == c && c.status == Claimed && c.claim.Some?
    && c.frozen.worker == req.worker && c.frozen.session == req.session && c.claim.value.request == req.request
  }

  /** A claim is granted only on a pending, unexpired row whose frozen authority and binding are current at that instant. */
  lemma WonIsCurrent(t: Table, id: Id, req: ClaimRequest, v: View, ttl: nat)
    requires Inv(t) && ClaimTx(t, id, req, v, ttl).1.Won?
    ensures var (u, verdict) := ClaimTx(t, id, req, v, ttl);
            && Granted(u, req, verdict.command) && verdict.command.id == id
            && Has(t, id) && Row(t, id).status == Pending && Row(t, id).frozen == verdict.command.frozen
            && v.now < verdict.command.frozen.expiresAt && Stale(Row(t, id), v).None?
            && verdict.command.claim == Some(Claim(t.claims + 1, req.request, v.now, v.now + ttl))
  {
    assert RowOk(t.rows[id - 1], id, t.claims);
  }

  lemma {:induction false} ClaimLoopGrants(t: Table, ids: seq<Id>, req: ClaimRequest, views: nat -> View, ttl: nat, from: nat)
    requires Inv(t) && from <= |ids|
    ensures var (u, r) := ClaimLoop(t, ids, req, views, ttl, from);
            r.Ok? && r.value.Some? ==> Granted(u, req, r.value.value)
    decreases |ids| - from
  {
    if from < |ids| {
      var (u, verdict) := ClaimTx(t, ids[from], req, views(from), ttl);
      ClaimSafe(t, ids[from], req, views(from), ttl);
      match verdict
      case Won(_) => WonIsCurrent(t, ids[from], req, views(from), ttl);
      case Passed => ClaimLoopGrants(u, ids, req, views, ttl, from + 1);
      case Duplicate =>
        var found := FindRequest(u.rows, req.worker, req.request, 0);
        if found.Some? { assert RowOk(u.rows[found.value], found.value + 1, u.claims); }
      case Stopped(_) =>
    }
  }

  /** Whatever ClaimNext hands out is a claimed row of this worker, session and request. */
  lemma ClaimNextGrants(t: Table, req: ClaimRequest, views: nat -> View, ttl: nat)
    requires Inv(t)
    ensures var (u, r) := ClaimNextTx(t, req, views, ttl);
            r.Ok? && r.value.Some? ==> Granted(u, req, r.value.value)
  {
    match FindRequest(t.rows, req.worker, req.request, 0)
    case Some(i) => assert RowOk(t.rows[i], i + 1, t.claims);
    case None => ClaimLoopGrants(t, Candidates(t.rows, req.worker, 0), req, views, ttl, 0);
  }

  /** A row that waited was passed over only because it was expired or no longer current. */
  predicate PassedOver(c: Command) {
    c.status == Expired || c.status == Invalidated
  }

  /** What the transaction of one candidate does: wins it, passes it over, or leaves the table alone. */
  lemma ClaimTxRows(t: Table, id: Id, req: ClaimRequest, v: View, ttl: nat)
    requires Inv(t) && Has(t, id) && Row(t, id).status == Pending
    ensures var (u, verdict) := ClaimTx(t, id, req, v, ttl);
            && |u.rows| == |t.rows| && u.claims == t.claims + (if verdict.Won? then 1 else 0)
            && (forall x: Id :: Has(t, x) && x != id ==> Row(u, x) == Row(t, x))
            && (verdict.Passed? ==> PassedOver(u.rows[id - 1]))
            && (verdict.Won? ==> u.rows[id - 1] == verdict.command && verdict.command.id == id && verdict.command.status == Claimed)
            && (verdict.Stopped? || verdict.Duplicate? ==> u == t)
  {
    RowIsOk(t, id);
  }

  /** Was `w` the first waiting row after `lo` that was neither expired nor out of date, and was it handed out? */
  ghost predicate Served(t: Table, worker: Id, lo: Id, u: Table, r: Result<Option<Command>>, w: Id)
    requires |u.rows| == |t.rows|
  {
    && Has(t, w) && lo < w && Waits(Row(t, w), worker) && r == Ok(Some(Row(u, w))) && Row(u, w).status == Claimed
    && (forall id: Id :: Has(t, id) && lo < id < w && Waits(Row(t, id), worker) ==> PassedOver(Row(u, id)))
    && (forall id: Id :: Has(t, id) && w < id ==> Row(u, id) == Row(t, id))
  }

  /** What a pass over the waiting rows after `lo` leaves behind. */
  ghost predicate Swept(t: Table, worker: Id, lo: Id, u: Table, r: Result<Option<Command>>) {
    && |u.rows| == |t.rows|
    && (forall id: Id :: Has(t, id) && (id <= lo || !Waits(Row(t, id), worker)) ==> Row(u, id) == Row(t, id))
    && (r == Ok(None) ==> forall id: Id :: Has(t, id) && lo < id && Waits(Row(t, id), worker) ==> PassedOver(Row(u, id)))
    && (u.claims != t.claims ==> exists w: Id :: Served(t, worker, lo, u, r, w))
  }

  /** One more row passed over, and the pass goes on after it. */
  lemma SweptNext(t: Table, m: Table, worker: Id, lo: Id, next: Id, u: Table, r: Result<Option<Command>>)
    requires Has(t, next) && lo < next && Waits(Row(t, next), worker)
    requires forall id: Id :: Has(t, id) && lo < id < next ==> !Waits(Row(t, id), worker)
    requires |m.rows| == |t.rows| && m.claims == t.claims && PassedOver(Row(m, next))
    requires forall id: Id :: Has(t, id) && id != next ==> Row(m, id) == Row(t, id)
    requires Swept(m, worker, next, u, r)
    ensures Swept(t, worker, lo, u, r)
  {
    assert Row(u, next) == Row(m, next);
    if u.claims != t.claims {
      var w: Id :| Served(m, worker, next, u, r, w);
      assert Served(t, worker, lo, u, r, w);
    }
  }

  /** The candidates from `from` on are the rows that wait after `lo`. */
  ghost predicate Ahead(t: Table, worker: Id, ids: seq<Id>, from: nat, lo: Id) {
    && from <= |ids| && (forall i, j :: from <= i < j < |ids| ==> ids[i] < ids[j])
    && (forall i :: from <= i < |ids| ==> Has(t, ids[i]) && lo < ids[i] && Waits(Row(t, ids[i]), worker))
    && (forall id: Id :: Has(t, id) && lo < id && Waits(Row(t, id), worker) ==> id in ids[from..])
  }

  lemma AheadHere(t: Table, worker: Id, ids: seq<Id>, from: nat, lo: Id)
    requires Ahead(t, worker, ids, from, lo) && from < |ids|
    ensures Has(t, ids[from]) && lo < ids[from] && Waits(Row(t, ids[from]), worker) && Row(t, ids[from]).status == Pending
  {
  }

  lemma AheadNext(t: Table, m: Table, worker: Id, ids: seq<Id>, from: nat, lo: Id)
    requires Ahead(t, worker, ids, from, lo) && from < |ids| && |m.rows| == |t.rows|
    requires forall id: Id :: Has(t, id) && id != ids[from] ==> Row(m, id) == Row(t, id)
    ensures Ahead(m, worker, ids, from + 1, ids[from])
    ensures forall id: Id :: Has(t, id) && lo < id < ids[from] ==> !Waits(Row(t, id), worker)
  {
    assert ids[from..] == [ids[from]] + ids[from + 1..];
  }

  lemma {:induction false} ClaimLoopSweeps(t: Table, ids: seq<Id>, req: ClaimRequest, views: nat -> View, ttl: nat, from: nat, lo: Id)
    requires Inv(t) && from <= |ids| && Ahead(t, req.worker, ids, from, lo)
    ensures var (u, r) := ClaimLoop(t, ids, req, views, ttl, from); Swept(t, req.worker, lo, u, r)
    decreases |ids| - from
  {
    hide Inv, ClaimTx, FindRequest, Swept, Served, Waits, Ahead;
    if from == |ids| {
      SweptNone(t, req.worker, ids, from, lo);
    } else {
      var id := ids[from];
      AheadHere(t, req.worker, ids, from, lo);
      var (m, verdict) := ClaimTx(t, id, req, views(from), ttl);
      ClaimTxRows(t, id, req, views(from), ttl);
      AheadNext(t, m, req.worker, ids, from, lo);
      var (u, r) := ClaimLoop(t, ids, req, views, ttl, from);
      if verdict.Passed? {
        ClaimSafe(t, id, req, views(from), ttl);
        ClaimLoopSweeps(m, ids, req, views, ttl, from + 1, id);
        hide ClaimLoop;
        SweptNext(t, m, req.worker, lo, id, u, r);
      } else {
        SweptHere(t, u, r, req.worker, lo, id, verdict);
      }
    }
  }

  lemma SweptNone(t: Table, worker: Id, ids: seq<Id>, from: nat, lo: Id)
    requires Ahead(t, worker, ids, from, lo) && from == |ids|
    ensures Swept(t, worker, lo, t, Ok(None))
  {
  }

  lemma SweptHere(t: Table, u: Table, r: Result<Option<Command>>, worker: Id, lo: Id, id: Id, verdict: Verdict)
    requires Has(t, id) && lo < id && Waits(Row(t, id), worker) && |u.rows| == |t.rows|
    requires forall x: Id :: Has(t, x) && lo < x < id ==> !Waits(Row(t, x), worker)
    requires forall x: Id :: Has(t, x) && x != id ==> Row(u, x) == Row(t, x)
    requires (verdict.Won? && Row(u, id) == verdict.command && verdict.command.status == Claimed && r == Ok(Some(verdict.command)))
             || (u == t && r != Ok(None))
    ensures Swept(t, worker, lo, u, r)
  {
    if verdict.Won? && u.claims != t.claims { assert Served(t, worker, lo, u, r, id); }
  }

  /**
   A poll serves the oldest row first. When a new claim is handed out, every older row of the worker that waited was
   found expired or not current, and every younger one still waits; when a poll is answered with nothing, no row of the
   worker waits any more, and every one that did was found expired or not current.
   */
  lemma OldestFirst(t: Table, req: ClaimRequest, views: nat -> View, ttl: nat)
    requires Inv(t)
    ensures var (u, r) := ClaimNextTx(t, req, views, ttl);
            && |u.rows| == |t.rows|
            && (u.claims != t.claims ==>
                  exists w: Id :: Has(t, w) && Waits(Row(t, w), req.worker) && r == Ok(Some(Row(u, w)))
                    && Row(u, w).status == Claimed
                    && (forall id: Id :: Has(t, id) && id < w && Waits(Row(t, id), req.worker) ==> PassedOver(Row(u, id)))
                    && (forall id: Id :: Has(t, id) && w < id ==> Row(u, id) == Row(t, id)))
            && (r == Ok(None) ==> forall id: Id :: Has(t, id) && Waits(Row(t, id), req.worker) ==> PassedOver(Row(u, id)))
            && (forall id: Id :: Has(t, id) && !Waits(Row(t, id), req.worker) ==> Row(u, id) == Row(t, id))
  {
    hide Inv, FindRequest, ClaimLoop, Replay, Candidates;
    if FindRequest(t.rows, req.worker, req.request, 0).None? {
      var ids := Candidates(t.rows, req.worker, 0);
      assert ids[0..] == ids && forall i :: 0 <= i < |ids| ==> ids[i] in ids;
      ClaimLoopSweeps(t, ids, req, views, ttl, 0, 0);
      var (u, r) := ClaimNextTx(t, req, views, ttl);
      if u.claims != t.claims {
        var w: Id :| Served(t, req.worker, 0, u, r, w);
      }
    } else {
      ReplayIsSome(t.rows[FindRequest(t.rows, req.worker, req.request, 0).value], req);
    }
  }

  lemma ReplayIsSome(c: Command, req: ClaimRequest)
    ensures Replay(c, req) != Ok(None)
  {
  }

  /**
   A claim request retried after its claim, however much later: the same claim while the row is still claimed, a
   conflict once it is not; never a second command.
   */
  lemma ClaimRetry(t: Table, req: ClaimRequest, c: Command, txs: seq<Tx>, views: nat -> View, ttl: nat)
    requires Inv(t) && Granted(t, req, c)
    ensures var w := Run(t, txs);
            && Has(w, c.id) && Row(w, c.id).claim == c.claim
            && ClaimNextTx(w, req, views, ttl)
               == (w, if Row(w, c.id).status == Claimed then Ok(Some(Row(w, c.id))) else Err(ErrConflict))
  {
    RunSafe(t, txs);
    var w := Run(t, txs);
    assert RowEvolves(t.rows[c.id - 1], w.rows[c.id - 1]);
    var found := FindRequest(w.rows, req.worker, req.request, 0);
    assert RequestedBy(w.rows[c.id - 1], req.worker, req.request);
    assert RequestedBy(w.rows[found.value], req.worker, req.request);
  }

  /** A claim does get through: a current, unexpired row of the requesting session is won and can be completed. */
  lemma ClaimIsReachable(c: Command, v: View, ttl: nat)
    requires c.id == 1 && c.status == Pending && c.claim.None? && v.now < c.frozen.expiresAt && Stale(c, v).None? && ttl > 0
    ensures var req := ClaimRequest(c.frozen.worker, c.frozen.session, 7);
            var (u, r) := ClaimNextTx(Table([c], 0), req, _ => v, ttl);
            && r.Ok? && r.value.Some? && Granted(u, req, r.value.value)
            && CompleteTx(u, Completion(1, 1, Delivered, "sent", ""), v.now).1.Ok?
  {
    var t := Table([c], 0);
    var req := ClaimRequest(c.frozen.worker, c.frozen.session, 7);
    assert FindRequest(t.rows, req.worker, req.request, 1).None?;
    assert FindRequest(t.rows, req.worker, req.request, 0).None?;
    assert Candidates(t.rows, req.worker, 1) == [];
    assert Candidates(t.rows, req.worker, 0) == [1];
    assert Stale(Row(t, 1), v).None?;
  }

  // ---------------------------------------------------------------- completion

  /**
   A completion that is answered with success or with a conflict leaves its command no longer claimed under that
   claim; this is what makes an extension's acknowledgement safe.
   */
  lemma CompletionSettles(t: Table, k: Completion, now: nat)
    requires Inv(t) && WellFormed(k)
    requires Has(t, k.command) && Row(t, k.command).claim.Some? && Row(t, k.command).claim.value.id == k.claim
    ensures var (u, r) := CompleteTx(t, k, now);
            && (r.Ok? || r == Err(ErrConflict))
            && Rank(Row(u, k.command).status) == 2
            && (Row(t, k.command).status == Claimed ==>
                  Row(u, k.command).status == if now < Row(t, k.command).claim.value.deadline then k.outcome else Uncertain)
  {
    assert RowOk(t.rows[k.command - 1], k.command, t.claims);
  }

  // ---------------------------------------------------------------- the service

  class DeliveryService {
    const enabled: bool
    const pendingTTL: nat
    const claimTTL: nat
    var rows: seq<Command>
    var claims: nat

    ghost function State(): Table
      reads this
    {
      Table(rows, claims)
    }

    constructor (enabled: bool, pendingTTL: nat, claimTTL: nat)
      ensures State() == EMPTY && this.enabled == enabled
      ensures this.pendingTTL == (if pendingTTL == 0 then 300 else pendingTTL)
      ensures this.claimTTL == (if claimTTL == 0 then 60 else claimTTL)
    {
      this.enabled := enabled;
      this.pendingTTL := if pendingTTL == 0 then 300 else pendingTTL;
      this.claimTTL := if claimTTL == 0 then 60 else claimTTL;
      rows, claims := [], 0;
    }

    method CreateCommand(project: nat, issue: nat, input: Confirmation, v: View) returns (r: Result<Command>)
      requires Inv(State())
      modifies this
      ensures Inv(State()) && Evolves(old(State()), State())
      ensures !enabled ==> r == Err(ErrUnavailable) && State() == old(State())
      ensures enabled && (project == 0 || issue == 0 || input.planId == BLANK || input.key == BLANK) ==>
                r == Err(ErrInvalid) && State() == old(State())
      ensures enabled && project > 0 && issue > 0 && input.planId != BLANK && input.key != BLANK ==>
                (State(), r) == CreateTx(old(State()), project, issue, input, v, pendingTTL)
    {
      if !enabled { return Err(ErrUnavailable); }
      if project == 0 || issue == 0 || input.planId == BLANK || input.key == BLANK { return Err(ErrInvalid); }
      ghost var was := State();
      ApplySafe(was, Create(project, issue, input, v, pendingTTL));
      var i := FindKey(rows, project, issue, input.key, 0);
      if i.Some? {
        if ExistingFingerprint(rows[i.value]) != ConfirmationFingerprint(input) { return Err(ErrConflict); }
        return Ok(rows[i.value]);
      }
      r := Authorize(|rows| + 1, project, issue, input, v, pendingTTL);
      if r.Ok? {
        rows := rows + [r.value];
      }
    }

    /** `views[i]` is what the transaction of the i-th pending row reads: authority may change between them. */
    method ClaimNext(req: ClaimRequest, views: nat -> View) returns (r: Result<Option<Command>>)
      requires Inv(State())
      modifies this
      ensures Inv(State()) && Evolves(old(State()), State())
      ensures !enabled ==> r == Err(ErrUnavailable) && State() == old(State())
      ensures enabled && (req.worker == BLANK || req.session == BLANK || req.request == BLANK) ==>
                r == Err(ErrInvalid) && State() == old(State())
      ensures enabled && req.worker != BLANK && req.session != BLANK && req.request != BLANK ==>
                (State(), r) == ClaimNextTx(old(State()), req, views, claimTTL)
      ensures r.Ok? && r.value.Some? ==> Granted(State(), req, r.value.value)
    {
      if !enabled { return Err(ErrUnavailable); }
      if req.worker == BLANK || req.session == BLANK || req.request == BLANK { return Err(ErrInvalid); }
      ghost var was := State();
      ClaimNextGrants(was, req, views, claimTTL);
      var seen := FindRequest(rows, req.worker, req.request, 0);
      if seen.Some? {
        return Replay(rows[seen.value], req);
      }
      var ids := Candidates(rows, req.worker, 0);
      var i := 0;
      while i < |ids|
        invariant 0 <= i <= |ids|
        invariant Inv(State()) && Evolves(was, State())
        invariant ClaimLoop(State(), ids, req, views, claimTTL, i) == ClaimNextTx(was, req, views, claimTTL)
      {
        var v := views(i);
        ghost var before := State();
        var (u, verdict) := ClaimTx(Table(rows, claims), ids[i], req, v, claimTTL);
        ClaimSafe(before, ids[i], req, v, claimTTL);
        rows, claims := u.rows, u.claims;
        assert State() == u;
        EvolvesTransitive(was, before, u);
        match verdict {
          case Won(c) => return Ok(Some(c));
          case Stopped(e) => return Err(e);
          case Duplicate =>
            var existing := FindRequest(rows, req.worker, req.request, 0);
            if existing.None? { return Err(ErrOther); }
            return Replay(rows[existing.value], req);
          case Passed =>
        }
        i := i + 1;
      }
      return Ok(None);
    }

    method CompleteClaim(k: Completion, now: nat) returns (r: Result<Command>)
      requires Inv(State())
      modifies this
      ensures Inv(State()) && Evolves(old(State()), State())
      ensures (State(), r) == CompleteTx(old(State()), k, now)
    {
      hide Inv, Evolves, CreateTx, ClaimTx, CancelTx, ReconcileTx, InvalidateTx;
      ApplySafe(State(), Complete(k, now));
      if !WellFormed(k) { return Err(ErrInvalid); }
      if !(1 <= k.command <= |rows|) || rows[k.command - 1].id != k.command { return Err(ErrNotFound); }
      var c := rows[k.command - 1];
      if c.claim.None? || c.claim.value.id != k.claim { return Err(ErrConflict); }
      if c.status == k.outcome && c.reason == k.reason && c.evidence == k.evidence { return Ok(c); }
      if c.status != Claimed { return Err(ErrConflict); }
      if now >= c.claim.value.deadline {
        rows := rows[c.id - 1 := Finish(c, Uncertain, now, "claim_ack_deadline", "")];
        return Err(ErrConflict);
      }
      var done := Finish(c, k.outcome, now, k.reason, k.evidence);
      rows := rows[c.id - 1 := done];
      return Ok(done);
    }

    method ReconcileDeadlines(now: nat)
      requires Inv(State())
      modifies this
      ensures Inv(State()) && Evolves(old(State()), State())
      ensures State() == ReconcileTx(old(State()), now)
      ensures forall c :: c in rows && c.status == Pending ==> now < c.frozen.expiresAt
      ensures forall c :: c in rows && c.status == Claimed ==> now < c.claim.value.deadline
    {
      ghost var was := State();
      ReconcileSafe(was, now);
      var i := 0;
      while i < |rows|
        invariant 0 <= i <= |rows| == |was.rows| && claims == was.claims
        invariant forall j :: 0 <= j < i ==> rows[j] == ReconcileRow(was.rows[j], now)
        invariant forall j :: i <= j < |rows| ==> rows[j] == was.rows[j]
      {
        rows := rows[i := ReconcileRow(rows[i], now)];
        i := i + 1;
      }
      assert rows == ReconcileTx(was, now).rows;
      forall c | c in rows && c.status == Claimed
        ensures c.claim.Some?
      {
        var j :| 0 <= j < |rows| && rows[j] == c;
        assert RowOk(rows[j], j + 1, claims);
      }
    }

    method CancelCommand(id: Id, now: nat) returns (r: Result<Command>)
      requires Inv(State())
      modifies this
      ensures Inv(State()) && Evolves(old(State()), State())
      ensures (State(), r) == CancelTx(old(State()), id, now)
    {
      hide Inv, Evolves, CreateTx, ClaimTx, CompleteTx, ReconcileTx, InvalidateTx;
      ApplySafe(State(), Cancel(id, now));
      if id == BLANK { return Err(ErrInvalid); }
      if !(id <= |rows|) || rows[id - 1].id != id { return Err(ErrNotFound); }
      if rows[id - 1].status != Pending { return Err(ErrConflict); }
      var done := Finish(rows[id - 1], Cancelled, now, "cancelled", "");
      rows := rows[id - 1 := done];
      return Ok(done);
    }
  }
}

/**
 Worker results and the status of workflow commands (backend/internal/workerloop).

 Rows of results are keyed by project and comment; a command's status is a ranked machine that observations of GitHub,
 delivery callbacks and refreshes all drive through the same guarded update.
 */
module WorkerResults {
  import opened Prelude

  datatype Role = Lead | Implementor | QA | OtherRole(name: Id)

  datatype Outcome =
    | CandidateReady | Continue | Blocked | NoOp
    | Approved | ChangesRequired | BlockedInconclusive
    | Dispatch | Correct | ReadyToMerge | OwnerRequired | Hold
    | OtherOutcome(name: Id)

  datatype Status =
    | Created | DeliveryPending | AwaitingResult
    | Completed | Stopped | Inconclusive | Failed
    | Ambiguous | Superseded

  datatype Validation = Accepted | Malformed | Unsupported | Unbound | WrongRole | StaleHead | Disputed

  datatype Payload = Payload(
    version: int, role: Role, outcome: Outcome, command: Id, pr: int, head: string, reviewedHead: string, approvedHead: string,
    findings: Option<int>, blockerType: Id, reasonCode: Id, cycleEscalation: Id, nextRole: Role)

  /** The regular expressions and word lists of the protocol, taken as arbitrary. */
  datatype Patterns = Patterns(isCommand: Id -> bool, isSha: string -> bool, isReason: Id -> bool, isBlocker: Id -> bool, isCycle: Id -> bool)

  /** A comment's only live marker; `decoded` is false when its text is not one JSON payload. */
  datatype Marker = Marker(decoded: bool, payload: Payload)

  datatype Comment = Comment(issue: nat, id: nat, marker: Option<Marker>)

  /** A project's synced issues and, issue by issue, their comments. */
  datatype Snapshot = Snapshot(project: nat, issues: seq<nat>, comments: seq<Comment>)

  datatype Command = Command(
    id: Id, project: nat, issue: nat, identity: Id, role: Role, action: Id, profile: Id, context: Id, expectedHead: string, status: Status)

  datatype Row = Row(issue: nat, command: Id, payload: Payload, validation: Validation)

  type Commands = map<Id, Command>
  type Rows = map<(nat, nat), Row>

  datatype Store = Store(commands: Commands, rows: Rows)

  // ---------------------------------------------------------------- payloads

  predicate KnownRole(r: Role) {
    r == Lead || r == Implementor || r == QA
  }

  function ValidateImplementor(p: Payload, pat: Patterns): Validation {
    match p.outcome
    case CandidateReady => if p.pr <= 0 || !pat.isSha(p.head) then Malformed else Accepted
    case Continue => Accepted
    case Blocked => if !pat.isBlocker(p.blockerType) || !pat.isReason(p.reasonCode) then Malformed else Accepted
    case NoOp => if !pat.isReason(p.reasonCode) then Malformed else Accepted
    case _ => Unsupported
  }

  function ValidateQA(p: Payload, pat: Patterns): Validation {
    if !pat.isSha(p.reviewedHead) || p.findings.None? then Malformed
    else
      match p.outcome
      case Approved => if p.findings.value != 0 then Malformed else Accepted
      case ChangesRequired => if p.findings.value <= 0 || !pat.isCycle(p.cycleEscalation) then Malformed else Accepted
      case BlockedInconclusive =>
        if p.findings.value != 0 || !pat.isBlocker(p.blockerType) || !pat.isReason(p.reasonCode) then Malformed else Accepted
      case _ => Unsupported
  }

  function ValidateLead(p: Payload, pat: Patterns): Validation {
    match p.outcome
    case Dispatch => if !KnownRole(p.nextRole) then Malformed else Accepted
    case Continue => Accepted
    case Correct => if p.nextRole != Implementor then Malformed else Accepted
    case ReadyToMerge => if p.pr <= 0 || !pat.isSha(p.approvedHead) then Malformed else Accepted
    case OwnerRequired => if !pat.isReason(p.reasonCode) then Malformed else Accepted
    case Hold => if !pat.isReason(p.reasonCode) then Malformed else Accepted
    case _ => Unsupported
  }

  function Validate(p: Payload, pat: Patterns): Validation {
    if p.version != 1 then Unsupported
    else if !pat.isCommand(p.command) then Malformed
    else
      match p.role
      case Implementor => ValidateImplementor(p, pat)
      case QA => ValidateQA(p, pat)
      case Lead => ValidateLead(p, pat)
      case OtherRole(_) => Unsupported
  }

  /** The command status an accepted payload stands for. */
  function StatusFor(p: Payload): Status {
    match p.role
    case Implementor => if p.outcome == Blocked then Stopped else Completed
    case QA => if p.outcome == BlockedInconclusive then Inconclusive else Completed
    case _ => if p.outcome == OwnerRequired || p.outcome == Hold then Stopped else Completed
  }

  predicate MarkerStale(c: Command, p: Payload) {
    c.expectedHead != ""
    && ((p.role == QA && p.reviewedHead != c.expectedHead)
        || (p.role == Lead && p.outcome == ReadyToMerge && p.approvedHead != c.expectedHead))
  }

  /** The row a marker asks for, judged against the commands. */
  function Correlated(cs: Commands, project: nat, issue: nat, m: Marker, pat: Patterns): Row {
    var p := m.payload;
    var parsed := if m.decoded then Validate(p, pat) else Malformed;
    Row(issue, p.command, p,
        if parsed != Accepted then parsed
        else if p.command !in cs then Unbound
        else
          var c := cs[p.command];
          if c.project != project || c.issue != issue then Unbound
          else if c.role != p.role then WrongRole
          else if MarkerStale(c, p) then StaleHead
          else Accepted)
  }

  /** What is stored for it: an accepted row that changes afterwards is disputed. */
  function Merged(rows: Rows, key: (nat, nat), row: Row): Row {
    if key in rows && rows[key].validation == Accepted && (row.validation != Accepted || rows[key].payload != row.payload)
    then row.(validation := Disputed)
    else row
  }

  // ---------------------------------------------------------------- status

  predicate Terminal(s: Status) {
    s == Completed || s == Stopped || s == Inconclusive || s == Failed || s == Ambiguous || s == Superseded
  }

  predicate AllowedTransition(was: Status, now: Status) {
    if now == Ambiguous && was != Ambiguous && was != Superseded then true
    else
      match was
      case Created => now in {DeliveryPending, AwaitingResult, Completed, Stopped, Inconclusive, Failed, Superseded}
      case DeliveryPending => now in {AwaitingResult, Completed, Stopped, Inconclusive, Failed, Superseded}
      case AwaitingResult => now in {Completed, Stopped, Inconclusive, Failed, Superseded}
      case _ => false
  }

  /** Fixed rank of a status. */
  function Rank(s: Status): nat {
    match s
    case Created => 0
    case DeliveryPending => 1
    case AwaitingResult => 2
    case Ambiguous => 4
    case Superseded => 4
    case _ => 3
  }

  /** What the guarded update leaves of a command. */
  function Moved(c: Command, to: Status): Command {
    if c.status != to && AllowedTransition(c.status, to) then c.(status := to) else c
  }

  datatype Delivery = Pending | Claimed | Delivered | Uncertain | Invalidated | DeliveryFailed | Cancelled | Expired | UnknownDelivery

  function StatusOfDelivery(d: Delivery): Option<Status> {
    match d
    case Pending => Some(DeliveryPending)
    case Claimed => Some(DeliveryPending)
    case Delivered => Some(AwaitingResult)
    case Uncertain => Some(Ambiguous)
    case Invalidated => Some(Superseded)
    case UnknownDelivery => None
    case _ => Some(Failed)
  }

  /** A transport callback; it never touches a terminal command. */
  function AfterDelivery(c: Command, d: Delivery): Command {
    match StatusOfDelivery(d)
    case None => c
    case Some(s) => if Terminal(c.status) then c else Moved(c, s)
  }

  // ---------------------------------------------------------------- observation

  function AcceptedPayloads(rows: Rows, project: nat, id: Id): set<Payload> {
    set k | k in rows && k.0 == project && rows[k].command == id && rows[k].validation == Accepted :: rows[k].payload
  }

  /** The status reconciliation gives a command, from the payloads accepted for it. */
  function Settled(c: Command, accepted: set<Payload>): Status {
    if c.status == Ambiguous || c.status == Superseded then c.status
    else if |accepted| > 1 then Ambiguous
    else if accepted == {} then (if Terminal(c.status) then Ambiguous else c.status)
    else
      var desired := StatusFor(Single(accepted));
      if c.status == desired then desired else if Terminal(c.status) then Ambiguous else desired
  }

  function Single(accepted: set<Payload>): (p: Payload)
    requires |accepted| == 1
    ensures accepted == {p}
  {
    OneElement(accepted);
    var p :| p in accepted;
    p
  }

  lemma OneElement(s: set<Payload>)
    requires |s| == 1
    ensures exists p :: s == {p}
    ensures forall p, q :: p in s && q in s ==> p == q
  {
    var p :| p in s;
    assert |s - {p}| == 0;
    assert s == {p};
  }

  /** Does reconciliation find conflicting results, and dispute them? */
  predicate Conflicted(c: Command, accepted: set<Payload>) {
    c.status != Ambiguous && c.status != Superseded && |accepted| > 1
  }

  /** The commands an observation reconciles. */
  function Synced(cs: Commands, project: nat, issues: seq<nat>): set<Id> {
    set id | id in cs && cs[id].project == project && cs[id].issue in issues
  }

  /** Comment and issue identities are unique within a project. */
  ghost predicate WellFormed(s: Snapshot) {
    && (forall i, j :: 0 <= i < j < |s.issues| ==> s.issues[i] != s.issues[j])
    && (forall i, j :: 0 <= i < j < |s.comments| ==> s.comments[i].id != s.comments[j].id)
  }

  function RowFor(cs: Commands, project: nat, x: Comment, pat: Patterns): Row
    requires x.marker.Some?
  {
    Correlated(cs, project, x.issue, x.marker.value, pat)
  }

  ghost predicate StoredAt(was: Rows, now: Rows, cs: Commands, s: Snapshot, pat: Patterns, a: nat)
    requires a < |s.comments|
  {
    var x := s.comments[a];
    var k := (s.project, x.id);
    if x.marker.Some? then k in now && now[k] == Merged(was, k, RowFor(cs, s.project, x, pat)) else k !in now
  }

  /** The rows once the first `n` comments are stored. */
  ghost predicate Stored(was: Rows, now: Rows, cs: Commands, s: Snapshot, pat: Patterns, n: nat)
    requires n <= |s.comments|
  {
    && (forall a :: 0 <= a < n ==> StoredAt(was, now, cs, s, pat, a))
    && (forall k: (nat, nat) :: (k.0 != s.project || forall a :: 0 <= a < n ==> s.comments[a].id != k.1) ==>
          (k in was <==> k in now) && (k in was ==> now[k] == was[k]))
  }

  /** The rows once every comment is stored and every missing one deleted. */
  ghost predicate Recorded(was: Rows, now: Rows, cs: Commands, s: Snapshot, pat: Patterns) {
    && (forall k: (nat, nat) :: k.0 != s.project ==> (k in was <==> k in now) && (k in was ==> now[k] == was[k]))
    && (forall a :: 0 <= a < |s.comments| && s.comments[a].marker.Some? ==>
          var k := (s.project, s.comments[a].id);
          k in now && now[k] == Merged(was, k, RowFor(cs, s.project, s.comments[a], pat)))
    && (forall k: (nat, nat) :: k in now && k.0 == s.project ==> Marked(s, k.1))
  }

  ghost predicate Marked(s: Snapshot, id: nat) {
    exists a :: 0 <= a < |s.comments| && s.comments[a].marker.Some? && s.comments[a].id == id
  }

  /** The commands `done` settled, and the accepted results of conflicting ones disputed. */
  ghost predicate Reconciled(was: Store, now: Store, project: nat, done: set<Id>) {
    && now.commands.Keys == was.commands.Keys && now.rows.Keys == was.rows.Keys
    && (forall id :: id in was.commands ==>
          now.commands[id] == if id in done
                              then was.commands[id].(status := Settled(was.commands[id], AcceptedPayloads(was.rows, project, id)))
                              else was.commands[id])
    && (forall k :: k in was.rows ==> now.rows[k] == if InConflict(was, project, done, k) then was.rows[k].(validation := Disputed) else was.rows[k])
  }

  ghost predicate InConflict(was: Store, project: nat, done: set<Id>, k: (nat, nat))
    requires k in was.rows
  {
    var row := was.rows[k];
    && k.0 == project && row.validation == Accepted && row.command in done && row.command in was.commands
    && Conflicted(was.commands[row.command], AcceptedPayloads(was.rows, project, row.command))
  }

  /** One observation of a snapshot. */
  ghost predicate Observed(was: Store, now: Store, s: Snapshot, pat: Patterns) {
    exists rows ::
      && Recorded(was.rows, rows, was.commands, s, pat)
      && Reconciled(Store(was.commands, rows), now, s.project, Synced(was.commands, s.project, s.issues))
  }

  ghost predicate KeyedById(cs: Commands) {
    forall id :: id in cs ==> cs[id].id == id
  }

  // ---------------------------------------------------------------- ranks

  lemma TransitionClimbs(c: Command, to: Status)
    ensures Moved(c, to) == c || Rank(c.status) < Rank(Moved(c, to).status)
  {
  }

  lemma SettledClimbs(c: Command, accepted: set<Payload>)
    ensures Settled(c, accepted) == c.status || AllowedTransition(c.status, Settled(c, accepted))
    ensures Settled(c, accepted) == c.status || Rank(c.status) < Rank(Settled(c, accepted))
    ensures Settled(c.(status := Settled(c, accepted)), accepted) == Settled(c, accepted)
  {
    if |accepted| == 1 { assert accepted == {Single(accepted)}; }
  }

  // ---------------------------------------------------------------- replay

  /** Every marked row is what its comment asks for, or disputed. */
  ghost predicate UpToDate(rows: Rows, cs: Commands, s: Snapshot, pat: Patterns) {
    forall a :: 0 <= a < |s.comments| && s.comments[a].marker.Some? ==>
      var k := (s.project, s.comments[a].id);
      k in rows && (rows[k] == RowFor(cs, s.project, s.comments[a], pat) || rows[k].validation == Disputed)
  }

  /** Every marked row is exactly what its comment asks for, and there are no others. */
  ghost predicate Exact(rows: Rows, cs: Commands, s: Snapshot, pat: Patterns) {
    && (forall a :: 0 <= a < |s.comments| && s.comments[a].marker.Some? ==>
          var k := (s.project, s.comments[a].id);
          k in rows && rows[k] == RowFor(cs, s.project, s.comments[a], pat))
    && (forall k: (nat, nat) :: k in rows && k.0 == s.project ==> Marked(s, k.1))
  }

  /** The same commands but for their statuses. */
  ghost predicate SameScope(cs: Commands, ds: Commands) {
    cs.Keys == ds.Keys && forall id :: id in cs ==> ds[id] == cs[id].(status := ds[id].status)
  }

  lemma ScopeRow(cs: Commands, ds: Commands, project: nat, x: Comment, pat: Patterns)
    requires SameScope(cs, ds) && x.marker.Some?
    ensures RowFor(cs, project, x, pat) == RowFor(ds, project, x, pat)
  {
  }

  lemma ReconciledScope(was: Store, now: Store, project: nat, done: set<Id>)
    requires Reconciled(was, now, project, done)
    ensures SameScope(was.commands, now.commands)
    ensures forall k :: k in was.rows ==> k in now.rows && (now.rows[k] == was.rows[k] || now.rows[k].validation == Disputed)
  {
  }

  /** One observation brings the rows up to date, whatever they were. */
  lemma ObservedUpToDate(was: Store, now: Store, s: Snapshot, pat: Patterns)
    requires Observed(was, now, s, pat)
    ensures SameScope(was.commands, now.commands) && UpToDate(now.rows, now.commands, s, pat)
  {
    hide Reconciled, Correlated;
    var rows :| Recorded(was.rows, rows, was.commands, s, pat)
                && Reconciled(Store(was.commands, rows), now, s.project, Synced(was.commands, s.project, s.issues));
    ReconciledScope(Store(was.commands, rows), now, s.project, Synced(was.commands, s.project, s.issues));
    forall a | 0 <= a < |s.comments| && s.comments[a].marker.Some?
      ensures RowFor(was.commands, s.project, s.comments[a], pat) == RowFor(now.commands, s.project, s.comments[a], pat)
    {
      ScopeRow(was.commands, now.commands, s.project, s.comments[a], pat);
    }
  }

  /** Recording over up-to-date rows re-accepts every disputed one. */
  lemma RecordedExact(was: Rows, now: Rows, cs: Commands, s: Snapshot, pat: Patterns)
    requires Recorded(was, now, cs, s, pat) && UpToDate(was, cs, s, pat)
    ensures Exact(now, cs, s, pat)
  {
    hide Correlated;
  }

  lemma ExactPayloads(a: Rows, b: Rows, cs: Commands, ds: Commands, s: Snapshot, pat: Patterns, id: Id)
    requires Exact(a, cs, s, pat) && Exact(b, ds, s, pat) && SameScope(cs, ds)
    ensures AcceptedPayloads(a, s.project, id) <= AcceptedPayloads(b, s.project, id)
  {
    hide Correlated;
    forall k: (nat, nat) | k in a && k.0 == s.project
      ensures k in b && b[k] == a[k]
    {
      var i :| 0 <= i < |s.comments| && s.comments[i].marker.Some? && s.comments[i].id == k.1;
      ScopeRow(cs, ds, s.project, s.comments[i], pat);
      assert k == (s.project, s.comments[i].id);
    }
  }

  lemma SameScopeSynced(cs: Commands, ds: Commands, project: nat, issues: seq<nat>)
    requires SameScope(cs, ds)
    ensures Synced(cs, project, issues) == Synced(ds, project, issues)
    ensures SameScope(ds, cs)
  {
  }

  /** From the second observation of a snapshot on, no command changes status. */
  lemma SecondReplayIsQuiet(b: Store, c: Store, d: Store, s: Snapshot, pat: Patterns)
    requires UpToDate(b.rows, b.commands, s, pat) && Observed(b, c, s, pat) && Observed(c, d, s, pat)
    ensures d.commands == c.commands
  {
    hide Recorded, Correlated, Settled, UpToDate, Exact, InConflict, AcceptedPayloads, SameScope;
    ObservedUpToDate(b, c, s, pat);
    var done := Synced(b.commands, s.project, s.issues);
    var rows :| Recorded(b.rows, rows, b.commands, s, pat) && Reconciled(Store(b.commands, rows), c, s.project, done);
    RecordedExact(b.rows, rows, b.commands, s, pat);
    SameScopeSynced(b.commands, c.commands, s.project, s.issues);
    var again :| Recorded(c.rows, again, c.commands, s, pat) && Reconciled(Store(c.commands, again), d, s.project, done);
    RecordedExact(c.rows, again, c.commands, s, pat);
    forall id | id in c.commands
      ensures d.commands[id] == c.commands[id]
    {
      ExactPayloads(rows, again, b.commands, c.commands, s, pat, id);
      ExactPayloads(again, rows, c.commands, b.commands, s, pat, id);
      assert AcceptedPayloads(rows, s.project, id) == AcceptedPayloads(again, s.project, id);
      SettledClimbs(b.commands[id], AcceptedPayloads(rows, s.project, id));
      assert id in b.commands;
    }
  }

  /** A snapshot observed again and again, nothing else happening: statuses are fixed after the second observation. */
  lemma {:induction false} ReplayStabilises(stores: seq<Store>, s: Snapshot, pat: Patterns, n: nat)
    requires |stores| > 2 && forall i :: 0 <= i < |stores| - 1 ==> Observed(stores[i], stores[i + 1], s, pat)
    requires 2 <= n < |stores|
    ensures stores[n].commands == stores[2].commands
    decreases n
  {
    hide Observed;
    if n > 2 {
      ReplayStabilises(stores, s, pat, n - 1);
      assert Observed(stores[n - 3], stores[n - 3 + 1], s, pat);
      ObservedUpToDate(stores[n - 3], stores[n - 2], s, pat);
      assert Observed(stores[n - 2], stores[n - 2 + 1], s, pat);
      assert Observed(stores[n - 1], stores[n - 1 + 1], s, pat);
      SecondReplayIsQuiet(stores[n - 2], stores[n - 1], stores[n], s, pat);
    }
  }

  // ---------------------------------------------------------------- when the second observation changes a status

  /** The a-th comment asks for an accepted result of the command with this payload. */
  ghost predicate Asks(cs: Commands, s: Snapshot, pat: Patterns, a: nat, id: Id, p: Payload)
    requires a < |s.comments|
  {
    s.comments[a].marker.Some?
    && var want := RowFor(cs, s.project, s.comments[a], pat);
       want.validation == Accepted && want.command == id && want.payload == p
  }

  /** The stored row of the a-th comment was accepted with something else: the comment was edited since. */
  predicate Edited(rows: Rows, s: Snapshot, a: nat, p: Payload)
    requires a < |s.comments|
  {
    var k := (s.project, s.comments[a].id);
    k in rows && rows[k].validation == Accepted && rows[k].payload != p
  }

  /** Some accepted result of the command stands only in edited comments, so that recording it is put off once. */
  ghost predicate PutOff(rows: Rows, cs: Commands, s: Snapshot, pat: Patterns, id: Id, p: Payload) {
    && (exists a :: 0 <= a < |s.comments| && Asks(cs, s, pat, a, id, p))
    && (forall a :: 0 <= a < |s.comments| && Asks(cs, s, pat, a, id, p) ==> Edited(rows, s, a, p))
  }

  /** What one recording accepts: what some comment asks for that was not edited. */
  lemma RecordedPayload(was: Rows, now: Rows, cs: Commands, s: Snapshot, pat: Patterns, id: Id, p: Payload)
    requires Recorded(was, now, cs, s, pat)
    ensures p in AcceptedPayloads(now, s.project, id)
            <==> exists a :: 0 <= a < |s.comments| && Asks(cs, s, pat, a, id, p) && !Edited(was, s, a, p)
  {
    hide Correlated;
    if p in AcceptedPayloads(now, s.project, id) {
      var k :| k in now && k.0 == s.project && now[k].command == id && now[k].validation == Accepted && now[k].payload == p;
      var a :| 0 <= a < |s.comments| && s.comments[a].marker.Some? && s.comments[a].id == k.1;
      assert k == (s.project, s.comments[a].id);
      assert Asks(cs, s, pat, a, id, p) && !Edited(was, s, a, p);
    }
    if a :| 0 <= a < |s.comments| && Asks(cs, s, pat, a, id, p) && !Edited(was, s, a, p) {
      var k := (s.project, s.comments[a].id);
      assert now[k] == Merged(was, k, RowFor(cs, s.project, s.comments[a], pat));
    }
  }

  /** What a recording over up-to-date rows accepts: everything some comment asks for. */
  lemma ExactPayload(now: Rows, cs: Commands, s: Snapshot, pat: Patterns, id: Id, p: Payload)
    requires Exact(now, cs, s, pat)
    ensures p in AcceptedPayloads(now, s.project, id) <==> exists a :: 0 <= a < |s.comments| && Asks(cs, s, pat, a, id, p)
  {
    hide Correlated;
    if p in AcceptedPayloads(now, s.project, id) {
      var k :| k in now && k.0 == s.project && now[k].command == id && now[k].validation == Accepted && now[k].payload == p;
      var a :| 0 <= a < |s.comments| && s.comments[a].marker.Some? && s.comments[a].id == k.1;
      assert k == (s.project, s.comments[a].id);
      assert Asks(cs, s, pat, a, id, p);
    }
    if a :| 0 <= a < |s.comments| && Asks(cs, s, pat, a, id, p) {
      var k := (s.project, s.comments[a].id);
      assert k in now;
    }
  }

  lemma ScopeAsks(cs: Commands, ds: Commands, s: Snapshot, pat: Patterns, a: nat, id: Id, p: Payload)
    requires SameScope(cs, ds) && a < |s.comments|
    ensures Asks(cs, s, pat, a, id, p) <==> Asks(ds, s, pat, a, id, p)
  {
    if s.comments[a].marker.Some? { ScopeRow(cs, ds, s.project, s.comments[a], pat); }
    hide RowFor, SameScope;
  }

  /** The two recordings accept the same results exactly when none is put off. */
  lemma PutOffIff(rows: Rows, again: Rows, a: Store, ds: Commands, s: Snapshot, pat: Patterns, id: Id)
    requires Recorded(a.rows, rows, a.commands, s, pat) && Exact(again, ds, s, pat) && SameScope(a.commands, ds)
    ensures AcceptedPayloads(rows, s.project, id) <= AcceptedPayloads(again, s.project, id)
    ensures AcceptedPayloads(rows, s.project, id) != AcceptedPayloads(again, s.project, id)
            <==> exists p :: PutOff(a.rows, a.commands, s, pat, id, p)
  {
    hide Recorded, Exact, Asks, Edited, AcceptedPayloads, SameScope;
    var was, now := AcceptedPayloads(rows, s.project, id), AcceptedPayloads(again, s.project, id);
    forall p
      ensures p in was ==> p in now
      ensures PutOff(a.rows, a.commands, s, pat, id, p) <==> p in now && p !in was
    {
      RecordedPayload(a.rows, rows, a.commands, s, pat, id, p);
      ExactPayload(again, ds, s, pat, id, p);
      forall i: nat | i < |s.comments|
        ensures Asks(a.commands, s, pat, i, id, p) <==> Asks(ds, s, pat, i, id, p)
      {
        ScopeAsks(a.commands, ds, s, pat, i, id, p);
      }
    }
    if was != now {
      var p :| p in now && p !in was;
      assert PutOff(a.rows, a.commands, s, pat, id, p);
    }
  }

  /** Settling again over more results moves the status unless it can no longer move. */
  lemma MoreSettles(c: Command, was: set<Payload>, now: set<Payload>)
    requires was <= now
    ensures var once := Settled(c, was);
            Settled(c.(status := once), now) != once <==> was != now && once != Ambiguous && once != Superseded
  {
    SettledClimbs(c, was);
    if was != now && was != {} && Settled(c, was) != Ambiguous && Settled(c, was) != Superseded {
      var p :| p in now && p !in was;
      var q :| q in was;
      MoreThanOne(now, p, q);
    }
    if was == {} && now != {} && |now| == 1 { assert now == {Single(now)}; }
  }

  lemma MoreThanOne(s: set<Payload>, p: Payload, q: Payload)
    requires p in s && q in s && p != q
    ensures |s| > 1
  {
    assert |s - {p}| > 0 by { assert q in s - {p}; }
  }

  /**
   A second observation of an unchanged snapshot changes a command's status exactly when the command is synced and not
   yet ambiguous or superseded, and some accepted result of it stood only in comments whose stored rows, before the first
   observation, had been accepted with another payload.
   */
  lemma SecondObservationIff(a: Store, b: Store, c: Store, s: Snapshot, pat: Patterns, id: Id)
    requires Observed(a, b, s, pat) && Observed(b, c, s, pat) && id in b.commands
    ensures id in a.commands && id in c.commands
    ensures c.commands[id].status != b.commands[id].status
            <==> && id in Synced(b.commands, s.project, s.issues) && b.commands[id].status !in {Ambiguous, Superseded}
                 && exists p :: PutOff(a.rows, a.commands, s, pat, id, p)
  {
    hide Recorded, Settled, UpToDate, Exact, InConflict, AcceptedPayloads, SameScope, PutOff;
    ObservedUpToDate(a, b, s, pat);
    var done := Synced(a.commands, s.project, s.issues);
    var rows :| Recorded(a.rows, rows, a.commands, s, pat) && Reconciled(Store(a.commands, rows), b, s.project, done);
    SameScopeSynced(a.commands, b.commands, s.project, s.issues);
    var again :| Recorded(b.rows, again, b.commands, s, pat) && Reconciled(Store(b.commands, again), c, s.project, done);
    RecordedExact(b.rows, again, b.commands, s, pat);
    PutOffIff(rows, again, a, b.commands, s, pat, id);
    MoreSettles(a.commands[id], AcceptedPayloads(rows, s.project, id), AcceptedPayloads(again, s.project, id));
  }

  const PLAIN: Payload := Payload(1, Implementor, Continue, 7, 0, "", "", "", None, BLANK, BLANK, BLANK, Lead)
  const ANY: Patterns := Patterns(_ => true, _ => true, _ => true, _ => true, _ => true)
  const WAITING: Command := Command(7, 1, 1, 7, Implementor, BLANK, BLANK, BLANK, "", AwaitingResult)
  const EDITED: Snapshot := Snapshot(1, [1], [Comment(1, 5, Some(Marker(true, PLAIN)))])

  /**
   The bound of two is reached: when an accepted comment was edited, the first observation disputes its row and the
   second accepts it again and completes the command.
   */
  lemma SecondObservationMayChange()
    returns (a: Store, b: Store, c: Store)
    ensures Observed(a, b, EDITED, ANY) && Observed(b, c, EDITED, ANY)
    ensures 7 in b.commands && b.commands[7].status == AwaitingResult
    ensures 7 in c.commands && c.commands[7].status == Completed
  {
    var k := (1 as nat, 5 as nat);
    var row := Row(1, 7, PLAIN, Accepted);
    a := Store(map[7 := WAITING], map[k := row.(payload := PLAIN.(pr := 3))]);
    b := Store(a.commands, map[k := row.(validation := Disputed)]);
    c := Store(map[7 := WAITING.(status := Completed)], map[k := row]);
    EditedRecorded(a.rows, b.rows, k, row);
    EditedRecorded(b.rows, c.rows, k, row);
    EditedReconciled(b.rows, k, row);
    hide Recorded, Reconciled, Synced;
  }

  /** Without its accepted result the command waits; with it, it is completed. */
  lemma EditedReconciled(disputed: Rows, k: (nat, nat), row: Row)
    requires k == (1, 5) && row == Row(1, 7, PLAIN, Accepted) && disputed == map[k := row.(validation := Disputed)]
    ensures Synced(map[7 := WAITING], 1, EDITED.issues) == {7}
    ensures Reconciled(Store(map[7 := WAITING], disputed), Store(map[7 := WAITING], disputed), 1, {7})
    ensures Reconciled(Store(map[7 := WAITING], map[k := row]), Store(map[7 := WAITING.(status := Completed)], map[k := row]), 1, {7})
  {
    assert AcceptedPayloads(disputed, 1, 7) == {};
    assert PLAIN in AcceptedPayloads(map[k := row], 1, 7) by { assert k in map[k := row]; }
    assert AcceptedPayloads(map[k := row], 1, 7) == {PLAIN};
    assert Single({PLAIN}) == PLAIN;
  }

  /** What recording the edited comment makes of its row. */
  lemma EditedRecorded(was: Rows, now: Rows, k: (nat, nat), row: Row)
    requires k == (1, 5) && row == Row(1, 7, PLAIN, Accepted) && was.Keys == {k}
    requires now == map[k := Merged(was, k, row)]
    ensures Recorded(was, now, map[7 := WAITING], EDITED, ANY)
  {
    assert RowFor(map[7 := WAITING], 1, EDITED.comments[0], ANY) == row;
    assert Marked(EDITED, 5);
  }

  // ---------------------------------------------------------------- truth

  /** The payload was accepted for this very command. */
  ghost predicate Genuine(p: Payload, c: Command, pat: Patterns) {
    Validate(p, pat) == Accepted && p.command == c.id && p.role == c.role && !MarkerStale(c, p)
  }

  lemma AcceptedIsGenuine(was: Rows, now: Rows, cs: Commands, s: Snapshot, pat: Patterns, id: Id, p: Payload)
    requires Recorded(was, now, cs, s, pat) && KeyedById(cs) && id in cs && p in AcceptedPayloads(now, s.project, id)
    ensures Genuine(p, cs[id], pat)
  {
    hide Validate, MarkerStale;
    var k :| k in now && k.0 == s.project && now[k].command == id && now[k].validation == Accepted && now[k].payload == p;
    var a :| 0 <= a < |s.comments| && s.comments[a].marker.Some? && s.comments[a].id == k.1;
    assert k == (s.project, s.comments[a].id);
  }

  lemma SettledClaims(c: Command, accepted: set<Payload>)
    requires Settled(c, accepted) in {Completed, Stopped, Inconclusive}
    ensures |accepted| == 1 && Settled(c, accepted) == StatusFor(Single(accepted)) && !Conflicted(c, accepted)
  {
  }

  lemma UndisputedPayloads(was: Store, now: Store, project: nat, done: set<Id>, id: Id)
    requires Reconciled(was, now, project, done) && id in was.commands
    requires !Conflicted(was.commands[id], AcceptedPayloads(was.rows, project, id))
    ensures AcceptedPayloads(now.rows, project, id) == AcceptedPayloads(was.rows, project, id)
  {
    hide Conflicted;
    forall k: (nat, nat) | k in was.rows && k.0 == project && was.rows[k].command == id
      ensures now.rows[k] == was.rows[k]
    {
      assert !InConflict(was, project, done, k);
    }
    forall k: (nat, nat) | k in was.rows
      ensures now.rows[k].command == was.rows[k].command
    {
    }
  }

  /**
   After an observation, a completed, blocked or inconclusive command of a synced issue has exactly one accepted
   payload; it names the command, is of its role, fits its expected head, and says that status: inconclusive is a QA that
   reached no verdict, stopped is an Implementor that is blocked or a Lead that holds or asks the owner, and completed is
   everything else.
   */
  lemma StatusIsTruthful(was: Store, now: Store, s: Snapshot, pat: Patterns, id: Id)
    requires Observed(was, now, s, pat) && KeyedById(was.commands)
    requires id in now.commands && now.commands[id].project == s.project && now.commands[id].issue in s.issues
    requires now.commands[id].status in {Completed, Stopped, Inconclusive}
    ensures exists p :: AcceptedPayloads(now.rows, s.project, id) == {p} && Genuine(p, now.commands[id], pat)
                        && (now.commands[id].status == Inconclusive <==> p.role == QA && p.outcome == BlockedInconclusive)
                        && (now.commands[id].status == Stopped <==>
                              || (p.role == Implementor && p.outcome == Blocked)
                              || (p.role == Lead && (p.outcome == OwnerRequired || p.outcome == Hold)))
  {
    hide Recorded, Settled, Genuine, Conflicted, AcceptedPayloads;
    var done := Synced(was.commands, s.project, s.issues);
    var rows :| Recorded(was.rows, rows, was.commands, s, pat) && Reconciled(Store(was.commands, rows), now, s.project, done);
    var mid := Store(was.commands, rows);
    ReconciledScope(mid, now, s.project, done);
    var accepted := AcceptedPayloads(rows, s.project, id);
    SettledClaims(was.commands[id], accepted);
    UndisputedPayloads(mid, now, s.project, done, id);
    var p := Single(accepted);
    AcceptedIsGenuine(was.rows, rows, was.commands, s, pat, id, p);
    GenuineScope(p, was.commands[id], now.commands[id], pat);
    KnownSender(p, was.commands[id], pat);
    assert AcceptedPayloads(now.rows, s.project, id) == {p};
  }

  lemma KnownSender(p: Payload, c: Command, pat: Patterns)
    requires Genuine(p, c, pat)
    ensures KnownRole(p.role)
  {
  }

  lemma GenuineScope(p: Payload, c: Command, d: Command, pat: Patterns)
    requires Genuine(p, c, pat) && d == c.(status := d.status)
    ensures Genuine(p, d, pat)
  {
  }

  // ---------------------------------------------------------------- runs

  /** What may change a command: an observation, a delivery callback, a refresh, a creation. */
  datatype Cause =
    | Observe(snapshot: Snapshot, patterns: Patterns)
    | Callback(id: Id, delivery: Delivery)
    | Refresh(id: Id, to: Status)
    | Create(input: Command)

  /** What no two commands share. */
  function Identity(c: Command): (nat, nat, Id) {
    (c.project, c.issue, c.identity)
  }

  predicate SameIdentity(c: Command, d: Command) {
    c.project == d.project && c.issue == d.issue && c.identity == d.identity
  }

  /** The insertion of CreateCommand: refused when the identifier or the identity is taken. */
  ghost function Inserted(cs: Commands, input: Command): Commands {
    if input.id in cs || exists id :: id in cs && SameIdentity(cs[id], input) then cs else cs[input.id := input]
  }

  /** Do the stored command and a new request ask for the same work? The status may have moved on. */
  predicate SameInput(c: Command, input: Command) {
    SameIdentity(c, input) && c.role == input.role && c.action == input.action && c.profile == input.profile
    && c.context == input.context && c.expectedHead == input.expectedHead
  }

  /** The field checks of CreateCommand, but for the textual form of identifier and head. */
  predicate Storable(c: Command) {
    c.project > 0 && c.issue > 0 && c.identity != BLANK && c.action != BLANK && c.profile != BLANK && c.context != BLANK
      && KnownRole(c.role)
  }

  /** A complete request that neither its identifier nor its identity stands in the way of. */
  ghost predicate Fresh(cs: Commands, c: Command) {
    && c.project > 0 && c.issue > 0 && c.role in {Lead, Implementor, QA}
    && BLANK !in {c.identity, c.action, c.profile, c.context}
    && c.id !in cs && forall id :: id in cs ==> Identity(cs[id]) != Identity(c)
  }

  ghost predicate OneIdentity(cs: Commands) {
    forall i, j :: i in cs && j in cs && Identity(cs[i]) == Identity(cs[j]) ==> i == j
  }

  ghost predicate Next(a: Store, cause: Cause, b: Store) {
    match cause
    case Observe(s, pat) => Observed(a, b, s, pat)
    case Callback(id, d) => b == if id in a.commands then a.(commands := a.commands[id := AfterDelivery(a.commands[id], d)]) else a
    case Refresh(id, to) => b == if id in a.commands then a.(commands := a.commands[id := Moved(a.commands[id], to)]) else a
    case Create(input) => b == a.(commands := Inserted(a.commands, input))
  }

  /** What one step may do to a command. */
  ghost predicate Climbs(c: Command, d: Command) {
    d == c.(status := d.status) && (d.status == c.status || Rank(c.status) < Rank(d.status))
  }

  lemma NextClimbs(a: Store, cause: Cause, b: Store, id: Id)
    requires Next(a, cause, b) && id in a.commands
    ensures id in b.commands && Climbs(a.commands[id], b.commands[id])
  {
    match cause
    case Observe(s, pat) =>
      var done := Synced(a.commands, s.project, s.issues);
      var rows :| Recorded(a.rows, rows, a.commands, s, pat) && Reconciled(Store(a.commands, rows), b, s.project, done);
      SettledClimbs(a.commands[id], AcceptedPayloads(rows, s.project, id));
    case Callback(x, d) =>
      if x == id && StatusOfDelivery(d).Some? { TransitionClimbs(a.commands[id], StatusOfDelivery(d).value); }
    case Refresh(x, to) => if x == id { TransitionClimbs(a.commands[id], to); }
    case Create(input) =>
  }

  /** Every step keeps one command to an identity. */
  lemma NextKeepsIdentity(a: Store, cause: Cause, b: Store)
    requires Next(a, cause, b) && OneIdentity(a.commands)
    ensures OneIdentity(b.commands)
  {
    forall id | id in a.commands
      ensures id in b.commands && Climbs(a.commands[id], b.commands[id])
    {
      NextClimbs(a, cause, b, id);
    }
    hide Climbs, Rank, AfterDelivery, Moved;
    if !cause.Create? { OnlyCreateAdds(a, cause, b); }
    forall i, j | i in b.commands && j in b.commands && SameIdentity(b.commands[i], b.commands[j])
      ensures i == j
    {
      if i in a.commands { ClimbsScope(a.commands[i], b.commands[i]); }
      if j in a.commands { ClimbsScope(a.commands[j], b.commands[j]); }
    }
  }

  lemma ClimbsScope(c: Command, d: Command)
    requires Climbs(c, d)
    ensures forall x :: (SameIdentity(c, x) <==> SameIdentity(d, x)) && (SameIdentity(x, c) <==> SameIdentity(x, d))
  {
  }

  lemma OnlyCreateAdds(a: Store, cause: Cause, b: Store)
    requires Next(a, cause, b) && !cause.Create?
    ensures b.commands.Keys == a.commands.Keys
  {
    if cause.Observe? {
      var s := cause.snapshot;
      var rows :| Recorded(a.rows, rows, a.commands, s, cause.patterns)
                  && Reconciled(Store(a.commands, rows), b, s.project, Synced(a.commands, s.project, s.issues));
    }
  }

  /** The steps of a run that change the command's status. */
  function Changes(stores: seq<Store>, id: Id): set<nat>
    requires forall i :: 0 <= i < |stores| ==> id in stores[i].commands
  {
    set i | 0 <= i < |stores| - 1 && ChangesAt(stores, id, i)
  }

  predicate ChangesAt(stores: seq<Store>, id: Id, i: nat)
    requires i + 1 < |stores| && id in stores[i].commands && id in stores[i + 1].commands
  {
    stores[i].commands[id].status != stores[i + 1].commands[id].status
  }

  lemma ChangesNext(stores: seq<Store>, id: Id, n: nat)
    requires |stores| == n + 1 > 1 && forall i :: 0 <= i < |stores| ==> id in stores[i].commands
    ensures |Changes(stores, id)| == |Changes(stores[..n], id)| + if ChangesAt(stores, id, n - 1) then 1 else 0
  {
    forall i | 0 <= i < n - 1
      ensures ChangesAt(stores[..n], id, i) <==> ChangesAt(stores, id, i)
    {
    }
    assert Changes(stores, id) == Changes(stores[..n], id) + if ChangesAt(stores, id, n - 1) then {n - 1} else {};
  }

  ghost predicate IsRun(stores: seq<Store>, causes: seq<Cause>) {
    |stores| == |causes| + 1 && forall i :: 0 <= i < |causes| ==> Next(stores[i], causes[i], stores[i + 1])
  }

  lemma {:induction false} RunKeepsCommand(stores: seq<Store>, causes: seq<Cause>, id: Id, n: nat)
    requires IsRun(stores, causes) && id in stores[0].commands && n < |stores|
    ensures id in stores[n].commands
    decreases n
  {
    hide Next;
    if n > 0 {
      RunKeepsCommand(stores, causes, id, n - 1);
      assert Next(stores[n - 1], causes[n - 1], stores[n - 1 + 1]);
      NextClimbs(stores[n - 1], causes[n - 1], stores[n], id);
    }
  }

  /** Over any run a command changes status at most four times, and never back; nothing else of it ever changes. */
  lemma {:induction false} AtMostFourChanges(stores: seq<Store>, causes: seq<Cause>, id: Id)
    requires IsRun(stores, causes) && id in stores[0].commands
    ensures forall i :: 0 <= i < |stores| ==> id in stores[i].commands
    ensures var first, last := stores[0].commands[id], stores[|stores| - 1].commands[id];
            last == first.(status := last.status) && Rank(first.status) + |Changes(stores, id)| <= Rank(last.status) <= 4
    decreases |stores|
  {
    hide Next;
    forall i | 0 <= i < |stores|
      ensures id in stores[i].commands
    {
      RunKeepsCommand(stores, causes, id, i);
    }
    var n := |causes|;
    if n == 0 {
      assert Changes(stores, id) == {};
    } else {
      var was := stores[..n];
      AtMostFourChanges(was, causes[..n - 1], id);
      assert Next(stores[n - 1], causes[n - 1], stores[n - 1 + 1]);
      NextClimbs(stores[n - 1], causes[n - 1], stores[n], id);
      ChangesNext(stores, id, n);
      hide Changes;
    }
  }

  // ---------------------------------------------------------------- the service

  datatype Refusal = NotFound | Conflict | UnknownOutcome

  class WorkerLoop {
    var commands: Commands
    var rows: Rows

    ghost function State(): Store
      reads this
    {
      Store(commands, rows)
    }

    constructor ()
      ensures State() == Store(map[], map[]) && KeyedById(commands)
    {
      commands, rows := map[], map[];
    }

    /** Inserts a command, or finds the one stored for the same identity and input. */
    method CreateCommand(input: Command) returns (r: Option<Command>)
      requires KeyedById(commands)
      modifies this`commands
      ensures KeyedById(commands)
      ensures !Storable(input) ==> r.None? && commands == old(commands)
      ensures Storable(input) ==> Next(old(State()), Create(input), State())
      ensures r.Some? ==> r.value.id in commands && commands[r.value.id] == r.value
                          && r.value == input.(id := r.value.id, status := r.value.status)
      ensures r.Some? ==> && input.project > 0 && input.issue > 0 && input.role in {Lead, Implementor, QA}
                          && BLANK !in {input.identity, input.action, input.profile, input.context}
      ensures Fresh(old(commands), input) ==> r == Some(input) && commands == old(commands)[input.id := input]
      ensures Storable(input) && r.None? ==>
                (exists id :: id in commands && Identity(commands[id]) == Identity(input)
                              && commands[id] != input.(id := commands[id].id, status := commands[id].status))
                || (input.id in commands && forall id :: id in commands ==> Identity(commands[id]) != Identity(input))
    {
      if !Storable(input) { return None; }
      if exists id :: id in commands && SameIdentity(commands[id], input) {
        var id :| id in commands && SameIdentity(commands[id], input);
        return if SameInput(commands[id], input) then Some(commands[id]) else None;
      }
      if input.id in commands { return None; }
      commands := commands[input.id := input];
      return Some(input);
    }

    /** The guarded update every status change goes through. */
    method SetCommandStatus(id: Id, to: Status) returns (r: Option<Refusal>)
      modifies this`commands
      ensures r == if id !in old(commands) then Some(NotFound)
                   else if old(commands)[id].status != to
                     && !AllowedTransition(old(commands)[id].status, to) then Some(Conflict) else None
      ensures commands == if id in old(commands) then old(commands)[id := Moved(old(commands)[id], to)] else old(commands)
    {
      if id !in commands { return Some(NotFound); }
      var c := commands[id];
      if c.status == to { return None; }
      if !AllowedTransition(c.status, to) { return Some(Conflict); }
      commands := commands[id := c.(status := to)];
      return None;
    }

    method RecordDeliveryOutcome(id: Id, d: Delivery) returns (r: Option<Refusal>)
      modifies this`commands
      ensures Next(old(State()), Callback(id, d), State())
      ensures r.None? && id in commands && StatusOfDelivery(d).Some? ==>
                Terminal(old(commands)[id].status) || commands[id].status == StatusOfDelivery(d).value
      ensures r.None? <==>
                && StatusOfDelivery(d).Some? && id in old(commands)
                && (var was, to := old(commands)[id].status, StatusOfDelivery(d).value;
                    Terminal(was) || was == to || AllowedTransition(was, to))
    {
      var to := StatusOfDelivery(d);
      if to.None? { return Some(UnknownOutcome); }
      if id !in commands { return Some(NotFound); }
      if commands[id].status == to.value { return None; }
      if Terminal(commands[id].status) { return None; }
      r := SetCommandStatus(id, to.value);
    }

    /** Stores one result; a row that was accepted stays accepted only while it says the same. */
    method PersistResult(key: (nat, nat), row: Row)
      modifies this`rows
      ensures rows == old(rows)[key := Merged(old(rows), key, row)]
      ensures rows[key].validation == Accepted <==>
                row.validation == Accepted
                  && !(key in old(rows) && old(rows)[key].validation == Accepted && old(rows)[key].payload != row.payload)
      ensures rows[key] == row || (rows[key].validation == Disputed && rows[key].payload == row.payload)
      ensures key in old(rows) && old(rows)[key].validation == Accepted && rows[key].validation == Accepted ==>
                rows[key].payload == old(rows)[key].payload
    {
      if key in rows && rows[key].validation == Accepted && (row.validation != Accepted || rows[key].payload != row.payload) {
        rows := rows[key := row.(validation := Disputed)];
      } else {
        rows := rows[key := row];
      }
    }

    /** The different payloads accepted for a command. */
    method AcceptedHashes(project: nat, id: Id) returns (hashes: set<Payload>)
      ensures hashes == AcceptedPayloads(rows, project, id)
    {
      hashes := {};
      var left := rows.Keys;
      while left != {}
        invariant left <= rows.Keys
        invariant hashes == set k | k in rows && k !in left && k.0 == project && rows[k].command == id
                && rows[k].validation == Accepted :: rows[k].payload
      {
        var k :| k in left;
        if k.0 == project && rows[k].command == id && rows[k].validation == Accepted { hashes := hashes + {rows[k].payload}; }
        left := left - {k};
      }
    }

    /** Settles one command by its accepted results. */
    method ReconcileCommand(ghost was: Store, project: nat, ghost done: set<Id>, id: Id)
      requires Reconciled(was, State(), project, done) && id in commands && id !in done && KeyedById(was.commands)
      modifies this
      ensures Reconciled(was, State(), project, done + {id}) && commands.Keys == old(commands.Keys)
    {
      NotYet(was, State(), project, done, id);
      var c := commands[id];
      if c.status == Ambiguous || c.status == Superseded {
        ReconciledOne(was, State(), State(), project, done, id);
        return;
      }
      ghost var before := State();
      var hashes := AcceptedHashes(project, id);
      SettledClimbs(c, hashes);
      if |hashes| > 1 {
        MarkResultsAmbiguous(project, id);
        var _ := SetCommandStatus(id, Ambiguous);
      } else if hashes == {} {
        if Terminal(c.status) {
          var _ := SetCommandStatus(id, Ambiguous);
        }
      } else {
        var desired := StatusFor(Single(hashes));
        if c.status != desired {
          var _ := SetCommandStatus(id, if Terminal(c.status) then Ambiguous else desired);
        }
      }
      ReconciledOne(was, before, State(), project, done, id);
    }

    /** Afterwards the command has no accepted result, and every other command has the ones it had. */
    method MarkResultsAmbiguous(project: nat, id: Id)
      modifies this`rows
      ensures AcceptedPayloads(rows, project, id) == {}
      ensures forall p, x :: p != project || x != id ==> AcceptedPayloads(rows, p, x) == AcceptedPayloads(old(rows), p, x)
      ensures rows == map k | k in old(rows) ::
                if k.0 == project && old(rows)[k].command == id && old(rows)[k].validation == Accepted
                then old(rows)[k].(validation := Disputed) else old(rows)[k]
    {
      rows := map k | k in rows ::
        if k.0 == project && rows[k].command == id
          && rows[k].validation == Accepted then rows[k].(validation := Disputed) else rows[k];
    }

    method ObserveProjectSnapshot(s: Snapshot, pat: Patterns)
      requires WellFormed(s) && KeyedById(commands)
      modifies this
      ensures Next(old(State()), Observe(s, pat), State()) && KeyedById(commands)
    {
      hide Recorded, Reconciled, InConflict, WellFormed, AcceptedPayloads, Synced;
      ghost var was := State();
      StoreComments(s, pat);
      ghost var mid := State();
      assert mid.commands == was.commands;
      ghost var done: set<Id> := {};
      NothingReconciled(mid, s.project);
      assert Synced(was.commands, s.project, s.issues[..0]) == {} by { NoneSynced(was.commands, s.project, s.issues[..0]); }
      var i := 0;
      while i < |s.issues|
        invariant 0 <= i <= |s.issues|
        invariant Reconciled(mid, State(), s.project, done) && done == Synced(was.commands, s.project, s.issues[..i])
      {
        var left := set id | id in commands && commands[id].project == s.project && commands[id].issue == s.issues[i];
        SyncedNext(was.commands, s, i);
        ReconciledScope(mid, State(), s.project, done);
        assert done + left == Synced(was.commands, s.project, s.issues[..i + 1]);
        while left != {}
          invariant Reconciled(mid, State(), s.project, done)
          invariant left <= commands.Keys && done !! left
          invariant done + left == Synced(was.commands, s.project, s.issues[..i + 1])
        {
          var id :| id in left;
          ReconcileCommand(mid, s.project, done, id);
          done := done + {id};
          left := left - {id};
        }
        i := i + 1;
      }
      assert s.issues[..i] == s.issues;
      ReconciledScope(mid, State(), s.project, done);
    }

    /** Stores a row for every marked comment and deletes every other row of the project. */
    method StoreComments(s: Snapshot, pat: Patterns)
      requires WellFormed(s)
      modifies this`rows
      ensures Recorded(old(rows), rows, commands, s, pat)
    {
      ghost var was := rows;
      var seen: set<nat> := {};
      var i := 0;
      while i < |s.comments|
        invariant 0 <= i <= |s.comments|
        invariant Stored(was, rows, commands, s, pat, i)
        invariant forall id :: id in seen <==> exists a :: 0 <= a < i && s.comments[a].marker.Some? && s.comments[a].id == id
      {
        var x := s.comments[i];
        ghost var before := rows;
        if x.marker.None? {
          rows := rows - {(s.project, x.id)};
        } else {
          seen := seen + {x.id};
          PersistResult((s.project, x.id), RowFor(commands, s.project, x, pat));
        }
        StoredNext(was, before, rows, commands, s, pat, i);
        i := i + 1;
      }
      ghost var stored := rows;
      rows := map k | k in rows && (k.0 != s.project || k.1 in seen) :: rows[k];
      StoredRecorded(was, stored, rows, commands, s, pat, seen);
    }
  }

  lemma NothingReconciled(was: Store, project: nat)
    ensures Reconciled(was, was, project, {})
  {
  }

  lemma NoneSynced(cs: Commands, project: nat, issues: seq<nat>)
    requires issues == []
    ensures Synced(cs, project, issues) == {}
  {
  }

  lemma SyncedNext(cs: Commands, s: Snapshot, i: nat)
    requires WellFormed(s) && i < |s.issues|
    ensures var more := set id | id in cs && cs[id].project == s.project && cs[id].issue == s.issues[i];
            && Synced(cs, s.project, s.issues[..i]) !! more
            && Synced(cs, s.project, s.issues[..i + 1]) == Synced(cs, s.project, s.issues[..i]) + more
  {
    assert s.issues[..i + 1] == s.issues[..i] + [s.issues[i]];
  }

  lemma StoredHere(was: Rows, before: Rows, now: Rows, cs: Commands, s: Snapshot, pat: Patterns, i: nat)
    requires WellFormed(s) && i < |s.comments| && Stored(was, before, cs, s, pat, i)
    requires now == After(before, cs, s, pat, i)
    ensures StoredAt(was, now, cs, s, pat, i)
    ensures forall j: (nat, nat) :: j != (s.project, s.comments[i].id) ==>
            (j in now <==> j in before) && (j in before ==> now[j] == before[j])
  {
    hide RowFor;
    var k := (s.project, s.comments[i].id);
    assert forall a :: 0 <= a < i ==> s.comments[a].id != k.1;
    assert (k in was <==> k in before) && (k in was ==> before[k] == was[k]);
  }

  /** What the i-th comment does to the rows. */
  function After(before: Rows, cs: Commands, s: Snapshot, pat: Patterns, i: nat): Rows
    requires i < |s.comments|
  {
    var x := s.comments[i];
    var k := (s.project, x.id);
    if x.marker.None? then before - {k} else before[k := Merged(before, k, RowFor(cs, s.project, x, pat))]
  }

  lemma StoredNext(was: Rows, before: Rows, now: Rows, cs: Commands, s: Snapshot, pat: Patterns, i: nat)
    requires WellFormed(s) && i < |s.comments| && Stored(was, before, cs, s, pat, i)
    requires now == After(before, cs, s, pat, i)
    ensures Stored(was, now, cs, s, pat, i + 1)
  {
    StoredHere(was, before, now, cs, s, pat, i);
    hide Merged, RowFor, After;
    var k := (s.project, s.comments[i].id);
    forall a | 0 <= a < i + 1
      ensures StoredAt(was, now, cs, s, pat, a)
    {
      if a < i { assert StoredAt(was, before, cs, s, pat, a); }
    }
    forall j: (nat, nat) | j.0 != s.project || forall a :: 0 <= a < i + 1 ==> s.comments[a].id != j.1
      ensures (j in was <==> j in now) && (j in was ==> now[j] == was[j])
    {
      assert j != k;
    }
  }

  lemma StoredRecorded(was: Rows, stored: Rows, now: Rows, cs: Commands, s: Snapshot, pat: Patterns, seen: set<nat>)
    requires Stored(was, stored, cs, s, pat, |s.comments|)
    requires now == map k | k in stored && (k.0 != s.project || k.1 in seen) :: stored[k]
    requires forall id :: id in seen <==> Marked(s, id)
    ensures Recorded(was, now, cs, s, pat)
  {
    hide Correlated, Merged;
    forall a | 0 <= a < |s.comments| && s.comments[a].marker.Some?
      ensures s.comments[a].id in seen && StoredAt(was, stored, cs, s, pat, a)
    {
      assert Marked(s, s.comments[a].id);
    }
  }

  /** A command not reconciled yet, and the results that name it, are as they were. */
  lemma NotYet(was: Store, now: Store, project: nat, done: set<Id>, id: Id)
    requires Reconciled(was, now, project, done) && id in was.commands && id !in done
    ensures now.commands[id] == was.commands[id]
    ensures AcceptedPayloads(now.rows, project, id) == AcceptedPayloads(was.rows, project, id)
    ensures forall k :: k in now.rows && now.rows[k].command == id ==> now.rows[k] == was.rows[k]
  {
    forall k: (nat, nat) | k in was.rows
      ensures now.rows[k].command == was.rows[k].command
      ensures was.rows[k].command == id ==> now.rows[k] == was.rows[k]
    {
    }
  }

  /** One more command settled, its conflicting results disputed, and nothing else changed. */
  lemma ReconciledOne(was: Store, before: Store, now: Store, project: nat, done: set<Id>, id: Id)
    requires Reconciled(was, before, project, done) && id in was.commands && id !in done
    requires var c := was.commands[id];
             var accepted := AcceptedPayloads(was.rows, project, id);
             && now.commands == before.commands[id := c.(status := Settled(c, accepted))]
             && now.rows.Keys == before.rows.Keys
             && forall k :: k in before.rows ==>
                  now.rows[k] == if Conflicted(c, accepted) && k.0 == project && before.rows[k].command == id
                    && before.rows[k].validation == Accepted
                                 then before.rows[k].(validation := Disputed) else before.rows[k]
    ensures Reconciled(was, now, project, done + {id})
  {
    hide Settled, AcceptedPayloads, Conflicted;
    NotYet(was, before, project, done, id);
  }
}

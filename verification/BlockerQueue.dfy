/**
 The queue of unresolved blockers (backend/internal/workflow/derive_evidence.go).

 Results arrive in order; a blocked result queues up, a Lead result may resolve queued ones. The first of the queue is
 the active blocker.
 */
module BlockerQueue {
  import opened Prelude

  datatype Role = Lead | Implementor | QA | OtherRole(name: Id)

  datatype Status = Completed | Blocked | NoOp | Continuing | Inconclusive | OtherStatus(name: Id)

  datatype Decision =
    | NoDecision | DispatchNext | ContinueWork | Correct | Resume | ReadyToMerge | OwnerRequired | OtherDecision(name: Id)

  datatype Verdict = NoVerdict | Approved | ChangesRequired | InconclusiveVerdict | OtherVerdict(name: Id)

  datatype Target = Nobody | Owner | OtherTarget(name: Id)

  /** A decoded `resolves` value; numbers and texts carry the 64-bit integer they parse to, if any. */
  datatype Json =
    | Number(parsed: Option<int>)
    | Text(parsed: Option<int>)
    | List(items: seq<Json>)
    | Object(commentId: Option<Json>, id: Option<Json>)
    | OtherJson

  /** Whether a `resolves` field is there, and what it holds. */
  datatype Resolves = Absent | Undecodable | Value(json: Json)

  datatype Evidence = Evidence(
    commentId: int, role: Role, status: Status, head: string, verdict: Verdict, decision: Decision,
    resumeRole: Option<Role>, resolves: Resolves, escalateTo: Target, command: Option<Id>, ciQueued: bool, findings: int,
    effective: bool, stale: bool)

  // ---------------------------------------------------------------- what a resolves value names

  /** Does the value name the comment? */
  predicate Names(v: Json, id: int) {
    match v
    case Number(p) => p == Some(id)
    case Text(p) => p == Some(id)
    case List(items) => exists i :: 0 <= i < |items| && Names(items[i], id)
    case Object(c, d) => if c.Some? then Names(c.value, id) else d.Some? && Names(d.value, id)
    case OtherJson => false
  }

  /** Matching as the source computes it: whether the value names the comment, and whether any of it was understood. */
  function ResolutionValueMatches(v: Json, id: int): (bool, bool)
    decreases v, if v.List? then |v.items| + 2 else 0
  {
    match v
    case Number(p) => (p == Some(id), p.Some?)
    case Text(p) => (p == Some(id), p.Some?)
    case List(items) => AnyItemMatches(v, 0, false, id)
    case Object(c, d) =>
      if c.Some? then ResolutionValueMatches(c.value, id)
      else if d.Some? then ResolutionValueMatches(d.value, id)
      else (false, false)
    case OtherJson => (false, false)
  }

  function AnyItemMatches(v: Json, i: nat, understood: bool, id: int): (bool, bool)
    requires v.List? && i <= |v.items|
    decreases v, |v.items| - i + 1
  {
    if i == |v.items| then (false, understood)
    else
      var (matches, itemUnderstood) := ResolutionValueMatches(v.items[i], id);
      if matches then (true, true) else AnyItemMatches(v, i + 1, understood || itemUnderstood, id)
  }

  /** Is there anything in the value that can be read as an identifier? */
  predicate Readable(v: Json) {
    match v
    case Number(p) => p.Some?
    case Text(p) => p.Some?
    case List(items) => exists i :: 0 <= i < |items| && Readable(items[i])
    case Object(c, d) => if c.Some? then Readable(c.value) else d.Some? && Readable(d.value)
    case OtherJson => false
  }

  /** A value matches exactly when it names the comment, and is understood exactly when it can be read. */
  lemma {:induction false} MatchesIffNames(v: Json, id: int)
    ensures ResolutionValueMatches(v, id).0 <==> Names(v, id)
    ensures ResolutionValueMatches(v, id).0 ==> ResolutionValueMatches(v, id).1
    ensures ResolutionValueMatches(v, id).1 <==> Readable(v)
    decreases v, if v.List? then |v.items| + 2 else 0
  {
    match v
    case List(items) => ItemsMatchIffNamed(v, 0, false, id);
    case Object(c, d) =>
      if c.Some? { MatchesIffNames(c.value, id); } else if d.Some? { MatchesIffNames(d.value, id); }
    case _ =>
  }

  lemma {:induction false} ItemsMatchIffNamed(v: Json, i: nat, understood: bool, id: int)
    requires v.List? && i <= |v.items|
    ensures AnyItemMatches(v, i, understood, id).0 <==> exists j :: i <= j < |v.items| && Names(v.items[j], id)
    ensures AnyItemMatches(v, i, understood, id).0 ==> AnyItemMatches(v, i, understood, id).1
    ensures AnyItemMatches(v, i, understood, id).1 <==> understood || exists j :: i <= j < |v.items| && Readable(v.items[j])
    decreases v, |v.items| - i + 1
  {
    if i < |v.items| {
      MatchesIffNames(v.items[i], id);
      ItemsMatchIffNamed(v, i + 1, understood || ResolutionValueMatches(v.items[i], id).1, id);
    }
  }

  function ResolvesComment(r: Resolves, id: int): (bool, bool) {
    if r.Value? then ResolutionValueMatches(r.json, id) else (false, false)
  }

  predicate Matches(r: Evidence, id: int) {
    ResolvesComment(r.resolves, id).0
  }

  // ---------------------------------------------------------------- Lead results

  predicate LeadOwnerEscalation(r: Evidence) {
    r.role == Lead && r.effective && (r.escalateTo == Owner || r.decision == OwnerRequired)
  }

  predicate LeadResumeRoleAllowed(role: Option<Role>) {
    role == Some(Implementor) || role == Some(QA)
  }

  predicate LeadResolutionIntent(r: Evidence) {
    r.decision != NoDecision || r.resumeRole.Some? || r.resolves != Absent || r.escalateTo != Nobody
  }

  predicate LeadResolutionActionable(r: Evidence) {
    r.role == Lead && r.effective
    && (LeadOwnerEscalation(r)
        || ((r.status == Completed || r.status == NoOp) && LeadResumeRoleAllowed(r.resumeRole)
            && (r.decision == ContinueWork || r.decision == Correct || r.decision == Resume)))
  }

  /** An effective, actionable Lead result that does not escalate: the only kind that can resolve a blocker. */
  predicate CanResolve(r: Evidence) {
    LeadResolutionActionable(r) && !LeadOwnerEscalation(r)
  }

  // ---------------------------------------------------------------- the queue

  function Unresolved(q: seq<Evidence>, r: Evidence): seq<Evidence> {
    if q == [] then []
    else
      var rest := Unresolved(q[..|q| - 1], r);
      if Matches(r, q[|q| - 1].commentId) then rest else rest + [q[|q| - 1]]
  }

  predicate Contains(q: seq<Evidence>, id: int) {
    exists i :: 0 <= i < |q| && q[i].commentId == id
  }

  /** Does the result resolve the active blocker of the queue? */
  predicate Resolving(q: seq<Evidence>, r: Evidence) {
    q != [] && CanResolve(r) && Matches(r, q[0].commentId)
  }

  predicate CorrelatedEscalation(q: seq<Evidence>, r: Evidence) {
    q != [] && LeadOwnerEscalation(r) && Matches(r, q[0].commentId)
  }

  function AfterResolution(q: seq<Evidence>, r: Evidence): seq<Evidence> {
    if Resolving(q, r) then Unresolved(q, r) else q
  }

  predicate Enters(q: seq<Evidence>, r: Evidence) {
    r.status == Blocked && r.effective && !CorrelatedEscalation(q, r) && !Contains(AfterResolution(q, r), r.commentId)
  }

  function Next(q: seq<Evidence>, r: Evidence): seq<Evidence> {
    AfterResolution(q, r) + (if Enters(q, r) then [r] else [])
  }

  /** The queue after a list of results. */
  function Queue(rs: seq<Evidence>): seq<Evidence> {
    if rs == [] then [] else Next(Queue(rs[..|rs| - 1]), rs[|rs| - 1])
  }

  datatype WarningCode =
    NonActionable | MissingResolution | UnknownResolution | UnmatchedResolution | AdditionalBlocker

  datatype Warning = Warning(commentId: int, code: WarningCode)

  /** The warnings a Lead result earns for how it speaks of the active blocker. */
  function LeadWarnings(q: seq<Evidence>, r: Evidence): seq<Warning> {
    if !(r.role == Lead && r.effective && q != [] && LeadResolutionIntent(r)) then []
    else if !LeadResolutionActionable(r) then [Warning(r.commentId, NonActionable)]
    else
      var (matches, understood) := ResolvesComment(r.resolves, q[0].commentId);
      if matches then []
      else if r.resolves == Absent then [Warning(r.commentId, MissingResolution)]
      else if !understood then [Warning(r.commentId, UnknownResolution)]
      else [Warning(r.commentId, UnmatchedResolution)]
  }

  /** The warnings one result adds. */
  function Told(q: seq<Evidence>, r: Evidence): seq<Warning> {
    LeadWarnings(q, r) + (if Enters(q, r) && AfterResolution(q, r) != [] then [Warning(r.commentId, AdditionalBlocker)] else [])
  }

  function Warnings(rs: seq<Evidence>): seq<Warning> {
    if rs == [] then [] else Warnings(rs[..|rs| - 1]) + Told(Queue(rs[..|rs| - 1]), rs[|rs| - 1])
  }

  /** What a Lead result does to the queue: resolve, escalate, or earn a warning. */
  method HearLead(unresolved: seq<Evidence>, r: Evidence) returns (left: seq<Evidence>, escalated: bool, told: seq<Warning>)
    ensures left == AfterResolution(unresolved, r) && escalated == CorrelatedEscalation(unresolved, r)
    ensures told == LeadWarnings(unresolved, r)
  {
    left, escalated, told := unresolved, false, [];
    if r.role == Lead && r.effective && |unresolved| > 0 && LeadResolutionIntent(r) {
      var first := unresolved[0];
      if !LeadResolutionActionable(r) {
        told := [Warning(r.commentId, NonActionable)];
      } else {
        var (matches, understood) := ResolvesComment(r.resolves, first.commentId);
        if matches && LeadOwnerEscalation(r) {
          escalated := true;
        } else if matches {
          left := UnresolvedAfterResolution(unresolved, r);
        } else if r.resolves == Absent {
          told := [Warning(r.commentId, MissingResolution)];
        } else if !understood {
          told := [Warning(r.commentId, UnknownResolution)];
        } else {
          told := [Warning(r.commentId, UnmatchedResolution)];
        }
      }
    }
  }

  method ActiveBlocker(results: seq<Evidence>) returns (active: Option<Evidence>, warnings: seq<Warning>)
    ensures active == if Queue(results) == [] then None else Some(Queue(results)[0])
    ensures warnings == Warnings(results)
  {
    hide AfterResolution, CorrelatedEscalation, LeadWarnings, Contains;
    var unresolved: seq<Evidence> := [];
    warnings := [];
    var n := 0;
    while n < |results|
      invariant 0 <= n <= |results| && unresolved == Queue(results[..n]) && warnings == Warnings(results[..n])
    {
      var r := results[n];
      assert results[..n + 1][..n] == results[..n];
      ghost var before := warnings;
      var left, correlatedOwnerEscalation, told := HearLead(unresolved, r);
      unresolved, warnings := left, warnings + told;
      var known := ContainsBlocker(unresolved, r.commentId);
      if r.status == Blocked && r.effective && !correlatedOwnerEscalation && !known {
        unresolved := unresolved + [r];
        if |unresolved| > 1 {
          warnings := warnings + [Warning(r.commentId, AdditionalBlocker)];
        }
      }
      assert warnings == before + Told(Queue(results[..n]), r);
      n := n + 1;
    }
    assert results[..n] == results;
    active := if |unresolved| == 0 then None else Some(unresolved[0]);
  }

  method UnresolvedAfterResolution(blockers: seq<Evidence>, r: Evidence) returns (remaining: seq<Evidence>)
    ensures remaining == Unresolved(blockers, r)
  {
    remaining := [];
    var i := 0;
    while i < |blockers|
      invariant 0 <= i <= |blockers| && remaining == Unresolved(blockers[..i], r)
    {
      assert blockers[..i + 1][..i] == blockers[..i];
      if !Matches(r, blockers[i].commentId) { remaining := remaining + [blockers[i]]; }
      i := i + 1;
    }
    assert blockers[..i] == blockers;
  }

  method ContainsBlocker(blockers: seq<Evidence>, id: int) returns (found: bool)
    ensures found == Contains(blockers, id)
  {
    var i := 0;
    while i < |blockers|
      invariant 0 <= i <= |blockers| && forall j :: 0 <= j < i ==> blockers[j].commentId != id
    {
      if blockers[i].commentId == id { return true; }
      i := i + 1;
    }
    return false;
  }

  // ---------------------------------------------------------------- laws

  /** Resolution keeps exactly the queued blockers it does not match, in their order. */
  lemma {:induction false} UnresolvedExactly(q: seq<Evidence>, r: Evidence, x: Evidence)
    ensures x in Unresolved(q, r) <==> x in q && !Matches(r, x.commentId)
  {
    if q != [] {
      UnresolvedExactly(q[..|q| - 1], r, x);
      assert q == q[..|q| - 1] + [q[|q| - 1]];
    }
  }

  ghost predicate UniqueIds(q: seq<Evidence>) {
    forall i, j :: 0 <= i < j < |q| ==> q[i].commentId != q[j].commentId
  }

  ghost predicate AllBlocked(q: seq<Evidence>) {
    forall i :: 0 <= i < |q| ==> q[i].status == Blocked && q[i].effective
  }

  /** Where the queued blockers were among the results. */
  ghost predicate Located(q: seq<Evidence>, rs: seq<Evidence>, at: seq<nat>) {
    && |at| == |q|
    && (forall i :: 0 <= i < |at| ==> at[i] < |rs| && q[i] == rs[at[i]])
    && (forall i, j :: 0 <= i < j < |at| ==> at[i] < at[j])
  }

  lemma {:induction false} UnresolvedUnique(q: seq<Evidence>, r: Evidence)
    requires UniqueIds(q)
    ensures UniqueIds(Unresolved(q, r))
  {
    if q != [] {
      var n := |q| - 1;
      UnresolvedUnique(q[..n], r);
      forall x | x in Unresolved(q[..n], r)
        ensures x.commentId != q[n].commentId
      {
        UnresolvedExactly(q[..n], r, x);
      }
    }
  }

  lemma LocatedPrefix(q: seq<Evidence>, rs: seq<Evidence>, at: seq<nat>)
    requires Located(q, rs, at) && q != []
    ensures var n := |q| - 1;
            Located(q[..n], rs, at[..n]) && at[n] < |rs| && q[n] == rs[at[n]]
              && (forall p :: p in at[..n] ==> p < at[n] && p in at) && at[n] in at
  {
  }

  lemma LocatedSnoc(q: seq<Evidence>, rs: seq<Evidence>, at: seq<nat>, p: nat)
    requires Located(q, rs, at) && p < |rs| && forall x :: x in at ==> x < p
    ensures Located(q + [rs[p]], rs, at + [p])
  {
    assert forall i :: 0 <= i < |at| ==> at[i] in at;
  }

  lemma {:induction false} UnresolvedLocated(q: seq<Evidence>, r: Evidence, rs: seq<Evidence>, at: seq<nat>) returns (left: seq<nat>)
    requires Located(q, rs, at)
    ensures Located(Unresolved(q, r), rs, left)
    ensures forall p :: p in left ==> p in at
  {
    if q == [] {
      left := [];
    } else {
      hide Matches, Located;
      var n := |q| - 1;
      LocatedPrefix(q, rs, at);
      AtLength(q, rs, at);
      var rest := UnresolvedLocated(q[..n], r, rs, at[..n]);
      if Matches(r, q[n].commentId) {
        left := rest;
      } else {
        LocatedSnoc(Unresolved(q[..n], r), rs, rest, at[n]);
        left := rest + [at[n]];
      }
    }
  }

  lemma AtLength(q: seq<Evidence>, rs: seq<Evidence>, at: seq<nat>)
    requires Located(q, rs, at)
    ensures |at| == |q|
  {
  }

  ghost predicate InOrder(q: seq<Evidence>, rs: seq<Evidence>, at: seq<nat>) {
    Located(q, rs, at) && UniqueIds(q) && AllBlocked(q)
  }

  lemma ResolutionInOrder(q: seq<Evidence>, r: Evidence, rs: seq<Evidence>, at: seq<nat>) returns (left: seq<nat>)
    requires InOrder(q, rs, at)
    ensures InOrder(AfterResolution(q, r), rs, left)
  {
    left := at;
    if Resolving(q, r) {
      left := UnresolvedLocated(q, r, rs, at);
      UnresolvedUnique(q, r);
      forall x | x in Unresolved(q, r)
        ensures x.status == Blocked && x.effective
      {
        UnresolvedExactly(q, r, x);
      }
    }
  }

  lemma LaterInOrder(m: seq<Evidence>, was: seq<Evidence>, r: Evidence, at: seq<nat>)
    requires InOrder(m, was, at)
    ensures InOrder(m, was + [r], at)
  {
  }

  lemma JoinInOrder(m: seq<Evidence>, was: seq<Evidence>, r: Evidence, at: seq<nat>)
    requires InOrder(m, was, at) && r.status == Blocked && r.effective && !Contains(m, r.commentId)
    ensures InOrder(m + [r], was + [r], at + [|was|])
  {
  }

  lemma EntryInOrder(q: seq<Evidence>, was: seq<Evidence>, r: Evidence, at: seq<nat>) returns (now: seq<nat>)
    requires InOrder(AfterResolution(q, r), was, at)
    ensures InOrder(Next(q, r), was + [r], now)
  {
    hide AfterResolution, CorrelatedEscalation, InOrder, Contains;
    var m := AfterResolution(q, r);
    now := if Enters(q, r) then at + [|was|] else at;
    if Enters(q, r) {
      JoinInOrder(m, was, r, at);
    } else {
      LaterInOrder(m, was, r, at);
      assert Next(q, r) == m;
    }
  }

  /** The queue always holds effective blocked results, each comment once, in the order they arrived. */
  lemma {:induction false} QueueInOrder(rs: seq<Evidence>) returns (at: seq<nat>)
    ensures InOrder(Queue(rs), rs, at)
    decreases |rs|
  {
    if rs == [] {
      at := [];
    } else {
      hide InOrder, Next;
      at := QueueInOrder(rs[..|rs| - 1]);
      at := ResolutionInOrder(Queue(rs[..|rs| - 1]), rs[|rs| - 1], rs[..|rs| - 1], at);
      at := EntryInOrder(Queue(rs[..|rs| - 1]), rs[..|rs| - 1], rs[|rs| - 1], at);
      assert rs[..|rs| - 1] + [rs[|rs| - 1]] == rs;
    }
  }

  /** An owner escalation never removes a blocker. */
  lemma EscalationKeepsQueue(rs: seq<Evidence>, r: Evidence)
    requires LeadOwnerEscalation(r)
    ensures Queue(rs) <= Queue(rs + [r])
  {
    assert (rs + [r])[..|rs|] == rs;
  }

  /** A Lead result that hands the work back to a worker, with its blocker named. */
  predicate CallsOff(r: Evidence, id: int) {
    && r.role == Lead && r.effective && (r.status == Completed || r.status == NoOp)
    && (r.resumeRole == Some(Implementor) || r.resumeRole == Some(QA))
    && (r.decision == ContinueWork || r.decision == Correct || r.decision == Resume) && r.escalateTo != Owner
    && r.resolves.Value? && Names(r.resolves.json, id)
  }

  lemma CallsOffIff(r: Evidence, id: int)
    ensures CanResolve(r) && Matches(r, id) <==> CallsOff(r, id)
  {
    if r.resolves.Value? { MatchesIffNames(r.resolves.json, id); }
  }

  /** A Lead result that says anything about blockers while one is active, and the warning it earns. */
  lemma LeadWarningsIff(q: seq<Evidence>, r: Evidence)
    ensures var says := r.decision != NoDecision || r.resumeRole.Some? || r.resolves != Absent || r.escalateTo != Nobody;
            var escalates := r.escalateTo == Owner || r.decision == OwnerRequired;
            var hands := && (r.status == Completed || r.status == NoOp)
              && (r.resumeRole == Some(Implementor) || r.resumeRole == Some(QA))
                         && (r.decision == ContinueWork || r.decision == Correct || r.decision == Resume);
            if !(r.role == Lead && r.effective && q != [] && says) then LeadWarnings(q, r) == []
            else if !escalates && !hands then LeadWarnings(q, r) == [Warning(r.commentId, NonActionable)]
            else if r.resolves == Absent then LeadWarnings(q, r) == [Warning(r.commentId, MissingResolution)]
            else if r.resolves == Undecodable || !Readable(r.resolves.json) then LeadWarnings(q, r) == [Warning(r.commentId, UnknownResolution)]
            else if Names(r.resolves.json, q[0].commentId) then LeadWarnings(q, r) == []
            else LeadWarnings(q, r) == [Warning(r.commentId, UnmatchedResolution)]
  {
    if r.resolves.Value? && q != [] { MatchesIffNames(r.resolves.json, q[0].commentId); }
    hide ResolutionValueMatches, Names, Readable;
  }

  /**
   Appending a result changes the active blocker exactly when it is an effective, actionable, non-escalating Lead result
   whose resolves value names it.
   */
  lemma ActiveChangesIff(rs: seq<Evidence>, r: Evidence)
    requires Queue(rs) != []
    ensures var first := Queue(rs)[0];
            (Queue(rs + [r]) != [] && Queue(rs + [r])[0] == first) <==> !CallsOff(r, first.commentId)
  {
    var q := Queue(rs);
    CallsOffIff(r, q[0].commentId);
    hide CallsOff, Names;
    assert (rs + [r])[..|rs|] == rs;
    if Resolving(q, r) {
      UnresolvedExactly(q, r, q[0]);
      assert CanResolve(r) && r.status != Blocked;
    }
  }

  /** Once active, a blocker stays active through any further results none of which resolves it. */
  lemma {:induction false} ActiveStays(rs: seq<Evidence>, more: seq<Evidence>)
    requires Queue(rs) != []
    requires forall i :: 0 <= i < |more| ==> !CallsOff(more[i], Queue(rs)[0].commentId)
    ensures Queue(rs + more) != [] && Queue(rs + more)[0] == Queue(rs)[0]
    decreases |more|
  {
    if more == [] {
      assert rs + more == rs;
    } else {
      var n := |more| - 1;
      ActiveStays(rs, more[..n]);
      ActiveChangesIff(rs + more[..n], more[n]);
      assert rs + more[..n] + [more[n]] == rs + more;
    }
  }

  /** Some later result resolved the blocker that entered at `i`. */
  ghost predicate ResolvedAfter(rs: seq<Evidence>, i: nat)
    requires i < |rs|
  {
    exists j :: i < j < |rs| && Resolving(Queue(rs[..j]), rs[j]) && Matches(rs[j], rs[i].commentId)
  }

  /** The result at `i` joined the queue when it arrived. */
  ghost predicate Entered(rs: seq<Evidence>, i: nat)
    requires i < |rs|
  {
    Enters(Queue(rs[..i]), rs[i])
  }

  lemma ResolvedAfterStep(rs: seq<Evidence>, i: nat)
    requires i < |rs| - 1
    ensures var n := |rs| - 1;
            ResolvedAfter(rs, i) <==>
            ResolvedAfter(rs[..n], i) || (Resolving(Queue(rs[..n]), rs[n]) && Matches(rs[n], rs[i].commentId))
  {
    hide Queue, Resolving, Matches;
    var n := |rs| - 1;
    assert forall j :: 0 <= j <= n ==> rs[..n][..j] == rs[..j];
    if ResolvedAfter(rs, i) {
      var j :| i < j < |rs| && Resolving(Queue(rs[..j]), rs[j]) && Matches(rs[j], rs[i].commentId);
      assert j < n ==> rs[..n][..j] == rs[..j];
    }
    if ResolvedAfter(rs[..n], i) {
      var j :| i < j < n && Resolving(Queue(rs[..n][..j]), rs[..n][j]) && Matches(rs[..n][j], rs[..n][i].commentId);
      assert rs[..n][..j] == rs[..j];
    }
  }

  /** One more result leaves a queued blocker queued unless it resolves it. */
  lemma StillQueued(q: seq<Evidence>, r: Evidence, x: Evidence)
    requires r.commentId != x.commentId
    ensures x in Next(q, r) <==> x in q && !(Resolving(q, r) && Matches(r, x.commentId))
  {
    UnresolvedExactly(q, r, x);
    assert x in Next(q, r) <==> x in AfterResolution(q, r);
  }

  lemma JustEntered(q: seq<Evidence>, r: Evidence)
    requires Enters(q, r)
    ensures r in Next(q, r)
  {
    assert Next(q, r)[|AfterResolution(q, r)|] == r;
  }

  /** A result is queued at the end exactly when it entered and nothing resolved it since. */
  lemma {:induction false} QueuedIff(rs: seq<Evidence>, i: nat)
    requires i < |rs| && Entered(rs, i)
    requires forall j :: 0 <= j < |rs| && j != i ==> rs[j].commentId != rs[i].commentId
    ensures rs[i] in Queue(rs) <==> !ResolvedAfter(rs, i)
    decreases |rs|
  {
    hide Resolving, Matches, Next, Enters;
    var n := |rs| - 1;
    assert Queue(rs) == Next(Queue(rs[..n]), rs[n]);
    hide Queue;
    if i == n {
      JustEntered(Queue(rs[..n]), rs[n]);
    } else {
      assert rs[..n][..i] == rs[..i];
      assert Entered(rs[..n], i);
      QueuedIff(rs[..n], i);
      StillQueued(Queue(rs[..n]), rs[n], rs[i]);
      ResolvedAfterStep(rs, i);
    }
  }
}

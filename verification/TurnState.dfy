/**
 The durable state of a Host turn and what it amounts to (backend/cmd/cddm-change).

 `Finish` says where a state on disk must end once its turn is completed, given the durable evidence of the turn. It is
 the common specification of live completion and of recovery.
 */
module TurnState {
  import opened Prelude

  datatype Mode = NoMode | Start | Resume | Rotate

  datatype Status =
    | WorktreeInitializing | Initializing | Running | Rotated
    | StartFailedNoThread | RotateFailedNoThread | ThreadMismatch | ResultIdentityMissing | CompletionUnknown
    | TurnFailed | EmptyResult | InvalidResult
    | Continuing | BlockerPending | Blocked | NoOp | InvalidNoOp
    | Publication(phase: Id)                 // whatever publication of a Candidate records

  datatype HistoryEntry = HistoryEntry(thread: Id, model: Id, reasoning: Id, turns: nat, reason: Id)

  /** The identity of the turn in progress; paths are named by the turn that owns them. */
  datatype ActiveTurn = ActiveTurn(
    pid: Option<nat>, mode: Mode, events: Id, result: Id, exitStatus: Id, previous: Id, reason: Id, model: Id, reasoning: Id)

  const IDLE := ActiveTurn(None, NoMode, BLANK, BLANK, BLANK, BLANK, BLANK, BLANK, BLANK)

  datatype Candidate = Candidate(result: Id, head: Id, parent: Id, remoteBefore: Id)

  const NO_CANDIDATE := Candidate(BLANK, BLANK, BLANK, BLANK)

  datatype State = State(
    thread: Id, model: Id, reasoning: Id, status: Status,
    threadTurns: nat, totalTurns: nat, generation: nat, history: seq<HistoryEntry>,
    candidate: Candidate, pr: Option<nat>, active: ActiveTurn,
    lastResult: Id, lastRc: Option<int>, lastCounted: Id)

  datatype Verdict = SaysContinue | SaysBlocked | SaysNoOp | SaysCandidate

  datatype ResultFile = Missing | Malformed | Says(verdict: Verdict)

  /** What a turn leaves behind besides the state: first thread of the event log, exit status, result file. */
  datatype Files = Files(threads: map<Id, Id>, exits: map<Id, int>, results: map<Id, ResultFile>)

  function FoundThread(f: Files, events: Id): Id {
    if events in f.threads then f.threads[events] else BLANK
  }

  function ResultOf(f: Files, result: Id): ResultFile {
    if result in f.results then f.results[result] else Missing
  }

  predicate Active(s: State) {
    !(s.active.mode == NoMode && s.active.pid.None? && s.active.events == BLANK && s.active.result == BLANK)
  }

  function FirstNonBlank(a: Id, b: Id): Id {
    if a == BLANK then b else a
  }

  // ---------------------------------------------------------------- thread identity

  function RotatedTo(s: State, found: Id, model: Id, reasoning: Id, reason: Id): State {
    s.(history := s.history + [HistoryEntry(s.thread, s.model, s.reasoning, s.threadTurns, reason)],
       thread := found, model := model, reasoning := reasoning, threadTurns := 0, generation := s.generation + 1,
       status := Rotated)
  }

  /** The thread identity recovery derives from the event log; `None` is a mismatch. */
  function Reconciled(s: State, f: Files): Option<State> {
    var found := FoundThread(f, s.active.events);
    if found == BLANK then None
    else
      match s.active.mode
      case Start =>
        if s.thread == BLANK then Some(s.(thread := found, status := Running))
        else if s.thread != found then None else Some(s)
      case Resume => if s.active.previous == BLANK || found != s.active.previous || s.thread != s.active.previous then None else Some(s)
      case Rotate =>
        if s.active.previous == BLANK || found == s.active.previous then None
        else if s.thread == s.active.previous
        then Some(RotatedTo(s, found, FirstNonBlank(s.active.model, s.model), FirstNonBlank(s.active.reasoning, s.reasoning), s.active.reason))
        else if s.thread != found then None else Some(s)
      case NoMode => None
  }

  // ---------------------------------------------------------------- counting and disposition

  function Counted(s: State, result: Id): State {
    if s.lastCounted == result then s
    else s.(threadTurns := s.threadTurns + 1, totalTurns := s.totalTurns + 1, lastCounted := result)
  }

  function Disposed(s: State, status: Status, result: Id, rc: int): State {
    s.(status := status, lastResult := result, lastRc := Some(rc))
  }

  function Cleared(s: State): State {
    s.(active := IDLE)
  }

  /** The disposition of a valid result that does not ask for publication. */
  function Dispatched(s: State, result: Id, v: Verdict, dirty: bool): State {
    match v
    case SaysContinue => Disposed(s, Continuing, result, 0)
    case SaysBlocked => Disposed(s, Blocked, result, 0)
    case SaysNoOp => if dirty then Disposed(s, InvalidNoOp, result, 14) else Disposed(s, NoOp, result, 0)
    case SaysCandidate => s
  }

  /** A turn whose end is decided by durable evidence: a matching thread, a result identity, an exit status. */
  predicate Decided(s: State, f: Files) {
    Active(s) && Reconciled(s, f).Some? && s.active.result != BLANK && s.active.exitStatus in f.exits
  }

  /** The state once counted and disposed, the active turn still recorded. */
  function Outcome(s: State, f: Files, dirty: bool): State
    requires Decided(s, f)
  {
    var result := s.active.result;
    Settled(Counted(Reconciled(s, f).value, result), result, f.exits[s.active.exitStatus], ResultOf(f, result), dirty)
  }

  /** The disposition of a counted turn by its exit status and its result file. */
  function Settled(c: State, result: Id, rc: int, file: ResultFile, dirty: bool): State {
    if rc != 0 then Disposed(c, TurnFailed, result, rc)
    else
      match file
      case Missing => Disposed(c, EmptyResult, result, 12)
      case Malformed => Disposed(c, InvalidResult, result, 13)
      case Says(v) => if c.lastResult == result then c else Dispatched(c, result, v, dirty)
  }

  /** Where a state ends once its turn is completed; `None` when the evidence does not decide the turn. */
  function Finish(s: State, f: Files, dirty: bool): Option<State> {
    if !Active(s) then Some(s)
    else if !Decided(s, f) then None
    else Some(Cleared(Outcome(s, f, dirty)))
  }

  /** A decided turn that asks for publication: its status and disposition belong to publication. */
  predicate Publishing(s: State, f: Files) {
    Decided(s, f) && f.exits[s.active.exitStatus] == 0 && ResultOf(f, s.active.result) == Says(SaysCandidate)
  }

  /** A state without the fields publication writes. */
  function Private(s: State): State {
    s.(status := Running, candidate := NO_CANDIDATE, pr := None, lastResult := BLANK, lastRc := None)
  }

  // ---------------------------------------------------------------- books

  function Sum(h: seq<HistoryEntry>): nat {
    if h == [] then 0 else Sum(h[..|h| - 1]) + h[|h| - 1].turns
  }

  lemma SumSnoc(h: seq<HistoryEntry>, e: HistoryEntry)
    ensures Sum(h + [e]) == Sum(h) + e.turns
  {
    assert (h + [e])[..|h|] == h;
  }

  /** Turn counts are conserved by rotation, and generations number the threads. */
  ghost predicate Book(s: State) {
    && s.totalTurns == s.threadTurns + Sum(s.history)
    && s.generation == |s.history| + 1
    && (s.thread == BLANK ==> s.totalTurns == 0 && s.history == [])
  }

  /** A disposed turn still recorded as active has already been bound and counted. */
  ghost predicate Sound(s: State, f: Files) {
    && Book(s)
    && (Active(s) && s.active.result != BLANK && s.lastResult == s.active.result ==>
          s.lastCounted == s.active.result && Reconciled(s, f) == Some(s))
  }

  /** The total a state stands for: what it counted, plus its decided turn if that is not counted yet. */
  function Due(s: State, f: Files): nat {
    if Decided(s, f) && s.lastCounted != s.active.result then s.totalTurns + 1 else s.totalTurns
  }

  /** `s` and `base` are the same turn, or `s` has completed it. */
  predicate SameTurn(base: State, s: State) {
    s.active == IDLE || s.active.(pid := None) == base.active.(pid := None)
  }

  /**
   `s` is a state the completion of `base`'s turn may leave on disk: from it the turn ends exactly as from `base`, the
   fields of publication aside if the turn publishes.
   */
  ghost predicate OnTrack(base: State, s: State, f: Files, dirty: bool) {
    && Sound(s, f) && SameTurn(base, s) && Due(s, f) == Due(base, f)
    && (if Publishing(base, f)
        then Finish(s, f, dirty).Some? && Private(Finish(s, f, dirty).value) == Private(Finish(base, f, dirty).value)
        else Finish(s, f, dirty) == Finish(base, f, dirty))
  }

  // ---------------------------------------------------------------- laws

  lemma OnTrackSelf(s: State, f: Files, dirty: bool)
    requires Sound(s, f)
    ensures OnTrack(s, s, f, dirty)
  {
  }

  /** Whatever is left on track ends as the turn would have, unless the turn exited well with a result that asks for publication. */
  lemma SameEnd(base: State, s: State, f: Files, dirty: bool)
    requires OnTrack(base, s, f, dirty)
    requires Decided(base, f) && f.exits[base.active.exitStatus] == 0 ==> ResultOf(f, base.active.result) != Says(SaysCandidate)
    ensures Finish(s, f, dirty) == Finish(base, f, dirty) && Due(s, f) == Due(base, f) && Book(s)
  {
    hide Finish, Due, Book, Reconciled;
  }

  lemma BoundBook(s: State, f: Files)
    requires Book(s) && Active(s) && Reconciled(s, f).Some?
    ensures var r := Reconciled(s, f).value;
            Book(r) && r.thread != BLANK && r.active == s.active && r.lastResult == s.lastResult && r.lastCounted == s.lastCounted
            && r.totalTurns == s.totalTurns && Reconciled(r, f) == Some(r)
  {
    SumSnoc(s.history, HistoryEntry(s.thread, s.model, s.reasoning, s.threadTurns, s.active.reason));
  }

  /**
   When the thread the event log names can be bound, and what binding it changes: a first thread is taken over; a rotation
   retires the thread it names, with its model, its settings, its turns and the reason, and starts counting afresh.
   */
  lemma BoundExactly(s: State, f: Files)
    ensures var found, previous := FoundThread(f, s.active.events), s.active.previous;
            Reconciled(s, f).Some? <==>
              && found != BLANK
              && (|| (s.active.mode == Start && (s.thread == BLANK || s.thread == found))
                  || (s.active.mode == Resume && previous == found == s.thread)
                  || (s.active.mode == Rotate && previous != BLANK && previous != found && (s.thread == previous || s.thread == found)))
    ensures Reconciled(s, f).Some? ==>
              var r := Reconciled(s, f).value;
              && r.thread == FoundThread(f, s.active.events) && (r == s <==> s.thread == r.thread)
              && (s.active.mode == Start && r != s ==> r == s.(thread := r.thread, status := Running))
              && (s.active.mode == Rotate && r != s ==>
                    && |r.history| == |s.history| + 1 && s.history <= r.history
                    && (var retired := r.history[|s.history|];
                        && retired.thread == s.active.previous == s.thread && retired.turns == s.threadTurns
                        && retired.model == s.model && retired.reasoning == s.reasoning && retired.reason == s.active.reason)
                    && r.threadTurns == 0 && r.generation == s.generation + 1 && r.status == Rotated
                    && (r.model == s.active.model || (s.active.model == BLANK && r.model == s.model))
                    && (r.reasoning == s.active.reasoning || (s.active.reasoning == BLANK && r.reasoning == s.reasoning))
                    && (r.totalTurns, r.candidate, r.pr, r.active, r.lastResult, r.lastRc, r.lastCounted)
                       == (s.totalTurns, s.candidate, s.pr, s.active, s.lastResult, s.lastRc, s.lastCounted))
  {
  }

  /** The status and return code a decided turn that does not publish ends with. */
  lemma EndsAs(s: State, f: Files, dirty: bool)
    requires Decided(s, f) && !(f.exits[s.active.exitStatus] == 0 && ResultOf(f, s.active.result) == Says(SaysCandidate))
    ensures var rc, file := f.exits[s.active.exitStatus], ResultOf(f, s.active.result);
            var e := Finish(s, f, dirty).value;
            && e.lastResult == s.active.result && e.lastCounted == s.active.result
            && (rc != 0 ==> e.status == TurnFailed && e.lastRc == Some(rc))
            && (rc == 0 && file.Missing? ==> e.status == EmptyResult && e.lastRc == Some(12))
            && (rc == 0 && file.Malformed? ==> e.status == InvalidResult && e.lastRc == Some(13))
            && (rc == 0 && file.Says? && s.lastResult == s.active.result ==>
                  e.lastRc == s.lastRc && e.status == Reconciled(s, f).value.status)
            && (rc == 0 && file.Says? && s.lastResult != s.active.result ==>
                  match file.verdict
                  case SaysContinue => e.status == Continuing && e.lastRc == Some(0)
                  case SaysBlocked => e.status == Blocked && e.lastRc == Some(0)
                  case SaysNoOp => if dirty then e.status == InvalidNoOp && e.lastRc == Some(14) else e.status == NoOp && e.lastRc == Some(0)
                  case SaysCandidate => true)
  {
    hide Active;
    BoundAgain(s, f);
  }

  /** Disposing of a turn touches neither counts nor thread. */
  lemma OutcomeKeeps(s: State, f: Files, dirty: bool)
    requires Decided(s, f)
    ensures var c := Counted(Reconciled(s, f).value, s.active.result);
            var o := Outcome(s, f, dirty);
            o == c.(status := o.status, lastResult := o.lastResult, lastRc := o.lastRc)
  {
    hide Reconciled, Counted;
  }

  lemma CountedBook(s: State, result: Id)
    requires Book(s) && s.thread != BLANK
    ensures var c := Counted(s, result);
            Book(c) && c.lastCounted == result && c.active == s.active
            && c.totalTurns == if s.lastCounted == result then s.totalTurns else s.totalTurns + 1
  {
  }

  /** Finishing a decided turn once more changes nothing; it counts the turn exactly once and leaves the books balanced. */
  lemma FinishSettles(s: State, f: Files, dirty: bool)
    requires Sound(s, f) && Finish(s, f, dirty).Some?
    ensures var e := Finish(s, f, dirty).value;
            && !Active(e) && Finish(e, f, dirty) == Some(e) && Book(e) && Sound(e, f)
            && e.totalTurns == Due(s, f) && (Active(s) ==> e.lastCounted == s.active.result)
  {
    hide Reconciled, Counted, Outcome;
    if Active(s) {
      BoundBook(s, f);
      CountedBook(Reconciled(s, f).value, s.active.result);
      OutcomeKeeps(s, f, dirty);
    }
  }

  // ---------------------------------------------------------------- steps that stay on track

  /** From an active state on track, the turn is the base's own. */
  lemma SameEvidence(base: State, s: State, f: Files, dirty: bool)
    requires OnTrack(base, s, f, dirty) && Decided(s, f)
    ensures Decided(base, f) && base.active.result == s.active.result && (Publishing(base, f) <==> Publishing(s, f))
  {
    hide Reconciled, Outcome, Due, Sound;
  }

  lemma BindOnTrack(base: State, s: State, f: Files, dirty: bool)
    requires OnTrack(base, s, f, dirty) && Active(s) && Reconciled(s, f).Some?
    ensures OnTrack(base, Reconciled(s, f).value, f, dirty)
  {
    var r := Reconciled(s, f).value;
    BoundBook(s, f);
    hide Reconciled, Counted, Book;
    assert Decided(s, f) ==> Outcome(r, f, dirty) == Outcome(s, f, dirty);
  }

  /** A state that only changes its status, its turn not yet disposed, still ends the same way. */
  lemma RestatusOnTrack(base: State, s: State, f: Files, dirty: bool, status: Status)
    requires OnTrack(base, s, f, dirty) && Active(s)
    requires !Decided(s, f) || s.lastResult != s.active.result
    ensures OnTrack(base, s.(status := status), f, dirty)
  {
    var t := s.(status := status);
    RestatusReconciled(s, f, status);
    if Decided(s, f) {
      SameEvidence(base, s, f, dirty);
      RestatusOutcome(s, f, dirty, status);
    }
    hide Reconciled, Outcome;
    assert Book(t) && (Sound(s, f) ==> Sound(t, f));
  }

  lemma RestatusReconciled(s: State, f: Files, status: Status)
    ensures var a, b := Reconciled(s, f), Reconciled(s.(status := status), f);
            a.Some? == b.Some? && (a.Some? ==> b.value == a.value || (a.value == s && b.value == s.(status := status)))
  {
  }

  lemma RestatusOutcome(s: State, f: Files, dirty: bool, status: Status)
    requires Decided(s, f) && Decided(s.(status := status), f) && s.lastResult != s.active.result
    ensures var a, b := Outcome(s, f, dirty), Outcome(s.(status := status), f, dirty);
            if Publishing(s, f) then Private(a) == Private(b) else a == b
  {
    RestatusReconciled(s, f, status);
    hide Reconciled;
  }

  /**
   Recovery binds the thread, and then cannot read an exit status that is there: what it leaves is the bound state with
   its status overwritten. The turn still ends the same way, unless it exited well with a valid result whose disposition
   is already recorded, or belongs to publication, so that the status is never written again.
   */
  lemma FailedReadIff(s: State, f: Files, dirty: bool)
    requires Decided(s, f)
    ensures var bound := Reconciled(s, f).value;
            var verdict := ResultOf(f, s.active.result);
            Finish(bound.(status := CompletionUnknown), f, dirty) == Finish(s, f, dirty)
            <==> !(&& f.exits[s.active.exitStatus] == 0 && verdict.Says? && bound.status != CompletionUnknown
                   && (bound.lastResult == s.active.result || verdict.verdict == SaysCandidate))
  {
    var bound := Reconciled(s, f).value;
    BoundAgain(s, f);
    RestatusReconciled(bound, f, CompletionUnknown);
    hide Reconciled;
    assert Reconciled(bound.(status := CompletionUnknown), f) == Some(bound.(status := CompletionUnknown));
  }

  /** A bound thread is bound for good, whatever the status. */
  lemma BoundAgain(s: State, f: Files)
    requires Reconciled(s, f).Some?
    ensures var bound := Reconciled(s, f).value;
            && bound.active == s.active && Reconciled(bound, f) == Some(bound)
            && Reconciled(bound.(status := CompletionUnknown), f) == Some(bound.(status := CompletionUnknown))
  {
  }

  /** A first turn that asked for publication, its thread not bound yet: after the failed read it ends with another status. */
  lemma FailedReadChangesEnd() returns (s: State, f: Files)
    ensures Decided(s, f) && s.thread == BLANK && Reconciled(s, f) != Some(s)
    ensures forall dirty :: Finish(Reconciled(s, f).value.(status := CompletionUnknown), f, dirty) != Finish(s, f, dirty)
  {
    s := State(BLANK, 1, 1, Initializing, 0, 0, 1, [], NO_CANDIDATE, None,
               ActiveTurn(None, Start, 2, 3, 4, BLANK, BLANK, 1, 1), BLANK, None, BLANK);
    f := Files(map[2 := 7], map[4 := 0], map[3 := Says(SaysCandidate)]);
    forall dirty
      ensures Finish(Reconciled(s, f).value.(status := CompletionUnknown), f, dirty) != Finish(s, f, dirty)
    {
      FailedReadIff(s, f, dirty);
    }
  }

  lemma CountOnTrack(base: State, s: State, f: Files, dirty: bool)
    requires OnTrack(base, s, f, dirty) && Decided(s, f) && Reconciled(s, f) == Some(s)
    ensures var c := Counted(s, s.active.result);
            && OnTrack(base, c, f, dirty) && Decided(c, f) && Reconciled(c, f) == Some(c)
            && Outcome(c, f, dirty) == Outcome(s, f, dirty)
  {
    BoundBook(s, f);
    CountedBook(s, s.active.result);
    CountReconciled(s, f);
    hide Reconciled, Book;
  }

  lemma CountReconciled(s: State, f: Files)
    requires Reconciled(s, f) == Some(s)
    ensures var c := Counted(s, s.active.result); Reconciled(c, f) == Some(c)
  {
  }

  lemma FinishOnTrack(base: State, s: State, f: Files, dirty: bool)
    requires OnTrack(base, s, f, dirty) && Finish(s, f, dirty).Some?
    ensures OnTrack(base, Finish(s, f, dirty).value, f, dirty)
  {
    FinishSettles(s, f, dirty);
    hide Finish, Publishing, Private, Sound;
  }

  /** The disposition of a turn that does not publish, recorded while the turn is still the active one. */
  lemma OutcomeOnTrack(base: State, s: State, f: Files, dirty: bool)
    requires OnTrack(base, s, f, dirty) && Decided(s, f) && !Publishing(s, f)
    requires Reconciled(s, f) == Some(s) && s.lastCounted == s.active.result
    requires f.exits[s.active.exitStatus] == 0 && ResultOf(f, s.active.result).Says?
    ensures OnTrack(base, Outcome(s, f, dirty), f, dirty)
  {
    var o := Outcome(s, f, dirty);
    SameEvidence(base, s, f, dirty);
    OutcomeReconciled(s, f, dirty);
    OutcomeKeeps(s, f, dirty);
    OutcomeAgain(s, f, dirty);
    hide Reconciled, Outcome;
    assert Book(s);
    assert Book(o);
  }

  lemma OutcomeAgain(s: State, f: Files, dirty: bool)
    requires Decided(s, f) && !Publishing(s, f) && Reconciled(s, f) == Some(s) && s.lastCounted == s.active.result
    requires f.exits[s.active.exitStatus] == 0 && ResultOf(f, s.active.result).Says?
    ensures var o := Outcome(s, f, dirty); Decided(o, f) && Outcome(o, f, dirty) == o
  {
    OutcomeReconciled(s, f, dirty);
    hide Reconciled;
  }

  lemma OutcomeReconciled(s: State, f: Files, dirty: bool)
    requires Decided(s, f) && Reconciled(s, f) == Some(s) && s.lastCounted == s.active.result
    ensures var o := Outcome(s, f, dirty); Reconciled(o, f) == Some(o)
  {
    OutcomeKeeps(s, f, dirty);
    hide Outcome;
  }

  /** Whatever publication writes keeps the turn on track, before and after the turn is cleared. */
  lemma PublicationOnTrack(base: State, s: State, t: State, f: Files, dirty: bool)
    requires OnTrack(base, s, f, dirty) && Publishing(s, f)
    requires Reconciled(s, f) == Some(s) && s.lastCounted == s.active.result
    requires Private(t) == Private(s)
    ensures OnTrack(base, t, f, dirty) && OnTrack(base, Cleared(t), f, dirty)
    ensures Publishing(t, f) && Reconciled(t, f) == Some(t)
  {
    SameEvidence(base, s, f, dirty);
    PrivateReconciled(s, t, f);
    hide Reconciled;
    assert Book(t) && Book(Cleared(t));
  }

  lemma PrivateReconciled(s: State, t: State, f: Files)
    requires Private(t) == Private(s) && Reconciled(s, f) == Some(s)
    ensures Reconciled(t, f) == Some(t)
  {
  }

  lemma DirtyOnTrack(base: State, s: State, f: Files, was: bool, dirty: bool)
    requires Publishing(base, f) && OnTrack(base, s, f, was)
    ensures OnTrack(base, s, f, dirty)
  {
    hide Reconciled, Sound, Due;
    if Active(s) { SameEvidence(base, s, f, was); }
  }

  lemma OnTrackTransitive(a: State, b: State, c: State, f: Files, dirty: bool)
    requires OnTrack(a, b, f, dirty) && OnTrack(b, c, f, dirty)
    ensures OnTrack(a, c, f, dirty)
  {
    hide Reconciled, Sound, Outcome, Due;
    if Publishing(a, f) && Decided(b, f) { SameEvidence(a, b, f, dirty); }
    if Publishing(b, f) { SameEvidence(a, b, f, dirty); }
  }

  // ---------------------------------------------------------------- a turn before its end is durable

  /** A turn just recorded over an idle state. */
  function Intent(s: State, mode: Mode, turn: Id, previous: Id, model: Id, reasoning: Id, reason: Id): State {
    s.(active := ActiveTurn(None, mode, turn, turn, turn, previous, reason, model, reasoning), status := Running)
  }

  /** What a live turn may have on disk before its exit status: its intent, with or without a process, bound or not. */
  ghost predicate Early(s: State, intent: State, f: Files) {
    var alike := intent.(active := s.active);
    && s.active.(pid := None) == intent.active
    && (s == alike || Reconciled(alike, f) == Some(s))
  }

  lemma PidReconciled(s: State, f: Files, pid: Option<nat>)
    ensures var a, b := Reconciled(s, f), Reconciled(s.(active := s.active.(pid := pid)), f);
            a.Some? == b.Some? && (a.Some? ==> b.value == a.value.(active := a.value.active.(pid := pid)))
  {
  }

  /** An idle turn identity is recorded with nothing counted for it yet. */
  ghost predicate Unspent(s: State, turn: Id) {
    && turn != BLANK && s.lastResult != turn && s.lastCounted != turn
    && s.active.events == turn && s.active.result == turn && s.active.exitStatus == turn && s.active.mode != NoMode
  }

  /** Every early state of a turn ends as its intent does, whatever evidence becomes durable. */
  lemma EarlyOnTrack(intent: State, s: State, f: Files, dirty: bool, turn: Id)
    requires Book(intent) && Unspent(intent, turn) && intent.active.pid.None? && Early(s, intent, f)
    ensures OnTrack(intent, s, f, dirty)
  {
    OnTrackSelf(intent, f, dirty);
    var launched := intent.(active := s.active);
    PidOnTrack(intent, intent, f, dirty, s.active.pid);
    assert launched == intent.(active := intent.active.(pid := s.active.pid));
    if s != launched { BindOnTrack(intent, launched, f, dirty); }
  }

  lemma PidOnTrack(base: State, s: State, f: Files, dirty: bool, pid: Option<nat>)
    requires OnTrack(base, s, f, dirty) && Active(s) && s.active.result != BLANK && s.lastResult != s.active.result
    ensures OnTrack(base, s.(active := s.active.(pid := pid)), f, dirty)
  {
    var t := s.(active := s.active.(pid := pid));
    PidReconciled(s, f, pid);
    if Decided(s, f) { PidOutcome(s, f, dirty, pid); SameEvidence(base, s, f, dirty); }
    hide Reconciled, Outcome;
    assert Book(t);
  }

  lemma PidOutcome(s: State, f: Files, dirty: bool, pid: Option<nat>)
    requires Decided(s, f) && Decided(s.(active := s.active.(pid := pid)), f)
    ensures Cleared(Outcome(s, f, dirty)) == Cleared(Outcome(s.(active := s.active.(pid := pid)), f, dirty))
  {
    PidReconciled(s, f, pid);
    var c := Counted(Reconciled(s, f).value, s.active.result);
    PidCounted(Reconciled(s, f).value, s.active.result, pid);
    PidSettled(c, s.active.result, f.exits[s.active.exitStatus], ResultOf(f, s.active.result), dirty, pid);
    hide Reconciled, Counted, Active, Settled;
  }

  lemma PidSettled(c: State, result: Id, rc: int, file: ResultFile, dirty: bool, pid: Option<nat>)
    ensures Cleared(Settled(c.(active := c.active.(pid := pid)), result, rc, file, dirty)) == Cleared(Settled(c, result, rc, file, dirty))
  {
  }

  lemma PidCounted(c: State, result: Id, pid: Option<nat>)
    ensures Counted(c.(active := c.active.(pid := pid)), result) == Counted(c, result).(active := c.active.(pid := pid))
    ensures Counted(c, result).active == c.active
  {
  }
}

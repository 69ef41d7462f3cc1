/**
 The control flow of one execution (extension/src/executor.js), as steps of the browser protocol.

 `world` is everything the code can touch; every await is one protocol step, and between two awaits anybody else may
 take any number of steps. The service worker may die at every await.
 */
module Executor {
  import opened Prelude
  import D = DeliveryCommands
  import L = ClaimLedger
  import P = BrowserProtocol

  datatype Result = Died | Result(outcome: D.Status, reason: string)

  /** What an execution that owns its reservation heard of its own sending. */
  datatype Heard =
    | StoppedBefore            // the guard, the tab or the composer refused before anything was sent
    | Fault                    // any other error
    | Silence                  // the message went out and no answer came back
    | Answer(phase: P.Phase)   // the page's answer

  datatype Guard = Passes | Stops | Breaks

  /** What the environment does to one execution: everything else follows from it and from the steps of the others. */
  datatype Fate = Fate(
    lives: bool,               // the service worker survives
    readFails: bool, reserveFails: bool, markFails: bool,
    guard: Guard,              // what becomes of the checks and the insertion before sending
    answers: bool,             // the page's answer to the send arrives
    replies: bool)             // the backend's answer to a completion arrives

  /** What is heard of the sending, and whether it can be stored, is what fate has it. */
  ghost predicate Comes(fate: Fate, heard: Heard, stored: bool) {
    && stored == !fate.markFails
    && (heard == StoppedBefore <==> fate.guard == Stops) && (heard == Fault <==> fate.guard == Breaks)
    && (heard.Answer? <==> fate.guard == Passes && fate.answers)
  }

  /** The way one execution went. */
  datatype Course =
    | Invalid
    | LedgerFault
    | Foreign
    | InProgress
    | Known(was: L.EntryState)
    | Sends(heard: Heard, stored: bool)

  /** The outcome reported after sending is the answer that was heard, when it could be stored, and uncertain otherwise. */
  ghost predicate Repeats(heard: Heard, stored: bool, outcome: D.Status) {
    && (outcome == D.Delivered <==> stored && heard == Answer(P.Confirmed))
    && (outcome == D.Failed <==> stored && (heard == StoppedBefore || heard == Answer(P.Phase.Refused)))
    && outcome in {D.Delivered, D.Failed, D.Uncertain}
  }

  /** A completion of the claim with this outcome was sent to the backend. */
  ghost predicate Told(s: P.State, claim: Id, command: Id, outcome: D.Status) {
    exists reason :: D.Completion(command, claim, outcome, reason, "extension_dom_executor") in s.wire
  }

  /** Steps of the backend, of the page, and of a concurrent acknowledgement by a heartbeat. */
  predicate Elsewhere(e: P.Event) {
    P.OfBackend(e) || P.OfPage(e) || e.SendCompletion? || e.RecordAnswer?
  }

  /** The ledger entry an execution depends on is only ever acknowledged by others. */
  ghost predicate SameEntries(m: L.Entries, n: L.Entries) {
    m.Keys == n.Keys
    && forall c :: c in m ==> n[c].state == m[c].state && n[c].command == m[c].command && n[c].diagnostic == m[c].diagnostic
                              && (m[c].acked ==> n[c].acked) && (m[c].state == L.Reserved ==> n[c].acked == m[c].acked)
  }

  lemma ElsewhereKeeps(s: P.State, e: P.Event)
    requires Elsewhere(e) && !s.pc.Asking?
    ensures var t := P.Step(s, e);
            t.pc == s.pc && t.session == s.session && |t.messages| == |s.messages| && SameEntries(s.ledger, t.ledger)
            && s.wire <= t.wire
            && (forall i :: 0 <= i < |s.messages| ==> t.messages[i].claim == s.messages[i].claim)
  {
    hide D.ClaimTx, D.CompleteTx, D.Apply, D.Inv;
  }

  class ExecutionCoordinator {
    const origin: Id
    var world: P.State
    ghost var began: P.State
    ghost var log: seq<P.Event>

    /** What happened so far is a run of the protocol, and its invariant holds. */
    ghost predicate Traced()
      reads this
    {
      world == P.Run(began, log) && P.Joint(world)
    }

    constructor (origin: Id, world: P.State)
      requires P.Joint(world)
      ensures Traced() && this.world == world == began && this.origin == origin
    {
      this.origin, this.world := origin, world;
      began, log := world, [];
    }

    method Take(e: P.Event)
      requires Traced()
      modifies this`world, this`log
      ensures Traced() && world == P.Step(old(world), e) && log == old(log) + [e]
    {
      hide P.Joint, P.Step;
      P.StepKeepsJoint(world, e);
      RunSnoc(began, log, e);
      world := P.Step(world, e);
      log := log + [e];
    }

    /** The steps of everybody else during an await. */
    method Await()
      requires Traced() && !world.pc.Asking?
      modifies this`world, this`log
      ensures Traced() && old(log) <= log
      ensures world.pc == old(world).pc && world.session == old(world).session && |world.messages| == |old(world).messages|
      ensures SameEntries(old(world).ledger, world.ledger) && old(world).wire <= world.wire
      ensures forall i :: 0 <= i < |world.messages| ==> world.messages[i].claim == old(world).messages[i].claim
    {
      hide P.Joint, P.Step;
      ghost var was := world;
      var more: nat := *;
      while more > 0
        invariant Traced() && old(log) <= log
        invariant world.pc == was.pc && world.session == was.session && |world.messages| == |was.messages|
        invariant SameEntries(was.ledger, world.ledger) && was.wire <= world.wire
        invariant forall i :: 0 <= i < |world.messages| ==> world.messages[i].claim == was.messages[i].claim
      {
        var e: P.Event := *;
        if Elsewhere(e) {
          ElsewhereKeeps(world, e);
          Take(e);
        }
        more := more - 1;
      }
    }

    /** The service worker dies; a new one with another session will recover. */
    method Die() returns (r: Result)
      requires Traced()
      modifies this`world, this`log
      ensures Traced() && old(log) <= log && r == Died && world.pc.Booting? && world.messages == old(world).messages
    {
      var session: Id := *;
      Take(P.Crash(session));
      return Died;
    }

    /** Sends the completion of a terminal entry; an answer, if one arrives, is recorded. */
    method Acknowledge(claim: Id, reason: string, fate: Fate) returns (died: bool)
      requires Traced() && !world.pc.Asking?
      modifies this`world, this`log
      ensures Traced() && old(log) <= log && |world.messages| == |old(world).messages|
      ensures died ==> world.pc.Booting? && !fate.lives
      ensures !died ==> world.pc == old(world).pc && SameEntries(old(world).ledger, world.ledger) && old(world).wire <= world.wire
      ensures !died && claim in old(world).ledger && old(world).ledger[claim].state != L.Reserved
              && !old(world).ledger[claim].acked ==>
                var e := old(world).ledger[claim];
                D.Completion(e.command, claim, P.Outcome(e.state), reason, "extension_dom_executor") in world.wire
      ensures !died && fate.replies && claim in world.ledger && world.ledger[claim].state != L.Reserved
              && claim in world.answered ==>
                world.ledger[claim].acked
    {
      hide P.Joint, P.Step, P.Run, P.Outcome, SameEntries;
      ghost var was := world.ledger;
      SameSelf(was);
      if claim !in world.ledger || world.ledger[claim].acked || world.ledger[claim].state == L.Reserved { return false; }
      ElsewhereKeeps(world, P.SendCompletion(claim, reason));
      Asks(world, claim, reason);
      Take(P.SendCompletion(claim, reason));
      ghost var asked := world.ledger;
      Await();
      SameSame(was, asked, world.ledger);
      StillThere(was, world.ledger, claim);
      var lives: bool := *;
      if !fate.lives && !lives {
        var _ := Die();
        return true;
      }
      if fate.replies && claim in world.answered {
        var diagnostic: string, now: nat := *, *;
        ElsewhereKeeps(world, P.RecordAnswer(claim, diagnostic, now));
        Answers(world, claim, diagnostic, now);
        SameSame(was, world.ledger, P.Step(world, P.RecordAnswer(claim, diagnostic, now)).ledger);
        Take(P.RecordAnswer(claim, diagnostic, now));
      }
      return false;
    }

    /** What a caller is told about an entry. */
    method ResultForEntry(claim: Id, reason: string) returns (r: Result)
      requires Traced() && claim in world.ledger
      ensures r.Result? && r.reason == reason && r.outcome in {D.Delivered, D.Failed, D.Uncertain}
      ensures r.outcome == D.Delivered <==> world.ledger[claim].state == L.Sent
      ensures r.outcome == D.Failed <==> world.ledger[claim].state == L.FailedPreSend
      ensures r.outcome == D.Delivered ==> P.Acknowledged(world.messages, claim)
      ensures r.outcome == D.Failed ==> P.Harmless(world.messages, claim)
    {
      var state := world.ledger[claim].state;
      return Result(if state == L.Sent then D.Delivered else if state == L.FailedPreSend then D.Failed else D.Uncertain, reason);
    }

    /**
     `execute`, for the execution the poll was handed. A claim already in the ledger never posts again and is reported
     as it is recorded; a new one posts at most one message, is reported as what was heard of it, and that is what the
     backend is told. What is reported tells the truth about the page.
     */
    method Execute(fate: Fate) returns (r: Result, ghost course: Course)
      requires Traced() && world.pc.Holding? && world.pc.execution.claim.Some? && origin != BLANK
      modifies this`world, this`log
      ensures Traced() && old(log) <= log
      ensures var c := old(world).pc.execution.claim.value.id;
              && |world.messages| <= |old(world).messages| + (if c in old(world).ledger then 0 else 1)
              && (r.Result? && r.outcome == D.Delivered ==> P.Acknowledged(world.messages, c))
              && (r.Result? && r.outcome == D.Failed ==> P.Harmless(world.messages, c))
      ensures if r.Died? then world.pc.Booting? && !fate.lives else world.pc.Idle?
      ensures r.Result? ==> Chooses(old(world), course) && Reports(old(world).pc.execution, course, r.outcome, world)
      ensures r.Result? && !course.Invalid? ==>
                (course.LedgerFault? <==> fate.readFails || (old(world).pc.execution.claim.value.id !in old(world).ledger && fate.reserveFails))
      ensures r.Result? && course.Sends? ==> Comes(fate, course.heard, course.stored)
    {
      hide P.Joint, P.Step, P.Run, SameEntries, P.Outcome, Repeats, Told, Comes;
      var lives: bool;
      course := Invalid;
      ghost var start := world;
      var x := world.pc.execution;
      var claim := x.claim.value.id;
      if !P.Acceptable(world, x) {
        Quits(world, P.Reject);
        Take(P.Reject);
        r := Result(D.Uncertain, "validation_failed");
        return;
      }
      Await();
      StillThere(start.ledger, world.ledger, claim);
      lives := *;
      if !fate.lives && !lives { r := Die(); return; }
      if fate.readFails {
        course := LedgerFault;
        Quits(world, P.LedgerUnavailable);
        Abandons(world, P.LedgerUnavailable);
        Take(P.LedgerUnavailable);
        r := Result(D.Uncertain, "ledger_unavailable");
        return;
      }
      var now: nat := *;
      if claim in world.ledger {
        r, course := ExecuteKnown(now, fate);
        return;
      }
      r, course := ExecuteNew(now, fate);
    }

    /** `execute` of a claim the ledger does not hold yet: reserved, sent, and reported as what was heard of it. */
    method ExecuteNew(now: nat, fate: Fate) returns (r: Result, ghost course: Course)
      requires Traced() && world.pc.Holding? && P.Acceptable(world, world.pc.execution) && origin != BLANK
      requires world.pc.execution.claim.value.id !in world.ledger
      modifies this`world, this`log
      ensures Traced() && old(log) <= log && |world.messages| <= |old(world).messages| + 1
      ensures r.Result? && r.outcome == D.Delivered ==> P.Acknowledged(world.messages, old(world).pc.execution.claim.value.id)
      ensures r.Result? && r.outcome == D.Failed ==> P.Harmless(world.messages, old(world).pc.execution.claim.value.id)
      ensures if r.Died? then world.pc.Booting? && !fate.lives else world.pc.Idle?
      ensures r.Result? ==> Reports(old(world).pc.execution, course, r.outcome, world)
      ensures r.Result? ==> if fate.reserveFails then course.LedgerFault? else course.Sends? && Comes(fate, course.heard, course.stored)
    {
      hide P.Joint, P.Step, P.Run, SameEntries, P.Outcome, Repeats, Told, Comes;
      course := LedgerFault;
      var x := world.pc.execution;
      var claim := x.claim.value.id;
      var lives: bool;
      ghost var unknown := world.ledger;
      Await();
      StillThere(unknown, world.ledger, claim);
      lives := *;
      if !fate.lives && !lives { r := Die(); return; }
      if fate.reserveFails {
        var persisted: bool := *;
        Quits(world, P.ReserveFaults(persisted, origin, now));
        Abandons(world, P.ReserveFaults(persisted, origin, now));
        Take(P.ReserveFaults(persisted, origin, now));
        r := Result(D.Uncertain, "ledger_unavailable");
        return;
      }
      ReserveNew(world, origin, now);
      Take(P.Reserve(origin, now));
      ghost var heard, stored;
      r, heard, stored := SendOwned(claim, x.id, fate);
      course := Sends(heard, stored);
    }

    /** `execute` of a claim the ledger already holds: it is reported as recorded, and acknowledged again if need be. */
    method ExecuteKnown(now: nat, fate: Fate) returns (r: Result, ghost course: Course)
      requires Traced() && world.pc.Holding? && P.Acceptable(world, world.pc.execution) && origin != BLANK
      requires world.pc.execution.claim.value.id in world.ledger
      modifies this`world, this`log
      ensures Traced() && old(log) <= log && |world.messages| == |old(world).messages|
      ensures r.Result? && r.outcome == D.Delivered ==> P.Acknowledged(world.messages, old(world).pc.execution.claim.value.id)
      ensures r.Result? && r.outcome == D.Failed ==> P.Harmless(world.messages, old(world).pc.execution.claim.value.id)
      ensures if r.Died? then world.pc.Booting? && !fate.lives else world.pc.Idle?
      ensures r.Result? ==> Chooses(old(world), course) && Reports(old(world).pc.execution, course, r.outcome, world)
      ensures r.Result? ==> course.Foreign? || course.InProgress? || course.Known?
    {
      hide P.Joint, P.Step, P.Run, SameEntries, P.Outcome, Told;
      var x := world.pc.execution;
      var claim := x.claim.value.id;
      course := Foreign;
      ReserveKnown(world, origin, now);
      ghost var known := world.ledger;
      Take(P.Reserve(origin, now));
      if world.ledger[claim].command != x.id {
        r := Result(D.Uncertain, "claim_authority_mismatch");
        return;
      }
      if world.ledger[claim].state == L.Reserved {
        course := InProgress;
        r := Result(D.Uncertain, "claim_in_progress");
        return;
      }
      course := Known(world.ledger[claim].state);
      var diagnostic := world.ledger[claim].diagnostic;
      var died := Acknowledge(claim, diagnostic, fate);
      if died { r := Died; return; }
      StillThere(known, world.ledger, claim);
      r := ResultForEntry(claim, diagnostic);
      ToldOrAcked(known, world, claim, diagnostic, r.outcome);
    }

    /** Check, insert and send: what is heard of it becomes the outcome to store. */
    method Send(claim: Id, command: Id, fate: Fate) returns (died: bool, ghost heard: Heard)
      requires Traced() && world.pc == P.Owning(claim, command)
      requires claim in world.ledger && world.ledger[claim].state == L.Reserved && !world.ledger[claim].acked
      modifies this`world, this`log
      ensures Traced() && old(log) <= log && |world.messages| <= |old(world).messages| + 1
      ensures died ==> world.pc.Booting? && !fate.lives
      ensures !died ==>
                && world.pc.Settling? && world.pc.claim == claim && world.pc.command == command
                && claim in world.ledger && world.ledger[claim].state == L.Reserved && !world.ledger[claim].acked
                && |world.messages| == |old(world).messages| + (if fate.guard == Passes then 1 else 0)
                && (world.pc.outcome == L.Sent <==> heard == Answer(P.Confirmed))
                && (world.pc.outcome == L.FailedPreSend <==> heard == StoppedBefore || heard == Answer(P.Phase.Refused))
                && Comes(fate, heard, !fate.markFails)
    {
      hide P.Joint, P.Step, P.Run, SameEntries, Told, Repeats, P.Acceptable, P.Outcome;
      heard := Fault;
      var lives: bool;
      ghost var was := world.ledger;
      Await();
      StillThere(was, world.ledger, claim);
      lives := *;
      if !fate.lives && !lives { var _ := Die(); return true, heard; }
      if fate.guard == Stops {
        // the guard, the tab, or the composer refused before anything was sent
        heard := StoppedBefore;
        Settles(world, P.PreSendError);
        Take(P.PreSendError);
      } else if fate.guard == Breaks {
        // the prompt hash did not match, or an unknown error
        Settles(world, P.UnknownError);
        Take(P.UnknownError);
      } else {
        died, heard := Post(claim, command, fate);
        if died { return; }
      }
      died := false;
    }

    /** Hands the page the message and waits for its answer. */
    method Post(claim: Id, command: Id, fate: Fate) returns (died: bool, ghost heard: Heard)
      requires Traced() && world.pc == P.Owning(claim, command)
      requires claim in world.ledger && world.ledger[claim].state == L.Reserved && !world.ledger[claim].acked
      modifies this`world, this`log
      ensures Traced() && old(log) <= log && |world.messages| == |old(world).messages| + 1
      ensures died ==> world.pc.Booting? && !fate.lives
      ensures heard == Silence || heard.Answer?
      ensures !died ==>
                && world.pc.Settling? && world.pc.claim == claim && world.pc.command == command
                && claim in world.ledger && world.ledger[claim].state == L.Reserved && !world.ledger[claim].acked
                && (world.pc.outcome == L.Sent <==> heard == Answer(P.Confirmed))
                && (world.pc.outcome == L.FailedPreSend <==> heard == Answer(P.Phase.Refused))
                && (heard.Answer? <==> fate.answers)
    {
      hide P.Joint, P.Step, P.Run, SameEntries, Told, Repeats;
      heard := Silence;
      Posts(world);
      Take(P.PostSend);
      var message := world.pc.message;
      ghost var posted := world.ledger;
      Await();
      StillThere(posted, world.ledger, claim);
      var lives: bool := *;
      if !fate.lives && !lives { var _ := Die(); return true, heard; }
      var phase := world.messages[message].phase;
      heard := if fate.answers then Answer(phase) else Silence;
      var outcome := if fate.answers && phase == P.Confirmed then L.Sent
                     else if fate.answers && phase == P.Phase.Refused then L.FailedPreSend else L.Unsure;
      Settles(world, P.SendAnswered(outcome));
      Take(P.SendAnswered(outcome));
      died := false;
    }

    /** The execute that created the reservation: check, insert, send, and store the outcome. */
    method SendOwned(claim: Id, command: Id, fate: Fate) returns (r: Result, ghost heard: Heard, ghost stored: bool)
      requires Traced() && world.pc == P.Owning(claim, command)
      requires claim in world.ledger && world.ledger[claim].state == L.Reserved && !world.ledger[claim].acked
      modifies this`world, this`log
      ensures Traced() && old(log) <= log
      ensures |world.messages| <= |old(world).messages| + 1
      ensures r.Result? && r.outcome == D.Delivered ==> P.Acknowledged(world.messages, claim)
      ensures r.Result? && r.outcome == D.Failed ==> P.Harmless(world.messages, claim)
      ensures if r.Died? then world.pc.Booting? && !fate.lives else world.pc.Idle?
      ensures r.Result? ==> Repeats(heard, stored, r.outcome) && Told(world, claim, command, r.outcome)
      ensures r.Result? ==> Comes(fate, heard, stored)
      ensures r.Result? ==> |world.messages| == |old(world).messages| + if fate.guard == Passes then 1 else 0
      ensures r.Result? && stored && claim in world.ledger ==>
                && (world.ledger[claim].state == L.Sent <==> heard == Answer(P.Confirmed))
                && (world.ledger[claim].state == L.FailedPreSend <==> heard == StoppedBefore || heard == Answer(P.Phase.Refused))
    {
      hide P.Joint, P.Step, P.Run, SameEntries, Told, Comes;
      stored := !fate.markFails;
      var died;
      died, heard := Send(claim, command, fate);
      if died { r := Died; return; }
      r := StoreOutcome(claim, command, fate);
    }

    /** The end of execute: mark the entry, acknowledge it, prune, and report. */
    method StoreOutcome(claim: Id, command: Id, fate: Fate) returns (r: Result)
      requires Traced() && world.pc.Settling? && world.pc.claim == claim && world.pc.command == command
      requires claim in world.ledger && world.ledger[claim].state == L.Reserved && !world.ledger[claim].acked
      modifies this`world, this`log
      ensures Traced() && old(log) <= log
      ensures |world.messages| == |old(world).messages|
      ensures r.Result? && r.outcome == D.Delivered ==> P.Acknowledged(world.messages, claim)
      ensures r.Result? && r.outcome == D.Failed ==> P.Harmless(world.messages, claim)
      ensures if r.Died? then world.pc.Booting? && !fate.lives else world.pc.Idle?
      ensures r.Result? ==>
                && r.outcome in {D.Delivered, D.Failed, D.Uncertain}
                && (r.outcome == D.Delivered <==> !fate.markFails && old(world).pc.outcome == L.Sent)
                && (r.outcome == D.Failed <==> !fate.markFails && old(world).pc.outcome == L.FailedPreSend)
                && Told(world, claim, command, r.outcome)
      ensures r.Result? && !fate.markFails && claim in world.ledger ==> world.ledger[claim].state == old(world).pc.outcome
    {
      hide P.Joint, P.Step, P.Run, SameEntries, P.Outcome, Told;
      var lives: bool;
      ghost var was := world.ledger;
      Await();
      StillThere(was, world.ledger, claim);
      lives := *;
      if !fate.lives && !lives { r := Die(); return; }
      SettlingOwned(world);
      var diagnostic: string, now: nat := *, *;
      if fate.markFails {
        var persisted: bool := *;
        Quits(world, P.MarkFaults(persisted, diagnostic, now));
        Abandons(world, P.MarkFaults(persisted, diagnostic, now));
        Take(P.MarkFaults(persisted, diagnostic, now));
        r := Result(D.Uncertain, "ledger_terminal_persist_failed");
        return;
      }
      Marks(world, diagnostic, now);
      Take(P.Mark(diagnostic, now));
      ghost var marked := world.ledger;
      var died := Acknowledge(claim, diagnostic, fate);
      if died { r := Died; return; }
      StillThere(marked, world.ledger, claim);
      r := ResultForEntry(claim, diagnostic);
      ToldOrAcked(marked, world, claim, diagnostic, r.outcome);
      // pruning may forget settled entries, this one included; the report is already made
      ghost var reported := world;
      var pruned: L.Entries, limit: nat := *, *;
      if P.Enabled(world, P.Prune(pruned, limit)) {
        Quits(world, P.Prune(pruned, limit));
        Take(P.Prune(pruned, limit));
      } else {
        Quits(world, P.Rest);
        Take(P.Rest);
      }
      StillTold(reported, world, claim, command, r.outcome);
    }
  }

  lemma StillTold(s: P.State, t: P.State, claim: Id, command: Id, outcome: D.Status)
    requires s.wire <= t.wire && Told(s, claim, command, outcome)
    ensures Told(t, claim, command, outcome)
  {
  }

  /** The course is the one the ledger and the execution call for. */
  ghost predicate Chooses(s: P.State, course: Course)
    requires s.pc.Holding? && s.pc.execution.claim.Some?
  {
    var x := s.pc.execution;
    var c := x.claim.value.id;
    && (course.Invalid? <==> !(x.status == D.Claimed && c != BLANK && x.id != BLANK && x.frozen.worker == P.WORKER && x.frozen.session == s.session))
    && (course.Foreign? ==> c in s.ledger && s.ledger[c].command != x.id)
    && (course.InProgress? ==> c in s.ledger && s.ledger[c].command == x.id && s.ledger[c].state == L.Reserved)
    && (course.Known? ==> c in s.ledger && s.ledger[c].command == x.id && s.ledger[c].state == course.was != L.Reserved)
    && (course.Sends? ==> c !in s.ledger)
  }

  /** What is reported on each course, and what the backend was told before. */
  ghost predicate Reports(x: D.Command, course: Course, outcome: D.Status, s: P.State)
    requires x.claim.Some?
  {
    var c := x.claim.value.id;
    match course
    case Known(was) =>
      && (outcome == D.Delivered <==> was == L.Sent) && (outcome == D.Failed <==> was == L.FailedPreSend)
      && (Told(s, c, x.id, outcome) || (c in s.ledger && s.ledger[c].acked))
    case Sends(heard, stored) => Repeats(heard, stored, outcome) && Told(s, c, x.id, outcome)
    case LedgerFault => outcome == D.Uncertain && Told(s, c, x.id, D.Uncertain)
    case Foreign => outcome == D.Uncertain && Told(s, c, x.id, D.Uncertain)
    case _ => outcome == D.Uncertain
  }

  /** After an acknowledgement the backend was told the outcome, unless it had answered before. */
  lemma ToldOrAcked(m: L.Entries, s: P.State, claim: Id, reason: string, outcome: D.Status)
    requires claim in m && m[claim].state != L.Reserved && SameEntries(m, s.ledger)
    requires outcome == D.Delivered <==> m[claim].state == L.Sent
    requires outcome == D.Failed <==> m[claim].state == L.FailedPreSend
    requires outcome in {D.Delivered, D.Failed, D.Uncertain}
    requires !m[claim].acked ==> D.Completion(m[claim].command, claim, P.Outcome(m[claim].state), reason, "extension_dom_executor") in s.wire
    ensures Told(s, claim, m[claim].command, outcome) || s.ledger[claim].acked
    ensures !m[claim].acked ==> Told(s, claim, m[claim].command, outcome)
  {
    assert outcome == P.Outcome(m[claim].state);
  }

  lemma SettlingOwned(s: P.State)
    requires P.Joint(s) && s.pc.Settling?
    ensures s.pc.claim in s.ledger && s.pc.outcome != L.Reserved && s.ledger[s.pc.claim].command == s.pc.command
  {
  }

  lemma StillThere(m: L.Entries, n: L.Entries, claim: Id)
    requires SameEntries(m, n)
    ensures claim in m <==> claim in n
    ensures claim in m ==> n[claim].state == m[claim].state && n[claim].command == m[claim].command
                           && (m[claim].state == L.Reserved ==> n[claim].acked == m[claim].acked)
  {
  }

  /** Steps after which the poll is over. */
  lemma Quits(s: P.State, e: P.Event)
    requires P.Enabled(s, e) && (e.Reject? || e.LedgerUnavailable? || e.ReserveFaults? || e.MarkFaults? || e.Prune? || e.Rest?)
    requires e.ReserveFaults? ==> s.pc.execution.claim.Some?
    ensures P.Step(s, e).pc.Idle? && P.Step(s, e).messages == s.messages && s.wire <= P.Step(s, e).wire
    ensures e.Prune? ==> forall c :: c in P.Step(s, e).ledger ==> c in s.ledger && P.Step(s, e).ledger[c] == s.ledger[c]
    ensures e.Rest? ==> P.Step(s, e).ledger == s.ledger
  {
  }

  /** An execution that cannot use the ledger tells the backend so. */
  lemma Abandons(s: P.State, e: P.Event)
    requires P.Enabled(s, e) && (e.LedgerUnavailable? || e.ReserveFaults? || e.MarkFaults?)
    requires !e.MarkFaults? ==> s.pc.execution.claim.Some?
    ensures !e.MarkFaults? ==> Told(P.Step(s, e), s.pc.execution.claim.value.id, s.pc.execution.id, D.Uncertain)
    ensures e.MarkFaults? ==> Told(P.Step(s, e), s.pc.claim, s.pc.command, D.Uncertain)
  {
    hide P.Reserved, P.Marked, Told;
    var t := P.Step(s, e);
    match e
    case LedgerUnavailable => Tells(t, P.UncertainCompletion(s.pc.execution, "ledger_unavailable"));
    case ReserveFaults(_, _, _) => Tells(t, P.UncertainCompletion(s.pc.execution, "ledger_unavailable"));
    case MarkFaults(_, _, _) => Tells(t, P.Abandoned(s.pc.claim, s.pc.command));
  }

  lemma Tells(s: P.State, k: D.Completion)
    requires k in s.wire && k.evidence == "extension_dom_executor"
    ensures Told(s, k.claim, k.command, k.outcome)
  {
    assert k == D.Completion(k.command, k.claim, k.outcome, k.reason, "extension_dom_executor");
  }

  lemma ReserveKnown(s: P.State, origin: Id, now: nat)
    requires s.pc.Holding? && P.Acceptable(s, s.pc.execution) && origin != BLANK && s.pc.execution.claim.value.id in s.ledger
    ensures var t := P.Step(s, P.Reserve(origin, now));
            t.pc.Idle? && t.messages == s.messages && t.ledger == s.ledger && s.wire <= t.wire
            && (s.ledger[s.pc.execution.claim.value.id].command != s.pc.execution.id ==>
                  Told(t, s.pc.execution.claim.value.id, s.pc.execution.id, D.Uncertain))
  {
  }

  lemma ReserveNew(s: P.State, origin: Id, now: nat)
    requires s.pc.Holding? && P.Acceptable(s, s.pc.execution) && origin != BLANK && s.pc.execution.claim.value.id !in s.ledger
    ensures var t := P.Step(s, P.Reserve(origin, now));
            t.pc == P.Owning(s.pc.execution.claim.value.id, s.pc.execution.id) && t.messages == s.messages
            && t.pc.claim in t.ledger && t.ledger[t.pc.claim].state == L.Reserved && !t.ledger[t.pc.claim].acked
  {
  }

  lemma Asks(s: P.State, claim: Id, reason: string)
    requires claim in s.ledger && s.ledger[claim].state != L.Reserved && !s.ledger[claim].acked
    ensures D.Completion(s.ledger[claim].command, claim, P.Outcome(s.ledger[claim].state), reason, "extension_dom_executor")
              in P.Step(s, P.SendCompletion(claim, reason)).wire
  {
  }

  lemma Answers(s: P.State, claim: Id, diagnostic: string, now: nat)
    requires claim in s.ledger && s.ledger[claim].state != L.Reserved && claim in s.answered
    ensures var t := P.Step(s, P.RecordAnswer(claim, diagnostic, now)); claim in t.ledger && t.ledger[claim].acked
  {
  }

  lemma SameSelf(m: L.Entries)
    ensures SameEntries(m, m)
  {
  }

  lemma SameSame(l: L.Entries, m: L.Entries, n: L.Entries)
    requires SameEntries(l, m) && SameEntries(m, n)
    ensures SameEntries(l, n)
  {
  }

  lemma Posts(s: P.State)
    requires s.pc.Owning?
    ensures var t := P.Step(s, P.PostSend);
            t.pc == P.Sending(s.pc.claim, s.pc.command, |s.messages|) && |t.messages| == |s.messages| + 1 && t.ledger == s.ledger
  {
  }

  lemma Settles(s: P.State, e: P.Event)
    requires P.Enabled(s, e) && (e.PreSendError? || e.UnknownError? || e.SendAnswered?)
    ensures var t := P.Step(s, e);
            t.pc.Settling? && t.pc.claim == s.pc.claim && t.pc.command == s.pc.command && t.messages == s.messages
            && t.ledger == s.ledger
            && t.pc.outcome == (match e case PreSendError => L.FailedPreSend case SendAnswered(o) => o case _ => L.Unsure)
  {
  }

  lemma Marks(s: P.State, diagnostic: string, now: nat)
    requires s.pc.Settling? && s.pc.claim in s.ledger && s.pc.outcome != L.Reserved
    ensures var t := P.Step(s, P.Mark(diagnostic, now));
            t.pc.Finishing? && t.messages == s.messages && s.pc.claim in t.ledger && s.wire <= t.wire
            && t.ledger[s.pc.claim].state == s.pc.outcome && t.ledger[s.pc.claim].command == s.ledger[s.pc.claim].command
            && t.ledger[s.pc.claim].acked == s.ledger[s.pc.claim].acked
  {
  }

  lemma {:induction false} RunSnoc(s: P.State, es: seq<P.Event>, e: P.Event)
    ensures P.Run(s, es + [e]) == P.Step(P.Run(s, es), e)
    decreases |es|
  {
    hide P.Step;
    if es == [] {
      assert (es + [e])[1..] == [];
      assert P.Run(s, [e]) == P.Run(P.Step(s, e), []);
    } else {
      assert (es + [e])[1..] == es[1..] + [e];
      RunSnoc(P.Step(s, es[0]), es[1..], e);
    }
  }
}

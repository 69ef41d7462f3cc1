/**
 Publication of a Candidate to the Change branch (backend/cmd/cddm-change/dispatch.go), against other writers of the
 remote branch and host deaths at any point.

 `moves` is the history of the remote ref: every change of it, ours or anybody's, chained from the first head to the
 present one. `sights` are the readings of the remote head, each placed in that history. Whatever is said of pushes and
 of read-back is said over these two.
 */
module Publication {
  import opened Prelude
  import E = TurnEngine
  import T = TurnState

  type End = E.End

  datatype Phase =
    | NotPublishing | InvalidCandidate | V2Failed
    | CommitPrepared | PendingPush | ConfirmationPending | PushedPendingGithub | Inconclusive | Published

  /** The part of the runtime state publication owns. */
  datatype Record = Record(phase: Phase, candidate: T.Candidate, pr: Option<nat>, lastResult: Id, lastRc: Option<int>)

  /** One change of the remote ref; `result` is what it was pushed for, and blank when somebody else made it. */
  datatype Move = Move(before: Id, after: Id, result: Id)

  /** A reading of the remote head, after the first `at` changes. */
  datatype Sight = Sight(at: nat, head: Id)

  /** What the checks before a commit find: Host verification, and the two diff checks with the staging between them. */
  datatype Checks = Checks(verified: bool, clean: bool)

  // ---------------------------------------------------------------- the history of the remote

  function HeadAfter(origin: Id, moves: seq<Move>, n: nat): Id
    requires n <= |moves|
  {
    if n == 0 then origin else moves[n - 1].after
  }

  /** Every change starts from the head its predecessor left, and the last one left the present head. */
  ghost predicate History(origin: Id, moves: seq<Move>, remote: Id) {
    && (forall i :: 0 <= i < |moves| ==> moves[i].before == HeadAfter(origin, moves, i))
    && remote == HeadAfter(origin, moves, |moves|)
  }

  /** Every reading is what the head was at its place in the history. */
  ghost predicate Faithful(origin: Id, moves: seq<Move>, sights: seq<Sight>) {
    forall i :: 0 <= i < |sights| ==> sights[i].at <= |moves| && sights[i].head == HeadAfter(origin, moves, sights[i].at)
  }

  /** The head was read, after the first `since` readings. */
  ghost predicate Seen(sights: seq<Sight>, since: nat, head: Id) {
    exists i :: since <= i < |sights| && sights[i].head == head
  }

  /** The last reading of a call. */
  ghost predicate SawLast(was: seq<Sight>, now: seq<Sight>, head: Id) {
    |was| < |now| && now[|now| - 1].head == head
  }

  /**
   What the laws speak of: the history of the ref, the readings of it, the heads GitHub reported for the pull request, the
   candidate recorded for each result, and how many readings there were when it was recorded.
   */
  datatype Past = Past(origin: Id, moves: seq<Move>, sights: seq<Sight>, reports: seq<Id>, recorded: map<Id, T.Candidate>, since: map<Id, nat>)

  /** Every change of ours is a push for a recorded candidate, from its recorded pre-image to its recorded head. */
  ghost predicate Lawful(past: Past) {
    forall i :: 0 <= i < |past.moves| && past.moves[i].result != BLANK ==>
      && past.moves[i].result in past.recorded
      && past.moves[i].before == past.recorded[past.moves[i].result].remoteBefore
      && past.moves[i].after == past.recorded[past.moves[i].result].head
  }

  /** A recorded pre-image was read from the remote, unless there was none or it could not be read. */
  ghost predicate Grounded(past: Past, r: Id)
    requires r in past.recorded
  {
    var c := past.recorded[r];
    && c.result == r && c.head != BLANK && r in past.since && past.since[r] <= |past.sights|
    && (c.remoteBefore == BLANK || Seen(past.sights, 0, c.remoteBefore))
  }

  ghost predicate Sound(past: Past, remote: Id) {
    && History(past.origin, past.moves, remote) && Faithful(past.origin, past.moves, past.sights) && Lawful(past)
    && past.since.Keys == past.recorded.Keys && forall r :: r in past.recorded ==> Grounded(past, r)
  }

  /** The remote was read at the candidate's head since the candidate was recorded. */
  ghost predicate ReadBack(past: Past, c: T.Candidate) {
    c.result in past.since && Seen(past.sights, past.since[c.result], c.head)
  }

  predicate Pushed(phase: Phase) {
    phase == PushedPendingGithub || phase == Published
  }

  /** A record is true of the past: its candidate is the recorded one, and it is pushed or published only once read back. */
  ghost predicate Known(past: Past, r: Record) {
    var c := r.candidate;
    && (c.result != BLANK ==> c.result in past.recorded && past.recorded[c.result] == c)
    && (c.result == BLANK ==> c.head == BLANK)
    && (Pushed(r.phase) ==> c.result != BLANK && ReadBack(past, c))
    && (r.phase == Published ==> c.head in past.reports && r.pr.Some?)
  }

  /** The past is never rewritten: neither the history, nor a reading, nor a recorded candidate. */
  ghost predicate Extends(was: Past, now: Past) {
    && now.origin == was.origin && was.moves <= now.moves && was.sights <= now.sights && was.reports <= now.reports
    && (forall r :: r in was.recorded ==> r in now.recorded && now.recorded[r] == was.recorded[r])
    && (forall r :: r in was.since ==> r in now.since && now.since[r] == was.since[r])
  }

  /** Nothing but the remote was changed or read, and GitHub asked. */
  ghost predicate SameBooks(was: Past, now: Past) {
    now == was.(moves := now.moves, sights := now.sights, reports := now.reports)
  }

  lemma KnownStays(was: Past, now: Past, r: Record)
    requires Extends(was, now) && Known(was, r)
    ensures Known(now, r)
  {
  }

  lemma KnownAs(past: Past, r: Record, t: Record)
    requires Known(past, r) && t.candidate == r.candidate
    requires Pushed(t.phase) ==> Pushed(r.phase) || (r.candidate.result != BLANK && ReadBack(past, r.candidate))
    requires t.phase == Published ==> (r.phase == Published && t.pr == r.pr) || (t.pr.Some? && r.candidate.head in past.reports)
    ensures Known(past, t)
  {
  }

  /** Another writer's change keeps every law. */
  lemma OthersKeep(past: Past, remote: Id, next: Id)
    requires Sound(past, remote)
    ensures var now := past.(moves := past.moves + [Move(remote, next, BLANK)]); Sound(now, next) && Extends(past, now)
  {
    MoveKeeps(past.origin, past.moves, remote, past.sights, Move(remote, next, BLANK));
    hide History, Faithful, Seen;
    var now := past.(moves := past.moves + [Move(remote, next, BLANK)]);
    forall r | r in past.recorded
      ensures Grounded(now, r)
    {
      assert Grounded(past, r);
    }
  }

  /** So does our push, when the remote is at the recorded pre-image. */
  lemma PushKeeps(past: Past, remote: Id, c: T.Candidate)
    requires Sound(past, remote) && c.result != BLANK && c.result in past.recorded && past.recorded[c.result] == c
            && c.remoteBefore == remote
    ensures var now := past.(moves := past.moves + [Move(remote, c.head, c.result)]); Sound(now, c.head) && Extends(past, now)
  {
    MoveKeeps(past.origin, past.moves, remote, past.sights, Move(remote, c.head, c.result));
    hide History, Faithful, Seen;
    var now := past.(moves := past.moves + [Move(remote, c.head, c.result)]);
    forall r | r in past.recorded
      ensures Grounded(now, r)
    {
      assert Grounded(past, r);
    }
  }

  lemma SeenStays(was: seq<Sight>, now: seq<Sight>, since: nat, head: Id)
    requires Seen(was, since, head) && was <= now
    ensures Seen(now, since, head)
  {
    var i :| since <= i < |was| && was[i].head == head;
    assert now[i].head == head;
  }

  /** A reading of the present head has its place at the end of the history. */
  lemma ReadingKeeps(past: Past, remote: Id)
    requires Sound(past, remote)
    ensures var now := past.(sights := past.sights + [Sight(|past.moves|, remote)]);
            Sound(now, remote) && Extends(past, now) && Seen(now.sights, |past.sights|, remote)
  {
    var now := past.(sights := past.sights + [Sight(|past.moves|, remote)]);
    assert now.sights[|past.sights|].head == remote;
    forall r | r in past.recorded
      ensures Grounded(now, r)
    {
      assert Grounded(past, r);
      if past.recorded[r].remoteBefore != BLANK { SeenStays(past.sights, now.sights, 0, past.recorded[r].remoteBefore); }
    }
  }

  /** What GitHub reports of the pull request changes nothing else. */
  lemma ReportKeeps(past: Past, remote: Id, reported: Id)
    requires Sound(past, remote)
    ensures var now := past.(reports := past.reports + [reported]); Sound(now, remote) && Extends(past, now)
  {
    var now := past.(reports := past.reports + [reported]);
    forall r | r in past.recorded
      ensures Grounded(now, r)
    {
      assert Grounded(past, r);
    }
  }

  lemma SinceIsPast(past: Past, remote: Id, r: Record)
    requires Sound(past, remote) && Known(past, r) && r.candidate.result != BLANK
    ensures r.candidate.result in past.recorded && past.recorded[r.candidate.result] == r.candidate
    ensures r.candidate.result in past.since && past.since[r.candidate.result] <= |past.sights|
  {
    assert Grounded(past, r.candidate.result);
  }

  /** A reading at the candidate's head reads the candidate back, for good. */
  lemma ReadsBack(was: Past, now: Past, remote: Id, r: Record, k: nat)
    requires Sound(was, remote) && Known(was, r) && r.candidate.result != BLANK && Extends(was, now)
    requires |was.sights| <= k < |now.sights| && now.sights[k].head == r.candidate.head
    ensures ReadBack(now, r.candidate) && Known(now, r)
  {
    SinceIsPast(was, remote, r);
  }

  lemma ReadBackStays(was: Past, now: Past, c: T.Candidate)
    requires ReadBack(was, c) && Extends(was, now)
    ensures ReadBack(now, c)
  {
  }

  /** Recording a candidate for a new result keeps every law. */
  lemma RecordingKeeps(past: Past, remote: Id, c: T.Candidate)
    requires Sound(past, remote) && c.result !in past.recorded && c.head != BLANK && c.result != BLANK
    requires c.remoteBefore == BLANK || Seen(past.sights, 0, c.remoteBefore)
    ensures var now := Recording(past, c);
            Sound(now, remote) && Extends(past, now) && forall r: Record :: r.candidate == c && r.phase == CommitPrepared ==>
              Known(now, r)
  {
    hide History, Faithful, Seen;
    var now := Recording(past, c);
    forall r | r in now.recorded
      ensures Grounded(now, r)
    {
      if r != c.result { assert Grounded(past, r); }
    }
  }

  function Recording(past: Past, c: T.Candidate): Past {
    past.(recorded := past.recorded[c.result := c], since := past.since[c.result := |past.sights|])
  }

  /** Only others changed the remote. */
  ghost predicate NothingMine(was: seq<Move>, now: seq<Move>) {
    was <= now && forall i :: |was| <= i < |now| ==> now[i].result == BLANK
  }

  /** At most one of the changes is ours, and it is for this result. */
  ghost predicate OnlyOneMore(was: seq<Move>, now: seq<Move>, result: Id) {
    && was <= now
    && (forall i :: |was| <= i < |now| && now[i].result != BLANK ==> now[i].result == result)
    && (forall i, j :: |was| <= i < j < |now| ==> now[i].result == BLANK || now[j].result == BLANK)
  }

  lemma NothingThenOne(a: seq<Move>, b: seq<Move>, c: seq<Move>, result: Id)
    requires (NothingMine(a, b) && OnlyOneMore(b, c, result)) || (OnlyOneMore(a, b, result) && NothingMine(b, c))
    ensures OnlyOneMore(a, c, result)
  {
  }

  lemma NothingTwice(a: seq<Move>, b: seq<Move>, c: seq<Move>)
    requires NothingMine(a, b) && NothingMine(b, c)
    ensures NothingMine(a, c)
  {
  }

  lemma NothingIsOne(a: seq<Move>, b: seq<Move>, result: Id)
    requires NothingMine(a, b)
    ensures OnlyOneMore(a, b, result)
  {
  }

  /** One more change keeps the history, and every reading its place in it. */
  lemma MoveKeeps(origin: Id, moves: seq<Move>, remote: Id, sights: seq<Sight>, m: Move)
    requires History(origin, moves, remote) && Faithful(origin, moves, sights) && m.before == remote
    ensures History(origin, moves + [m], m.after) && Faithful(origin, moves + [m], sights)
  {
    forall n | 0 <= n <= |moves|
      ensures HeadAfter(origin, moves + [m], n) == HeadAfter(origin, moves, n)
    {
    }
  }

  class Publisher {
    const faults: bool           // may calls and saves fail, and may the host die?
    const quiet: bool            // does nobody else write the remote branch?
    var disk: Record
    var state: Record
    var local: Id                // head of the worktree
    var dirty: bool
    var objects: set<Id>         // commits in the local object store
    var remote: Id               // head of the remote branch; BLANK when it does not exist
    ghost var past: Past

    ghost predicate Valid()
      reads this
    {
      Sound(past, remote) && Known(past, disk)
    }

    constructor (faults: bool, quiet: bool, local: Id, remote: Id)
      ensures Valid() && past == Past(remote, [], [], [], map[], map[])
    {
      this.faults, this.quiet, this.local, this.remote := faults, quiet, local, remote;
      var idle := Record(NotPublishing, T.NO_CANDIDATE, None, BLANK, None);
      disk, state, dirty, objects, past := idle, idle, false, {}, Past(remote, [], [], [], map[], map[]);
    }

    // ---------------------------------------------------------------- the environment

    method Mishap() returns (m: bool)
      ensures m ==> faults
    {
      m := *;
      m := m && faults;
    }

    /** Anybody else may move the remote branch anywhere. */
    method Others()
      requires Valid()
      modifies this`remote, this`past
      ensures Valid() && SameBooks(old(past), past) && Extends(old(past), past) && NothingMine(old(past).moves, past.moves)
      ensures past.sights == old(past).sights && past.reports == old(past).reports
      ensures quiet ==> remote == old(remote) && past == old(past)
    {
      hide Sound, Known;
      if !quiet {
        var next: Id := *;
        OthersKeep(past, remote, next);
        KnownStays(past, past.(moves := past.moves + [Move(remote, next, BLANK)]), disk);
        past := past.(moves := past.moves + [Move(remote, next, BLANK)]);
        remote := next;
      }
    }

    method Save() returns (ok: bool)
      requires Valid() && Known(past, state)
      modifies this`disk
      ensures Valid() && disk == (if ok then state else old(disk)) && (!ok ==> faults)
    {
      var fails := Mishap();
      if !fails { disk := state; }
      return !fails;
    }

    method RemoteBranchHead() returns (head: Option<Id>)
      requires Valid()
      modifies this`remote, this`past
      ensures Valid() && SameBooks(old(past), past) && Extends(old(past), past) && NothingMine(old(past).moves, past.moves)
      ensures head.Some? ==> head.value == remote && past.sights == old(past).sights + [Sight(|past.moves|, remote)]
      ensures head.None? ==> faults && past.sights == old(past).sights
      ensures past.reports == old(past).reports
      ensures quiet ==> remote == old(remote) && past.moves == old(past).moves
    {
      hide Sound, Known;
      Others();
      var fails := Mishap();
      if fails { return None; }
      ReadingKeeps(past, remote);
      KnownStays(past, past.(sights := past.sights + [Sight(|past.moves|, remote)]), disk);
      past := past.(sights := past.sights + [Sight(|past.moves|, remote)]);
      return Some(remote);
    }

    /**
     `git push --force-with-lease=<ref>:<expected> HEAD:<ref>`: atomic at the remote, refused unless the ref is what is
     expected (absent, when nothing is expected); the report may be lost.
     */
    method PushWithLease(expected: Id)
      requires Valid() && Known(past, state) && state.candidate.result != BLANK
      requires state.candidate.head == local && expected == state.candidate.remoteBefore
      modifies this`remote, this`past
      ensures Valid() && SameBooks(old(past), past) && Extends(old(past), past)
              && OnlyOneMore(old(past).moves, past.moves, state.candidate.result)
      ensures past.sights == old(past).sights && past.reports == old(past).reports
      ensures !faults && quiet && old(remote) == expected ==>
                remote == local && past.moves == old(past).moves + [Move(expected, local, state.candidate.result)]
      ensures quiet && old(remote) != expected ==> remote == old(remote) && past == old(past)
    {
      hide Sound, Known;
      Others();
      var fails := Mishap();
      if !fails && remote == expected {
        var push := Move(remote, local, state.candidate.result);
        KnownStays(old(past), past, state);
        SinceIsPast(past, remote, state);
        PushKeeps(past, remote, state.candidate);
        KnownStays(past, past.(moves := past.moves + [push]), disk);
        past := past.(moves := past.moves + [push]);
        remote := local;
      }
      Others();
    }

    /** Records a phase publication stops in. */
    method StopAt(phase: Phase, rc: int) returns (end: End)
      requires Valid() && Known(past, state) && phase != Published
      requires phase == PushedPendingGithub ==> state.candidate.result != BLANK && ReadBack(past, state.candidate)
      modifies this`disk, this`state
      ensures Valid() && Known(past, state) && state == old(state).(phase := phase) && disk in {old(disk), state}
      ensures end == E.Died || end == E.Returned(rc)
      ensures !faults ==> end == E.Returned(rc) && disk == state
    {
      hide Sound, Known;
      KnownAs(past, state, state.(phase := phase));
      state := state.(phase := phase);
      var _ := Save();
      var dies := Mishap();
      return if dies then E.Died else E.Returned(rc);
    }

    /** The head GitHub reports for the pull request of the branch, and whether it is the expected one. */
    method VerifyPrHead(head: Id) returns (ok: bool)
      requires Valid()
      modifies this`remote, this`past
      ensures Valid() && SameBooks(old(past), past) && Extends(old(past), past)
              && NothingMine(old(past).moves, past.moves) && past.sights == old(past).sights
      ensures quiet ==> remote == old(remote) && past.moves == old(past).moves
      ensures ok <==> |old(past).reports| < |past.reports| && past.reports[|past.reports| - 1] == head
      ensures !faults && quiet && remote == head ==> ok
    {
      hide Sound, Known;
      Others();
      var fails := Mishap();
      if fails { return false; }
      var reported: Id := *;
      if quiet && !faults { reported := remote; }
      ReportKeeps(past, remote, reported);
      KnownStays(past, past.(reports := past.reports + [reported]), disk);
      past := past.(reports := past.reports + [reported]);
      return reported == head;
    }

    // ---------------------------------------------------------------- publication

    /** Where publication stands after a call, by the last head it read. */
    twostate predicate AsRead()
      reads this
    {
      && (state.phase == Inconclusive ==> |old(past).sights| < |past.sights| && past.sights[|past.sights| - 1].head != state.candidate.head)
      && (state.phase == PushedPendingGithub || state.phase == Published ==> SawLast(old(past).sights, past.sights, state.candidate.head))
      && (state.phase == PendingPush ==> SawLast(old(past).sights, past.sights, state.candidate.remoteBefore))
      && (state.phase == ConfirmationPending ==> faults)
    }

    /** The candidate and the disposition stay; what is saved on the way is this candidate at some stage after its preparation. */
    twostate predicate Continues()
      reads this
    {
      && state.candidate == old(state).candidate && state.lastResult == old(state).lastResult && state.lastRc == old(state).lastRc
      && (disk == old(disk)
          || (disk.candidate == state.candidate && disk.lastResult == state.lastResult && disk.lastRc == state.lastRc
              && disk.phase in {PendingPush, ConfirmationPending, PushedPendingGithub, Inconclusive, Published}))
    }

    method FinalizePushedCandidate() returns (end: End)
      requires Valid() && Known(past, state) && state.candidate.result != BLANK
      modifies this`disk, this`state, this`remote, this`past
      ensures Valid() && Known(past, state) && SameBooks(old(past), past) && Extends(old(past), past)
      ensures Continues()
      ensures NothingMine(old(past).moves, past.moves) && (quiet ==> past.moves == old(past).moves)
      ensures state.phase in {ConfirmationPending, Inconclusive, PushedPendingGithub, Published} && AsRead()
      ensures state.phase == ConfirmationPending <==> past.sights == old(past).sights
      ensures end == E.Returned(0) ==> disk == state && state.phase == Published
      ensures !faults && quiet && old(remote) == state.candidate.head ==> end == E.Returned(0) && remote == state.candidate.head
      ensures !faults && quiet && old(remote) != state.candidate.head ==>
                end == E.Returned(1) && disk == state == old(state).(phase := Inconclusive)
      ensures state.phase == Published ==>
                |old(past).reports| < |past.reports| && past.reports[|past.reports| - 1] == state.candidate.head && state.pr.Some?
      ensures state.phase == PushedPendingGithub && |old(past).reports| < |past.reports| ==>
                past.reports[|past.reports| - 1] != state.candidate.head && state.pr.Some?
    {
      hide Sound, Known, NothingMine, ReadBack;
      var head := state.candidate.head;
      var dies: bool;
      var actual := RemoteBranchHead();
      ghost var read := past;
      KnownStays(old(past), past, state);
      if actual.None? {
        end := StopAt(ConfirmationPending, 1);
        return;
      }
      if actual.value != head {
        end := StopAt(Inconclusive, 1);
        return;
      }
      ReadsBack(old(past), past, old(remote), state, |old(past).sights|);
      var pr: nat := *;
      var fails := Mishap();
      if fails {
        end := StopAt(PushedPendingGithub, 1);
        return;
      }
      var verified := VerifyPrHead(head);
      NothingTwice(old(past).moves, read.moves, past.moves);
      KnownStays(read, past, state);
      ReadBackStays(read, past, state.candidate);
      if !verified {
        KnownAs(past, state, state.(pr := Some(pr)));
        state := state.(pr := Some(pr));
        end := StopAt(PushedPendingGithub, 1);
        return;
      }
      KnownAs(past, state, state.(phase := Published, pr := Some(pr)));
      state := state.(phase := Published, pr := Some(pr));
      var ok := Save();
      dies := Mishap();
      if dies { return E.Died; }
      return E.Returned(if ok then 0 else 1);
    }

    /** The remote was read at the head: records so and finalises. */
    method FinalizeSeen() returns (end: End)
      requires Valid() && Known(past, state) && state.candidate.result != BLANK
      requires ReadBack(past, state.candidate)
      modifies this`disk, this`state, this`remote, this`past
      ensures Valid() && Known(past, state) && SameBooks(old(past), past) && Extends(old(past), past)
      ensures Continues()
      ensures NothingMine(old(past).moves, past.moves) && (quiet ==> past.moves == old(past).moves)
      ensures end.Returned? ==> state.phase in {ConfirmationPending, Inconclusive, PushedPendingGithub, Published} && AsRead()
      ensures end == E.Returned(0) ==> disk == state && state.phase == Published
      ensures !faults && quiet && old(remote) == state.candidate.head ==> end == E.Returned(0) && remote == state.candidate.head
    {
      hide Sound, Known;
      KnownAs(past, state, state.(phase := PushedPendingGithub));
      state := state.(phase := PushedPendingGithub);
      var _ := Save();
      var dies := Mishap();
      if dies { return E.Died; }
      end := FinalizePushedCandidate();
    }

    /** The push itself, and the reading that confirms it. */
    method PushAndConfirm() returns (end: End)
      requires Valid() && Known(past, state) && state.candidate.result != BLANK && local == state.candidate.head
      modifies this`disk, this`state, this`remote, this`past
      ensures Valid() && Known(past, state) && SameBooks(old(past), past) && Extends(old(past), past)
      ensures Continues()
      ensures OnlyOneMore(old(past).moves, past.moves, state.candidate.result)
      ensures end.Returned? ==> AsRead()
      ensures |old(past).sights| < |past.sights|
              && past.sights[|old(past).sights|].head !in {state.candidate.remoteBefore, state.candidate.head} ==>
                state.phase == Inconclusive && end != E.Returned(0)
      ensures end == E.Returned(0) ==> disk == state && state.phase == Published
      ensures !faults && quiet && old(remote) == state.candidate.remoteBefore ==>
                && end == E.Returned(0) && remote == state.candidate.head
                && past.moves == old(past).moves + [Move(state.candidate.remoteBefore, state.candidate.head, state.candidate.result)]
    {
      hide Sound, Known, NothingMine, OnlyOneMore;
      var head, expected, result := state.candidate.head, state.candidate.remoteBefore, state.candidate.result;
      PushWithLease(expected);
      KnownStays(old(past), past, state);
      var dies := Mishap();
      if dies { return E.Died; }
      ghost var pushed, there := past, remote;
      var after := RemoteBranchHead();
      NothingThenOne(old(past).moves, pushed.moves, past.moves, result);
      KnownStays(pushed, past, state);
      if after.None? {
        end := StopAt(ConfirmationPending, 1);
        return;
      }
      if after.value == head {
        ReadsBack(pushed, past, there, state, |pushed.sights|);
        ghost var confirmed := past;
        end := FinalizeSeen();
        NothingThenOne(old(past).moves, confirmed.moves, past.moves, result);
        return;
      }
      end := StopAt(if after.value != expected then Inconclusive else PendingPush, 1);
    }

    method PublishCommittedCandidate() returns (end: End)
      requires Valid() && Known(past, state) && state.candidate.result != BLANK
      modifies this`disk, this`state, this`remote, this`past
      ensures Valid() && Known(past, state) && SameBooks(old(past), past) && Extends(old(past), past)
      ensures Continues()
      ensures OnlyOneMore(old(past).moves, past.moves, state.candidate.result)
      ensures local != state.candidate.head ==>
              NothingMine(old(past).moves, past.moves) && state.phase == Inconclusive && past.sights == old(past).sights
      ensures local == state.candidate.head && !faults && end.Returned? ==> AsRead()
      ensures end.Returned? && local == state.candidate.head ==>
              AsRead() || (faults && state.phase == Inconclusive && past.sights == old(past).sights)
      ensures |old(past).sights| < |past.sights|
              && past.sights[|old(past).sights|].head !in {state.candidate.remoteBefore, state.candidate.head} ==>
                state.phase == Inconclusive && end != E.Returned(0) && (!faults ==> NothingMine(old(past).moves, past.moves))
      ensures end == E.Returned(0) ==> disk == state && state.phase == Published
      ensures !faults && quiet && local == state.candidate.head
              && old(remote) in {state.candidate.remoteBefore, state.candidate.head} ==>
                end == E.Returned(0) && remote == state.candidate.head
      ensures !faults && quiet && local == state.candidate.head
              && old(remote) == state.candidate.remoteBefore != state.candidate.head ==>
                past.moves == old(past).moves + [Move(state.candidate.remoteBefore, state.candidate.head, state.candidate.result)]
      ensures !faults && quiet
              && (local != state.candidate.head || old(remote) !in {state.candidate.remoteBefore, state.candidate.head}) ==>
                end == E.Returned(1) && disk == state == old(state).(phase := Inconclusive) && past.moves == old(past).moves
    {
      hide Sound, Known, NothingMine, OnlyOneMore;
      var head, expected, result := state.candidate.head, state.candidate.remoteBefore, state.candidate.result;
      NothingNew(past.moves, result);
      var fails := Mishap();
      if fails || local != head {
        end := StopAt(Inconclusive, 1);
        return;
      }
      var seen := RemoteBranchHead();
      NothingIsOne(old(past).moves, past.moves, result);
      ghost var first := past;
      KnownStays(old(past), past, state);
      if seen == Some(head) {
        ReadsBack(old(past), past, old(remote), state, |old(past).sights|);
        end := FinalizeSeen();
        NothingTwice(old(past).moves, first.moves, past.moves);
        NothingIsOne(old(past).moves, past.moves, result);
        return;
      }
      if seen.Some? && seen.value != expected {
        end := StopAt(Inconclusive, 1);
        return;
      }
      end := PushAndConfirm();
      NothingThenOne(old(past).moves, first.moves, past.moves, result);
    }

    method ReconcilePreparedCandidate() returns (end: End)
      requires Valid() && Known(past, state) && state.candidate.result != BLANK
      modifies this`disk, this`state, this`local, this`remote, this`past
      ensures Valid() && Known(past, state) && SameBooks(old(past), past) && Extends(old(past), past)
      ensures Continues()
      ensures OnlyOneMore(old(past).moves, past.moves, state.candidate.result)
      ensures old(local) != state.candidate.parent && old(local) != state.candidate.head ==>
              past.moves == old(past).moves && local == old(local)
      ensures BLANK in {state.candidate.head, state.candidate.parent} || state.candidate.head !in objects ==>
                state == old(state).(phase := Inconclusive) && past == old(past) && local == old(local)
                  && end in {E.Died, E.Returned(1)}
      ensures end == E.Returned(0) ==> disk == state && state.phase == Published
      ensures !faults && quiet && state.candidate.parent != BLANK && state.candidate.head != BLANK
              && state.candidate.head in objects
              && old(local) in {state.candidate.parent, state.candidate.head}
              && old(remote) in {state.candidate.remoteBefore, state.candidate.head} ==>
                end == E.Returned(0) && remote == local == state.candidate.head
    {
      hide Sound, Known, NothingMine, OnlyOneMore;
      NothingNew(past.moves, state.candidate.result);
      var dies, fails: bool;
      fails := Mishap();
      if state.candidate.head == BLANK || state.candidate.parent == BLANK || state.candidate.head !in objects || fails {
        end := StopAt(Inconclusive, 1);
        return;
      }
      fails := Mishap();
      if fails { return E.Returned(1); }
      if local == state.candidate.parent {
        fails := Mishap();
        if fails { return E.Returned(1); }
        local := state.candidate.head;
        dies := Mishap();
        if dies { return E.Died; }
      } else if local != state.candidate.head {
        end := StopAt(Inconclusive, 1);
        return;
      }
      KnownAs(past, state, state.(phase := PendingPush));
      state := state.(phase := PendingPush);
      var _ := Save();
      dies := Mishap();
      if dies { return E.Died; }
      end := PublishCommittedCandidate();
    }

    method ReconcilePendingCandidate() returns (end: End)
      requires Valid() && Known(past, state) && state.candidate.result != BLANK
      modifies this`disk, this`state, this`local, this`remote, this`past
      ensures Valid() && Known(past, state) && SameBooks(old(past), past) && Extends(old(past), past)
      ensures Continues()
      ensures OnlyOneMore(old(past).moves, past.moves, state.candidate.result)
      ensures old(state).phase == Inconclusive ==> disk == old(disk) && past.moves == old(past).moves && end == E.Returned(1)
      ensures old(state).phase in {CommitPrepared, PendingPush, ConfirmationPending, PushedPendingGithub}
              && end == E.Returned(0) ==>
                disk == state && state.phase == Published
      ensures !faults && quiet && old(local) == state.candidate.head
              && old(remote) in {state.candidate.remoteBefore, state.candidate.head}
              && old(state).phase in {PendingPush, ConfirmationPending} ==>
                end == E.Returned(0) && remote == state.candidate.head
      ensures !faults && quiet && old(state).phase == CommitPrepared && BLANK !in {state.candidate.parent, state.candidate.head}
              && state.candidate.head in objects && old(local) in {state.candidate.parent, state.candidate.head}
              && old(remote) in {state.candidate.remoteBefore, state.candidate.head} ==>
                end == E.Returned(0) && remote == local == state.candidate.head
      ensures old(state).phase in {NotPublishing, InvalidCandidate, V2Failed, Published} ==>
                end == E.Returned(0) && state == old(state) && disk == old(disk) && past == old(past)
    {
      hide Sound, Known, NothingMine, OnlyOneMore;
      NothingNew(past.moves, state.candidate.result);
      match state.phase {
        case CommitPrepared => end := ReconcilePreparedCandidate();
        case PendingPush => end := PublishCommittedCandidate();
        case ConfirmationPending => end := PublishCommittedCandidate();
        case PushedPendingGithub =>
          end := FinalizePushedCandidate();
          NothingIsOne(old(past).moves, past.moves, state.candidate.result);
        case Inconclusive => return E.Returned(1);
        case _ => return E.Returned(0);
      }
    }

    /** The save that records a new candidate: from here on the result has this commit identity and no other. */
    method SaveCandidate() returns (ok: bool)
      requires Valid() && state.candidate.result != BLANK && state.candidate.head != BLANK
      requires state.candidate.result !in past.recorded
      requires state.phase == CommitPrepared
              && (state.candidate.remoteBefore == BLANK || Seen(past.sights, 0, state.candidate.remoteBefore))
      modifies this`disk, this`past
      ensures Valid() && (!ok ==> faults)
      ensures if ok then disk == state && Known(past, state) && past == Recording(old(past), state.candidate)
              && Extends(old(past), past)
              else disk == old(disk) && past == old(past)
    {
      hide Sound, Known;
      var fails := Mishap();
      if !fails {
        RecordingKeeps(past, remote, state.candidate);
        past := Recording(past, state.candidate);
        disk := state;
      }
      return !fails;
    }

    /** The candidate is recorded: move the worktree to it and publish it. */
    method MoveAndPublish(result: Id) returns (end: End)
      requires Valid() && Known(past, state) && disk == state && state.phase == CommitPrepared
      requires result != BLANK && state.candidate.result == result && state.lastResult != result
      modifies this`disk, this`state, this`local, this`dirty, this`remote, this`past
      ensures Valid() && Extends(old(past), past) && OnlyOneMore(old(past).moves, past.moves, result)
      ensures SameBooks(old(past), past) && disk.candidate == state.candidate == old(state).candidate && Known(past, state)
      ensures disk.lastResult in {old(disk).lastResult, result} && state.lastResult == result
      ensures end == E.Returned(0) ==> disk.phase == Published
      ensures disk.lastResult != result || disk.phase == CommitPrepared ==> NothingMine(old(past).moves, past.moves)
      ensures !faults ==> local == state.candidate.head && !dirty && disk.lastResult == result && disk.phase != CommitPrepared
      ensures !faults && quiet && old(remote) == state.candidate.remoteBefore != state.candidate.head ==>
                end == E.Returned(0) && remote == state.candidate.head
                && past.moves == old(past).moves + [Move(old(remote), state.candidate.head, result)]
    {
      hide Sound, Known, NothingMine, OnlyOneMore;
      NothingNew(past.moves, result);
      KnownAs(past, state, state.(lastResult := result, lastRc := Some(0), phase := PendingPush));
      KnownAs(past, state, state.(lastResult := result, lastRc := Some(0)));
      state := state.(lastResult := result, lastRc := Some(0));
      var fails := Mishap();
      if fails { return E.Returned(1); }
      local, dirty := state.candidate.head, false;
      state := state.(phase := PendingPush);
      var ok := Save();
      var dies := Mishap();
      if dies { return E.Died; }
      if !ok { return E.Returned(1); }
      end := PublishCommittedCandidate();
    }

    /** Creates the commit and records it, then moves the worktree to it and publishes it. */
    method CommitCandidate(result: Id, commit: Id) returns (end: End)
      requires Valid() && Known(past, state) && result != BLANK && result !in past.recorded && commit != BLANK
              && state.lastResult != result
      modifies this
      ensures Valid() && Extends(old(past), past) && OnlyOneMore(old(past).moves, past.moves, result)
      ensures result in past.recorded ==>
              disk.candidate == past.recorded[result] && past.recorded[result].head == commit
                && past.recorded[result].parent == old(local)
      ensures result in past.since ==> result in old(past).since || past.since[result] >= |old(past).sights|
      ensures disk.lastResult in {old(disk).lastResult, old(state).lastResult, result}
      ensures end.Returned? && state.lastResult == result ==>
              Known(past, state) && (result in past.recorded ==> state.candidate == past.recorded[result])
      ensures end == E.Returned(0) ==> disk.phase == Published && disk.candidate.result == result && state.lastResult == result
      ensures disk.lastResult != result || disk.phase == CommitPrepared ==> NothingMine(old(past).moves, past.moves)
      ensures !faults && quiet && commit != old(remote) ==>
                end == E.Returned(0) && remote == commit && past.moves == old(past).moves + [Move(old(remote), commit, result)]
    {
      hide Sound, Known, NothingMine, OnlyOneMore;
      var parent := local;
      objects := objects + {commit};
      var before := RemoteBranchHead();
      ghost var read := past;
      NothingIsOne(old(past).moves, past.moves, result);
      if before.Some? { assert past.sights[|old(past).sights|].head == before.value; }
      state := state.(phase := CommitPrepared,
                      candidate := T.Candidate(result, commit, parent, if before.Some? then before.value else BLANK));
      var ok := SaveCandidate();
      var dies := Mishap();
      if dies { return E.Died; }
      if !ok { return E.Returned(1); }
      end := MoveAndPublish(result);
      if disk.lastResult != result || disk.phase == CommitPrepared { NothingTwice(old(past).moves, read.moves, past.moves); }
      NothingThenOne(old(past).moves, read.moves, past.moves, result);
    }

    /** `commit` is the object `git commit-tree` creates. */
    method CommitAndPublishCandidate(result: Id, commit: Id, checks: Checks) returns (end: End)
      requires Valid() && Known(past, state) && state.candidate.result != result && result != BLANK
              && result !in past.recorded && commit != BLANK
      requires state.lastResult != result
      modifies this
      ensures Valid() && Extends(old(past), past) && OnlyOneMore(old(past).moves, past.moves, result)
      ensures !old(dirty) || !checks.verified || !checks.clean ==> past.moves == old(past).moves && result !in past.recorded
      ensures result in past.recorded ==>
              disk.candidate == past.recorded[result] && past.recorded[result].head == commit
                && past.recorded[result].parent == old(local)
      ensures result in past.since ==> result in old(past).since || past.since[result] >= |old(past).sights|
      ensures disk.lastResult in {old(disk).lastResult, old(state).lastResult, result}
      ensures end.Returned? && state.lastResult == result ==>
              Known(past, state) && (result in past.recorded ==> state.candidate == past.recorded[result])
      ensures end == E.Returned(0) ==> disk.phase == Published && disk.candidate.result == result && state.lastResult == result
      ensures disk.lastResult != result || disk.phase == CommitPrepared ==> NothingMine(old(past).moves, past.moves)
      ensures !faults && !old(dirty) ==>
                end == E.Returned(1) && disk == state == old(state).(phase := InvalidCandidate, lastResult := result, lastRc := Some(1))
      ensures !faults && old(dirty) && !checks.verified ==>
                end == E.Returned(4) && disk == state == old(state).(phase := V2Failed, lastResult := result, lastRc := Some(4))
      ensures old(dirty) && checks.verified && !checks.clean ==> end == E.Returned(1) && state == old(state) && disk == old(disk)
      ensures !faults && quiet && old(dirty) && checks.verified && checks.clean && commit != old(remote) ==>
                end == E.Returned(0) && remote == commit && past.moves == old(past).moves + [Move(old(remote), commit, result)]
    {
      hide Sound, Known, NothingMine, OnlyOneMore;
      NothingNew(past.moves, result);
      if !dirty {
        KnownAs(past, state, state.(lastResult := result, lastRc := Some(1)));
        state := state.(lastResult := result, lastRc := Some(1));
        end := StopAt(InvalidCandidate, 1);
        return;
      }
      if !checks.verified {
        KnownAs(past, state, state.(lastResult := result, lastRc := Some(4)));
        state := state.(lastResult := result, lastRc := Some(4));
        end := StopAt(V2Failed, 4);
        return;
      }
      var fails := Mishap();
      if fails || !checks.clean { return E.Returned(1); }
      end := CommitCandidate(result, commit);
    }

    method DispatchCandidate(result: Id, commit: Id, checks: Checks) returns (end: End)
      requires Valid() && state == disk && result != BLANK && commit != BLANK
      requires result in past.recorded ==> disk.candidate == past.recorded[result]
      modifies this
      ensures Valid() && Extends(old(past), past) && OnlyOneMore(old(past).moves, past.moves, result)
      ensures result in past.recorded ==> disk.candidate == past.recorded[result]
      ensures result in past.since ==> result in old(past).since || past.since[result] >= |old(past).sights|
      ensures disk.lastResult in {old(disk).lastResult, result}
      ensures end.Returned? && state.lastResult == result ==>
              Known(past, state) && (result in past.recorded ==> state.candidate == past.recorded[result])
      ensures old(disk).lastResult == result ==>
                && disk == old(disk) == state && past.moves == old(past).moves
                && end == E.Returned(if state.lastRc.Some? then state.lastRc.value else 0)
      ensures disk.lastResult != result ==> NothingMine(old(past).moves, past.moves)
      ensures !faults && old(disk).candidate.result == result != old(disk).lastResult ==>
              disk.lastResult == result && disk.lastRc == Some(0)
      ensures !faults && quiet && old(disk).candidate.result == result != old(disk).lastResult
              && old(disk).phase in {PendingPush, ConfirmationPending}
              && old(local) == old(disk).candidate.head
                && old(remote) in {old(disk).candidate.remoteBefore, old(disk).candidate.head} ==>
                end == E.Returned(0) && remote == old(disk).candidate.head && disk.phase == Published
      ensures !faults && quiet && result !in {old(disk).lastResult, old(disk).candidate.result}
              && old(dirty) && checks.verified && checks.clean && commit != old(remote) ==>
                && end == E.Returned(0) && remote == commit && disk.phase == Published
                && past.moves == old(past).moves + [Move(old(remote), commit, result)]
    {
      hide History, Faithful, Lawful, NothingMine, OnlyOneMore;
      NothingNew(past.moves, result);
      if state.lastResult == result {
        return E.Returned(if state.lastRc.Some? then state.lastRc.value else 0);
      }
      if state.candidate.result == result {
        KnownAs(past, state, state.(lastResult := result, lastRc := Some(0)));
        state := state.(lastResult := result, lastRc := Some(0));
        var ok := Save();
        var dies := Mishap();
        if dies { return E.Died; }
        if !ok { return E.Returned(1); }
        end := ReconcilePendingCandidate();
        return;
      }
      end := CommitAndPublishCandidate(result, commit, checks);
    }

    /**
     One result, dispatched by any number of processes that each may die anywhere, the remote branch and the worktree
     moving meanwhile. In the history of the branch every change of ours was made for this result, from the one recorded
     pre-image to the one recorded head; the pre-image was read from the remote unless there was none to read; and the
     result is published only when the remote has been read at that head since the candidate was recorded.
     */
    method PublishThroughCrashes(result: Id, attempts: seq<(Id, Checks)>)
      requires Valid() && result != BLANK && result !in past.recorded && forall i :: 0 <= i < |attempts| ==>
              attempts[i].0 != BLANK
      modifies this
      ensures Valid() && Extends(old(past), past)
      ensures History(past.origin, past.moves, remote) && Faithful(past.origin, past.moves, past.sights)
      ensures forall i :: |old(past).moves| <= i < |past.moves| && past.moves[i].result != BLANK ==>
                && past.moves[i].result == result && result in past.recorded
                && past.moves[i].before == past.recorded[result].remoteBefore && past.moves[i].after == past.recorded[result].head
      ensures result in past.recorded ==>
                && disk.candidate == past.recorded[result]
                && (disk.candidate.remoteBefore == BLANK || Seen(past.sights, 0, disk.candidate.remoteBefore))
                && (disk.phase in {PushedPendingGithub, Published} ==> Seen(past.sights, |old(past).sights|, disk.candidate.head))
                && (disk.phase == Published ==> disk.candidate.head in past.reports && disk.pr.Some?)
    {
      hide History, Faithful, Lawful, Grounded, Known, Seen, OnlyOneMore;
      ghost var was := past;
      NothingNew(past.moves, result);
      var i := 0;
      while i < |attempts|
        invariant 0 <= i <= |attempts| && was == old(past)
        invariant Valid() && Extends(was, past) && (result in past.recorded ==> disk.candidate == past.recorded[result])
        invariant result in past.since ==> past.since[result] >= |was.sights|
        invariant forall j :: |was.moves| <= j < |past.moves| && past.moves[j].result != BLANK ==> past.moves[j].result == result
      {
        ghost var before := past;
        Others();
        local, dirty := *, *;
        state := disk;
        ghost var moved := past;
        var end := DispatchCandidate(result, attempts[i].0, attempts[i].1);
        OwnedSteps(was.moves, before.moves, moved.moves, past.moves, result);
        if end.Returned? && state.lastResult == result {
          var _ := Save();
        }
        i := i + 1;
      }
      AllLawful(past, result);
      if result in past.recorded {
        RecordedResult(past, remote, result);
        ReadSince(past, remote, disk, |was.sights|);
      }
    }
  }

  lemma OwnedSteps(was: seq<Move>, a: seq<Move>, b: seq<Move>, c: seq<Move>, result: Id)
    requires was <= a && NothingMine(a, b) && OnlyOneMore(b, c, result)
    requires forall j :: |was| <= j < |a| && a[j].result != BLANK ==> a[j].result == result
    ensures forall j :: |was| <= j < |c| && c[j].result != BLANK ==> c[j].result == result
  {
    forall j | |was| <= j < |c| && c[j].result != BLANK
      ensures c[j].result == result
    {
      if j < |b| { assert c[j] == b[j]; }
      if j < |a| { assert b[j] == a[j]; }
    }
  }

  lemma AllLawful(past: Past, result: Id)
    requires Lawful(past)
    ensures forall i :: 0 <= i < |past.moves| && past.moves[i].result == result != BLANK ==>
              && result in past.recorded
              && past.moves[i].before == past.recorded[result].remoteBefore && past.moves[i].after == past.recorded[result].head
  {
  }

  lemma RecordedResult(past: Past, remote: Id, result: Id)
    requires Sound(past, remote) && result in past.recorded
    ensures past.recorded[result].result == result && result in past.since
  {
    assert Grounded(past, result);
  }

  lemma ReadSince(past: Past, remote: Id, r: Record, from: nat)
    requires Sound(past, remote) && Known(past, r) && r.candidate.result != BLANK && r.candidate.result in past.since
    requires past.since[r.candidate.result] >= from
    ensures r.candidate.remoteBefore == BLANK || Seen(past.sights, 0, r.candidate.remoteBefore)
    ensures Pushed(r.phase) ==> Seen(past.sights, from, r.candidate.head)
    ensures r.phase == Published ==> r.candidate.head in past.reports && r.pr.Some?
  {
    assert Grounded(past, r.candidate.result);
  }

  // ---------------------------------------------------------------- the turn that publishes

  function PhaseId(p: Phase): Id {
    match p
    case NotPublishing => 0
    case InvalidCandidate => 1
    case V2Failed => 2
    case CommitPrepared => 3
    case PendingPush => 4
    case ConfirmationPending => 5
    case PushedPendingGithub => 6
    case Inconclusive => 7
    case Published => 8
  }

  /** Different phases are recorded as different statuses. */
  lemma PhasesDiffer(p: Phase, q: Phase)
    ensures PhaseId(p) == PhaseId(q) ==> p == q
  {
  }

  /** The runtime state with the fields publication owns written. */
  function Written(s: T.State, r: Record): T.State {
    s.(status := T.Publication(PhaseId(r.phase)), candidate := r.candidate, pr := r.pr, lastResult := r.lastResult, lastRc := r.lastRc)
  }

  /**
   Whatever record a dispatch leaves on disk, the runtime state written with it keeps the publishing turn on track, before
   and after the turn is cleared, and leaves everything but the fields of publication alone.
   */
  lemma WritesStayOnTrack(base: T.State, s: T.State, r: Record, f: T.Files, dirty: bool)
    requires T.OnTrack(base, s, f, dirty) && T.Publishing(s, f) && T.Reconciled(s, f) == Some(s)
            && s.lastCounted == s.active.result
    ensures var t := Written(s, r);
            && T.OnTrack(base, t, f, dirty) && T.OnTrack(base, T.Cleared(t), f, dirty)
            && t.active == s.active && t.thread == s.thread && t.threadTurns == s.threadTurns && t.totalTurns == s.totalTurns
            && t.generation == s.generation && t.history == s.history && t.lastCounted == s.lastCounted
  {
    T.PublicationOnTrack(base, s, Written(s, r), f, dirty);
  }

  lemma NothingNew(moves: seq<Move>, result: Id)
    ensures NothingMine(moves, moves) && OnlyOneMore(moves, moves, result)
  {
  }
}

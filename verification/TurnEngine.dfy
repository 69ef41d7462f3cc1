/**
 The Host engine that runs a turn and recovers it (backend/cmd/cddm-change).

 The state file, the evidence files and the blocker comments are durable; `state` is the copy in memory. After every
 durable effect the host may die, which is an early return with `Died`: whatever is on disk then is what the next
 process finds.
 */
module TurnEngine {
  import opened Prelude
  import opened TurnState

  datatype End = Died | Returned(rc: int)

  // ---------------------------------------------------------------- blocker comments

  /** Blocker comments in order: which result each one names, and the issue or pull request it is on. */
  type Comments = seq<(Id, nat)>

  /** Where a blocker of this result is posted now, if anywhere; `pr` is the open pull request, or zero. */
  function PostTarget(posted: Comments, result: Id, issue: nat, pr: nat): Option<nat> {
    if (result, issue) in posted then None
    else if pr == 0 then Some(issue)
    else if (result, pr) in posted then None
    else Some(pr)
  }

  /** One attempt: nothing, or the one comment that is missing. */
  ghost predicate Commented(was: Comments, now: Comments, result: Id, issue: nat, pr: nat) {
    || now == was
    || (PostTarget(was, result, issue, pr).Some? && now == was + [(result, PostTarget(was, result, issue, pr).value)])
  }

  /** At most one comment names the result, and it is on the issue or on this pull request. */
  ghost predicate OneHome(posted: Comments, result: Id, issue: nat, pr: nat) {
    && (forall i, j :: 0 <= i < j < |posted| ==> !(posted[i].0 == result && posted[j].0 == result))
    && (forall i :: 0 <= i < |posted| && posted[i].0 == result ==> posted[i].1 == issue || (pr != 0 && posted[i].1 == pr))
  }

  /** While the branch's open pull request stays the same, no number of attempts posts a second comment. */
  lemma CommentedOnce(was: Comments, now: Comments, result: Id, other: Id, issue: nat, pr: nat)
    requires OneHome(was, other, issue, pr) && Commented(was, now, result, issue, pr)
    ensures OneHome(now, other, issue, pr)
  {
    if now != was && other == result {
      assert forall i :: 0 <= i < |was| && was[i].0 == result ==> was[i] in was;
      assert forall i :: 0 <= i < |was| ==> was[i].0 != result;
    }
  }

  /** How many comments name the result. */
  function Naming(posted: Comments, result: Id): nat {
    if posted == [] then 0 else Naming(posted[..|posted| - 1], result) + (if posted[|posted| - 1].0 == result then 1 else 0)
  }

  lemma NamingNext(posted: Comments, x: (Id, nat), result: Id)
    ensures Naming(posted + [x], result) == Naming(posted, result) + (if x.0 == result then 1 else 0)
  {
    assert (posted + [x])[..|posted|] == posted;
  }

  lemma {:induction false} NoneNamed(posted: Comments, result: Id, place: nat)
    requires Naming(posted, result) == 0
    ensures (result, place) !in posted
    decreases |posted|
  {
    if posted != [] {
      var n := |posted| - 1;
      NoneNamed(posted[..n], result, place);
      assert posted == posted[..n] + [posted[n]];
    }
  }

  /** Exactly one comment names the result, and it is on this issue or pull request. */
  ghost predicate OnlyAt(posted: Comments, result: Id, place: nat) {
    Naming(posted, result) == 1 && forall x :: (result, x) in posted <==> x == place
  }

  lemma FirstComment(posted: Comments, result: Id, place: nat)
    requires Naming(posted, result) == 0
    ensures OnlyAt(posted + [(result, place)], result, place)
  {
    NamingNext(posted, (result, place), result);
    forall x: nat
      ensures (result, x) !in posted
    {
      NoneNamed(posted, result, x);
    }
  }

  // ---------------------------------------------------------------- a blocked turn has been announced

  /** A state that ended blocked has a comment that names its result. */
  ghost predicate Spoken(s: State, posted: Comments) {
    s.status == Blocked ==> exists place: nat :: (s.lastResult, place) in posted
  }

  lemma StillSpoken(s: State, was: Comments, now: Comments, result: Id, issue: nat, pr: nat)
    requires Spoken(s, was) && Commented(was, now, result, issue, pr)
    ensures Spoken(s, now)
  {
    assert forall x :: x in was ==> x in now;
  }

  lemma SpokenAfterPost(s: State, posted: Comments, result: Id, issue: nat, pr: nat)
    requires PostTarget(posted, result, issue, pr).None? && s.lastResult == result
    ensures Spoken(s, posted)
  {
  }

  /** A result that had no comment before one attempt, and whose turn ended blocked, has exactly one. */
  lemma SpokenOnce(s: State, was: Comments, now: Comments, result: Id, issue: nat, pr: nat)
    requires Commented(was, now, result, issue, pr) && Naming(was, result) == 0
    requires Spoken(s, now) && s.status == Blocked && s.lastResult == result
    ensures Naming(now, result) == 1 && now == was + [(result, if pr == 0 then issue else pr)]
  {
    NoneNamed(was, result, issue);
    NoneNamed(was, result, pr);
    var place: nat :| (result, place) in now;
    NoneNamed(was, result, place);
    NamingNext(was, (result, if pr == 0 then issue else pr), result);
  }

  lemma {:induction false} NamedOnce(posted: Comments, result: Id, place: nat, issue: nat, pr: nat)
    requires OneHome(posted, result, issue, pr) && (result, place) in posted
    ensures Naming(posted, result) == 1
    decreases |posted|
  {
    var n := |posted| - 1;
    assert posted == posted[..n] + [posted[n]];
    if posted[n].0 == result {
      NotNamed(posted[..n], result);
    } else {
      NamedOnce(posted[..n], result, place, issue, pr);
    }
  }

  lemma {:induction false} NotNamed(posted: Comments, result: Id)
    requires forall i :: 0 <= i < |posted| ==> posted[i].0 != result
    ensures Naming(posted, result) == 0
    decreases |posted|
  {
    if posted != [] { NotNamed(posted[..|posted| - 1], result); }
  }

  lemma SpokenIsOne(s: State, posted: Comments, issue: nat, pr: nat)
    requires Spoken(s, posted) && s.status == Blocked && OneHome(posted, s.lastResult, issue, pr)
    ensures Naming(posted, s.lastResult) == 1
  {
    var place: nat :| (s.lastResult, place) in posted;
    NamedOnce(posted, s.lastResult, place, issue, pr);
  }

  /** A decided turn whose result asks to stop and has not been disposed of. */
  predicate Blocks(s: State, f: Files) {
    && Decided(s, f) && f.exits[s.active.exitStatus] == 0 && ResultOf(f, s.active.result) == Says(SaysBlocked)
    && s.lastResult != s.active.result
  }

  /** Such a turn ends blocked. */
  lemma BlocksEnds(s: State, f: Files, dirty: bool)
    requires Blocks(s, f)
    ensures var end := Finish(s, f, dirty);
            end.Some? && end.value.status == Blocked && end.value.lastResult == s.active.result && end.value.lastRc == Some(0)
  {
  }

  /** Attempts one after another under these open pull requests; each posts what is missing, or fails before it does. */
  ghost predicate Attempts(run: seq<Comments>, result: Id, issue: nat, prs: seq<nat>) {
    |run| == |prs| + 1 && forall i :: 0 <= i < |prs| ==> Commented(run[i], run[i + 1], result, issue, prs[i])
  }

  lemma NextAttempt(run: seq<Comments>, result: Id, issue: nat, prs: seq<nat>, i: nat, now: Comments)
    requires i < |prs| && Attempts(run, result, issue, prs[..i]) && Commented(run[i], now, result, issue, prs[i])
    ensures Attempts(run + [now], result, issue, prs[..i + 1])
  {
  }

  /** Once an attempt finds an open pull request, every later one finds the same. */
  ghost predicate Steady(issue: nat, prs: seq<nat>) {
    forall i, j :: 0 <= i < j < |prs| && prs[i] != 0 && prs[i] != issue ==> prs[j] == prs[i]
  }

  lemma {:induction false} SteadyPostsOnce(run: seq<Comments>, result: Id, issue: nat, prs: seq<nat>, n: nat)
    requires Attempts(run, result, issue, prs) && Steady(issue, prs) && Naming(run[0], result) == 0 && n <= |prs|
    ensures Naming(run[n], result) == 0 || OnlyAt(run[n], result, issue)
            || exists i :: 0 <= i < n && prs[i] != 0 && prs[i] != issue && OnlyAt(run[n], result, prs[i])
    decreases n
  {
    if n > 0 {
      var k := n - 1;
      SteadyPostsOnce(run, result, issue, prs, k);
      assert Commented(run[k], run[k + 1], result, issue, prs[k]);
      if Naming(run[k], result) == 0 && run[n] != run[k] {
        FirstComment(run[k], result, PostTarget(run[k], result, issue, prs[k]).value);
      }
    }
  }

  /** Posts at two attempts, if the pull request is not steady between them. */
  lemma UnsteadyPostsTwice(was: Comments, result: Id, issue: nat, prs: seq<nat>, i: nat, j: nat) returns (run: seq<Comments>)
    requires Naming(was, result) == 0 && i < j < |prs| && prs[i] != 0 && prs[i] != issue && prs[j] != prs[i]
    ensures Attempts(run, result, issue, prs) && run[0] == was && Naming(run[|prs|], result) == 2
  {
    NoneNamed(was, result, issue);
    NoneNamed(was, result, prs[i]);
    FirstComment(was, result, prs[i]);
    var one := was + [(result, prs[i])];
    var second := PostTarget(one, result, issue, prs[j]).value;
    var two := one + [(result, second)];
    NamingNext(one, (result, second), result);
    run := seq(|prs| + 1, n => if n <= i then was else if n <= j then one else two);
  }

  /**
   Over any number of attempts, whichever of them fail, at most one blocker comment is posted exactly when the open pull
   request is steady: no attempt that found one is followed by an attempt that finds another or none.
   */
  lemma AtMostOneCommentIff(was: Comments, result: Id, issue: nat, prs: seq<nat>)
    requires Naming(was, result) == 0
    ensures Steady(issue, prs) <==>
            forall run :: Attempts(run, result, issue, prs) && run[0] == was ==> Naming(run[|prs|], result) <= 1
  {
    if Steady(issue, prs) {
      forall run | Attempts(run, result, issue, prs) && run[0] == was
        ensures Naming(run[|prs|], result) <= 1
      {
        SteadyPostsOnce(run, result, issue, prs, |prs|);
      }
    } else {
      var i, j :| 0 <= i < j < |prs| && prs[i] != 0 && prs[i] != issue && prs[j] != prs[i];
      var run := UnsteadyPostsTwice(was, result, issue, prs, i, j);
    }
  }

  /** The comments after these attempts, when every one of them gets to post what is missing. */
  function Posted(was: Comments, result: Id, issue: nat, prs: seq<nat>): Comments
    decreases |prs|
  {
    if prs == [] then was
    else
      var was' := Posted(was, result, issue, prs[..|prs| - 1]);
      match PostTarget(was', result, issue, prs[|prs| - 1])
      case None => was'
      case Some(place) => was' + [(result, place)]
  }

  lemma {:induction false} PostedGrows(was: Comments, result: Id, issue: nat, prs: seq<nat>, n: nat)
    requires n <= |prs|
    ensures Naming(Posted(was, result, issue, prs[..n]), result) <= Naming(Posted(was, result, issue, prs), result)
    decreases |prs|
  {
    if n == |prs| {
      assert prs[..n] == prs;
    } else {
      var k := |prs| - 1;
      PostedGrows(was, result, issue, prs[..k], n);
      assert prs[..k][..n] == prs[..n];
      var was' := Posted(was, result, issue, prs[..k]);
      var target := PostTarget(was', result, issue, prs[k]);
      if target.Some? { NamingNext(was', (result, target.value), result); }
    }
  }

  /** The first attempt settles where the comment goes; while the pull request is the first one, it stays the only one. */
  lemma {:induction false} PostedAt(was: Comments, result: Id, issue: nat, prs: seq<nat>)
    requires Naming(was, result) == 0 && prs != []
    requires prs[0] == 0 || prs[0] == issue || forall i :: 0 <= i < |prs| ==> prs[i] == prs[0]
    ensures OnlyAt(Posted(was, result, issue, prs), result, if prs[0] == 0 then issue else prs[0])
    decreases |prs|
  {
    NoneNamed(was, result, issue);
    NoneNamed(was, result, prs[0]);
    var k := |prs| - 1;
    if k == 0 {
      assert prs[..0] == [];
      FirstComment(was, result, if prs[0] == 0 then issue else prs[0]);
    } else {
      PostedAt(was, result, issue, prs[..k]);
    }
  }

  /**
   When every attempt gets to post, a second comment is posted exactly if the first one went to a pull request that is not
   the open one at every later attempt.
   */
  lemma SecondCommentIff(was: Comments, result: Id, issue: nat, prs: seq<nat>)
    requires Naming(was, result) == 0 && prs != []
    ensures Naming(Posted(was, result, issue, prs), result) > 1
            <==> prs[0] != 0 && prs[0] != issue && exists i :: 0 <= i < |prs| && prs[i] != prs[0]
  {
    if prs[0] == 0 || prs[0] == issue || forall i :: 0 <= i < |prs| ==> prs[i] == prs[0] {
      PostedAt(was, result, issue, prs);
    } else {
      var i := FirstOther(prs);
      PostedAt(was, result, issue, prs[..i]);
      var one := Posted(was, result, issue, prs[..i]);
      var second := PostTarget(one, result, issue, prs[i]).value;
      assert prs[..i + 1][..i] == prs[..i];
      NamingNext(one, (result, second), result);
      PostedGrows(was, result, issue, prs, i + 1);
    }
  }

  /** The first attempt under another pull request than the first attempt's. */
  lemma FirstOther(prs: seq<nat>) returns (i: nat)
    requires exists j :: 0 <= j < |prs| && prs[j] != prs[0]
    ensures 0 < i < |prs| && prs[i] != prs[0] && forall j :: 0 <= j < i ==> prs[j] == prs[0]
  {
    i := 1;
    while i < |prs| && prs[i] == prs[0]
      invariant 0 < i <= |prs| && forall j :: 0 <= j < i ==> prs[j] == prs[0]
    {
      i := i + 1;
    }
  }

  lemma IdleIsFinished(s: State, f: Files, dirty: bool)
    requires !Active(s)
    ensures Finish(s, f, dirty) == Some(s)
  {
  }

  /** A turn that does not publish never comes to publish. */
  lemma StillPrivate(base: State, s: State, f: Files, dirty: bool)
    requires OnTrack(base, s, f, dirty) && !Publishing(base, f)
    ensures !Publishing(s, f)
  {
    if Decided(s, f) { SameEvidence(base, s, f, dirty); }
  }

  lemma TrackedCounts(base: State, s: State, f: Files, dirty: bool)
    requires OnTrack(base, s, f, dirty)
    ensures Sound(s, f) && Due(s, f) == Due(base, f)
  {
  }

  lemma IntentFacts(s: State, intent: State, f: Files, turn: Id)
    requires Sound(s, f) && !Active(s) && turn != BLANK && s.lastResult != turn && s.lastCounted != turn
    requires intent == Intent(s, intent.active.mode, turn, intent.active.previous, intent.active.model, intent.active.reasoning, intent.active.reason)
    requires intent.active.mode != NoMode
    ensures Book(intent) && Unspent(intent, turn) && intent.active.pid.None? && intent.totalTurns == Due(s, f)
  {
  }

  lemma StillPublishing(base: State, s: State, f: Files, dirty: bool)
    requires OnTrack(base, s, f, dirty)
    ensures Publishing(s, f) ==> Publishing(base, f)
  {
    if Decided(s, f) { SameEvidence(base, s, f, dirty); }
  }

  lemma StillEarly(s: State, intent: State, f: Files, g: Files)
    requires f.threads == g.threads && Early(s, intent, f)
    ensures Early(s, intent, g)
  {
  }

  lemma NoComment(posted: Comments, result: Id, issue: nat, pr: nat)
    ensures Commented(posted, posted, result, issue, pr)
  {
  }

  /** Settings and status of an idle state may be rewritten. */
  lemma IdleRewrite(s: State, t: State, f: Files, dirty: bool)
    requires Sound(s, f) && !Active(s) && t == s.(model := t.model, reasoning := t.reasoning, status := t.status)
    ensures OnTrack(t, t, f, dirty) && Sound(t, f) && !Active(t) && Due(t, f) == Due(s, f)
  {
  }

  lemma NewState(s: State, f: Files, dirty: bool)
    requires s.thread == BLANK && s.threadTurns == 0 && s.totalTurns == 0 && s.generation == 1 && s.history == []
            && s.active == IDLE
    ensures OnTrack(s, s, f, dirty) && Sound(s, f) && !Active(s) && Due(s, f) == 0
  {
  }

  lemma LaunchedIsActive(s: State, intent: State)
    requires s == intent.(active := s.active) && s.active.(pid := None) == intent.active && intent.active.mode != NoMode
            && Book(intent)
    ensures Active(s) && Book(s)
  {
  }

  lemma Threads(s: State, f: Files)
    ensures Reconciled(s, f).Some? ==> s.active.events in f.threads
  {
  }

  lemma SameThreads(s: State, f: Files, g: Files)
    requires f.threads == g.threads
    ensures Reconciled(s, f) == Reconciled(s, g)
  {
  }

  lemma FinishFailed(s: State, f: Files, dirty: bool)
    requires Decided(s, f) && Reconciled(s, f) == Some(s) && s.lastCounted == s.active.result
    ensures var rc := f.exits[s.active.exitStatus];
            var result := s.active.result;
            && (rc != 0 ==> Finish(s, f, dirty) == Some(Cleared(Disposed(s, TurnFailed, result, rc))))
            && (rc == 0 && ResultOf(f, result) == Missing ==> Finish(s, f, dirty) == Some(Cleared(Disposed(s, EmptyResult, result, 12))))
            && (rc == 0 && ResultOf(f, result) == Malformed ==> Finish(s, f, dirty) == Some(Cleared(Disposed(s, InvalidResult, result, 13))))
  {
  }

  /** The status of a turn whose event stream never named a thread. */
  function Threadless(mode: Mode): Status {
    if mode == Start then StartFailedNoThread else if mode == Rotate then RotateFailedNoThread else ThreadMismatch
  }

  /** The return code a disposed turn is reported with. */
  function RecordedRc(s: State): int {
    if s.lastRc.Some? then s.lastRc.value else 0
  }

  // ---------------------------------------------------------------- the engine

  class Engine {
    const issue: nat
    const faults: bool           // may saves and calls fail, and may the host die?
    var disk: Option<State>
    var files: Files
    var dirty: bool
    var openPr: nat
    var posted: Comments
    var state: State
    ghost var ended: set<Id>     // turns whose exit status became durable under a matching thread identity

    /** The state file is consistent, and counts every ended turn exactly once. */
    ghost predicate Valid()
      reads this
    {
      match disk
      case None => ended == {}
      case Some(s) => Sound(s, files) && Due(s, files) == |ended| && Spoken(s, posted)
    }

    /** Whatever is on disk ends as `base` does. */
    ghost predicate OnDisk(base: State)
      reads this
    {
      disk.Some? && OnTrack(base, disk.value, files, dirty) && Spoken(disk.value, posted)
    }

    /** The bound and counted turn `dispatchResult` works on. */
    ghost predicate Ripe(result: Id)
      reads this
    {
      && Decided(state, files) && Reconciled(state, files) == Some(state)
      && state.active.result == result && state.lastCounted == result
      && files.exits[state.active.exitStatus] == 0 && ResultOf(files, result).Says?
    }

    constructor (issue: nat, faults: bool)
      ensures disk.None? && Valid() && posted == [] && this.issue == issue && this.faults == faults
    {
      this.issue, this.faults := issue, faults;
      disk, files, dirty, openPr, posted := None, Files(map[], map[], map[]), false, 0, [];
      state := State(BLANK, BLANK, BLANK, WorktreeInitializing, 0, 0, 1, [], NO_CANDIDATE, None, IDLE, BLANK, None, BLANK);
      ended := {};
    }

    /** Does something go wrong, or the host die, at this point? */
    method Mishap() returns (m: bool)
      ensures m ==> faults
    {
      m := *;
      m := m && faults;
    }

    /** An atomic replacement of the state file; only a state on track, and no blocker nobody was told of, is ever written. */
    method Save(ghost base: State) returns (ok: bool)
      requires OnTrack(base, state, files, dirty) && Spoken(state, posted)
      modifies this`disk
      ensures disk == (if ok then Some(state) else old(disk)) && (!ok ==> faults)
    {
      var fails := Mishap();
      if !fails { disk := Some(state); }
      return !fails;
    }

    /** Counts a finished turn: once for each result, on the thread and in all, leaving the books balanced. */
    method CountTurn(result: Id)
      modifies this`state
      ensures state == Counted(old(state), result)
      ensures Counted(state, result) == state && state.lastCounted == result
      ensures state == old(state) <==> old(state).lastCounted == result
      ensures old(state).lastCounted != result ==> state.totalTurns == old(state).totalTurns + 1
      ensures Book(old(state)) && old(state).thread != BLANK ==> Book(state)
    {
      if state.lastCounted == result { return; }
      state := state.(threadTurns := state.threadTurns + 1, totalTurns := state.totalTurns + 1, lastCounted := result);
    }

    method ClearActive()
      modifies this`state
      ensures state == Cleared(old(state))
    {
      state := state.(active := IDLE);
    }

    /** The one save that disposes of a turn that has nothing to dispatch: outcome recorded, turn cleared. */
    function Settle(s: State, status: Status, result: Id, rc: int): State {
      Cleared(Disposed(s, status, result, rc))
    }

    method SetResultDisposition(status: Status, result: Id, rc: int)
      modifies this`state
      ensures state == Disposed(old(state), status, result, rc)
    {
      state := state.(status := status, lastResult := result, lastRc := Some(rc));
    }

    // ---------------------------------------------------------------- dispatch

    /** Any GitHub call may fail, and a post may take effect although it reports failure. */
    method PersistBlocker(result: Id) returns (died: bool, ok: bool)
      modifies this`posted
      ensures Commented(old(posted), posted, result, issue, openPr)
      ensures ok ==> PostTarget(posted, result, issue, openPr).None?
      ensures died || !ok ==> faults
    {
      var fails := Mishap();
      if fails { return false, false; }
      if (result, issue) in posted { return false, true; }
      var target := issue;
      fails := Mishap();
      if fails { return false, false; }
      if openPr != 0 {
        fails := Mishap();
        if fails { return false, false; }
        if (result, openPr) in posted { return false, true; }
        target := openPr;
      }
      fails := Mishap();
      if fails { return false, false; }
      posted := posted + [(result, target)];
      died := Mishap();
      fails := Mishap();
      return died, !fails;
    }

    /** Attempts one after another, the branch's open pull request being what it is at each. */
    method PersistThroughChanges(result: Id, prs: seq<nat>) returns (ghost run: seq<Comments>)
      modifies this`posted, this`openPr
      ensures Attempts(run, result, issue, prs) && run[0] == old(posted) && run[|prs|] == posted
      ensures Naming(old(posted), result) == 0 && Steady(issue, prs) ==> Naming(posted, result) <= 1
    {
      hide Commented;
      run := [posted];
      var i := 0;
      while i < |prs|
        invariant 0 <= i <= |prs| && Attempts(run, result, issue, prs[..i]) && run[0] == old(posted) && run[i] == posted
      {
        openPr := prs[i];
        var _, _ := PersistBlocker(result);
        NextAttempt(run, result, issue, prs, i, posted);
        run := run + [posted];
        i := i + 1;
      }
      assert prs[..i] == prs;
      if Naming(old(posted), result) == 0 { AtMostOneCommentIff(old(posted), result, issue, prs); }
    }

    /**
     Publication, as far as the turn is concerned: any saves of the fields it owns, ending with the result disposed or a
     failure. Module Publication models what it does to the branch.
     */
    method PublishCandidate(ghost base: State, result: Id) returns (end: End)
      requires OnDisk(base) && OnTrack(base, state, files, dirty) && Spoken(state, posted) && Ripe(result)
              && Publishing(state, files)
      modifies this`disk, this`state, this`dirty, this`openPr
      ensures OnDisk(base)
      ensures OnTrack(base, state, files, dirty) && Spoken(state, posted) && state.active == old(state).active
      ensures OnTrack(base, Cleared(state), files, dirty)
      ensures end == Returned(0) ==> state.lastResult == result
      ensures end.Died? ==> faults
    {
      hide OnTrack, Reconciled, Decided, ResultOf;
      ghost var was := state;
      var rounds: nat := *;
      PublicationOnTrack(base, was, was, files, dirty);
      while rounds > 0
        invariant OnDisk(base) && OnTrack(base, state, files, dirty) && OnTrack(base, Cleared(state), files, dirty)
        invariant Spoken(state, posted)
        invariant Private(state) == Private(was) && dirty == old(dirty) && openPr == old(openPr)
      {
        var phase: Id, candidate: Candidate, pr: Option<nat>, rc: int := *, *, *, *;
        var dispose: bool := *;
        state := state.(status := Publication(phase), candidate := candidate, pr := pr);
        if dispose { state := state.(lastResult := result, lastRc := Some(rc)); }
        PublicationOnTrack(base, was, state, files, dirty);
        var ok := Save(base);
        if * { break; }
        rounds := rounds - 1;
      }
      SameEvidence(base, was, files, dirty);
      ghost var clean := dirty;
      dirty, openPr := *, *;
      DirtyOnTrack(base, state, files, clean, dirty);
      DirtyOnTrack(base, Cleared(state), files, clean, dirty);
      DirtyOnTrack(base, disk.value, files, clean, dirty);
      var dies := Mishap();
      if dies { return Died; }
      var rc: int := *;
      return Returned(if state.lastResult != result && rc == 0 then 1 else rc);
    }

    method DispatchResult(ghost base: State, result: Id) returns (end: End)
      requires OnDisk(base) && OnTrack(base, state, files, dirty) && Spoken(state, posted) && Ripe(result)
      modifies this`disk, this`state, this`dirty, this`openPr, this`posted
      ensures OnDisk(base) && OnTrack(base, state, files, dirty) && Spoken(state, posted) && state.active == old(state).active
      ensures end.Returned? && state.lastResult == result ==> OnTrack(base, Cleared(state), files, dirty)
      ensures end == Returned(0) ==> state.lastResult == result
      ensures end.Died? ==> faults
      ensures !faults && !Publishing(old(state), files) ==> end == Returned(RecordedRc(state)) && state.lastResult == result
      ensures !Publishing(old(state), files) && old(state).lastResult != result && (end == Returned(0) || !faults) ==>
              disk == Some(state)
      ensures !Publishing(old(state), files) ==> openPr == old(openPr) && dirty == old(dirty)
      ensures Commented(old(posted), posted, result, issue, old(openPr))
      ensures ResultOf(files, result) == Says(SaysBlocked) && old(state).lastResult != result && state.lastResult == result ==>
                state.status == Blocked && PostTarget(posted, result, issue, openPr).None?
      ensures posted != old(posted) ==> disk.value.status == BlockerPending || disk.value.lastResult == result
    {
      hide OnTrack, Reconciled, Due, Sound;
      ghost var was := state;
      var v := ResultOf(files, result).verdict;
      var dies: bool;
      if state.lastResult == result {
        if Publishing(was, files) { PublicationOnTrack(base, was, was, files, dirty); } else { FinishOnTrack(base, was, files, dirty); }
        return Returned(RecordedRc(state));
      }
      if v != SaysCandidate {
        OutcomeOnTrack(base, was, files, dirty);
        FinishOnTrack(base, was, files, dirty);
      }
      match v {
        case SaysContinue =>
          SetResultDisposition(Continuing, result, 0);
          var ok := Save(base);
          dies := Mishap();
          if dies { return Died; }
          return Returned(if ok then 0 else 1);
        case SaysBlocked =>
          state := state.(status := BlockerPending);
          RestatusOnTrack(base, was, files, dirty, BlockerPending);
          var ok := Save(base);
          dies := Mishap();
          if dies { return Died; }
          if !ok { return Returned(1); }
          ghost var pending, before := state, posted;
          var died, done := PersistBlocker(result);
          StillSpoken(pending, before, posted, result, issue, openPr);
          if died { return Died; }
          if !done { return Returned(1); }
          SetResultDisposition(Blocked, result, 0);
          SpokenAfterPost(state, posted, result, issue, openPr);
          assert state == Outcome(was, files, dirty);
          ok := Save(base);
          dies := Mishap();
          if dies { return Died; }
          return Returned(if ok then 0 else 1);
        case SaysNoOp =>
          if dirty {
            SetResultDisposition(InvalidNoOp, result, 14);
            var _ := Save(base);
            dies := Mishap();
            if dies { return Died; }
            return Returned(14);
          }
          SetResultDisposition(NoOp, result, 0);
          var ok := Save(base);
          dies := Mishap();
          if dies { return Died; }
          return Returned(if ok then 0 else 1);
        case SaysCandidate =>
          end := PublishCandidate(base, result);
      }
    }

    // ---------------------------------------------------------------- recovery

    method ReconcileRecoveredThread(ghost base: State) returns (died: bool, ok: bool)
      requires OnDisk(base) && OnTrack(base, state, files, dirty) && Spoken(state, posted) && Active(state)
      modifies this`disk, this`state
      ensures OnDisk(base) && OnTrack(base, state, files, dirty) && Spoken(state, posted)
      ensures state == old(state) || Some(state) == Reconciled(old(state), files)
      ensures Reconciled(old(state), files).None? ==> !ok
      ensures ok ==> Some(state) == Reconciled(old(state), files)
      ensures !died && !ok ==> Reconciled(old(state), files) != Some(old(state))
      ensures died ==> faults
      ensures !faults ==> !died && (ok <==> Reconciled(old(state), files).Some?)
    {
      hide OnTrack;
      var found := FoundThread(files, state.active.events);
      if found == BLANK { return false, false; }
      var previous := state.active.previous;
      if Reconciled(state, files).Some? { BindOnTrack(base, state, files, dirty); }
      match state.active.mode {
        case Start =>
          if state.thread == BLANK {
            state := state.(thread := found, status := Running);
            ok := Save(base);
            died := Mishap();
            return;
          }
          return false, state.thread == found;
        case Resume =>
          return false, !(previous == BLANK || found != previous || state.thread != previous);
        case Rotate =>
          if previous == BLANK || found == previous { return false, false; }
          if state.thread == previous {
            var entry := HistoryEntry(state.thread, state.model, state.reasoning, state.threadTurns, state.active.reason);
            state := state.(history := state.history + [entry], thread := found,
                            model := FirstNonBlank(state.active.model, state.model),
                            reasoning := FirstNonBlank(state.active.reasoning, state.reasoning),
                            threadTurns := 0, generation := state.generation + 1, status := Rotated);
            ok := Save(base);
            died := Mishap();
            return;
          }
          return false, state.thread == found;
        case NoMode =>
          return false, false;
      }
    }

    /** Records that recovery stopped short of a decision. */
    method FailClosed(ghost base: State, status: Status) returns (died: bool)
      requires OnDisk(base) && OnTrack(base, state, files, dirty) && Active(state) && status != Blocked
      requires !Decided(state, files) || state.lastResult != state.active.result
      modifies this`disk, this`state
      ensures OnDisk(base) && state == old(state).(status := status) && Spoken(state, posted)
      ensures died ==> faults
      ensures !faults ==> disk == Some(state)
    {
      RestatusOnTrack(base, state, files, dirty, status);
      state := state.(status := status);
      var _ := Save(base);
      died := Mishap();
    }

    /** The second half of recovery: the turn is decided and its thread is bound. */
    method DecideRecovered(ghost base: State) returns (died: bool, recovered: bool, rc: int)
      requires OnDisk(base) && OnTrack(base, state, files, dirty) && Spoken(state, posted)
      requires Decided(state, files) && Reconciled(state, files) == Some(state)
      modifies this`disk, this`state, this`dirty, this`openPr, this`posted
      ensures OnDisk(base) && Spoken(state, posted)
      ensures !died && recovered ==> !Active(state) && OnTrack(base, state, files, dirty)
      ensures !died && !recovered ==> rc != 0
      ensures died ==> faults
      ensures !faults && !Publishing(old(state), files) ==> !died && recovered && rc == RecordedRc(state) && disk == Some(state)
      ensures !Publishing(old(state), files) ==> openPr == old(openPr) && dirty == old(dirty)
      ensures Commented(old(posted), posted, old(state).active.result, issue, old(openPr))
    {
      hide OnTrack, Reconciled, Outcome, Commented;
      NoComment(posted, state.active.result, issue, openPr);
      var ok: bool;
      var codexRc := files.exits[state.active.exitStatus];
      var result := state.active.result;
      CountOnTrack(base, state, files, dirty);
      CountTurn(result);
      ghost var counted := state;
      FinishOnTrack(base, counted, files, dirty);
      if codexRc != 0 {
        state := Settle(state, TurnFailed, result, codexRc);
        assert state == Finish(counted, files, dirty).value by { FinishFailed(counted, files, dirty); }
        ok := Save(base);
        died := Mishap();
        if died { return true, false, 0; }
        return false, ok, if ok then codexRc else 15;
      }
      match ResultOf(files, result) {
        case Missing =>
          state := Settle(state, EmptyResult, result, 12);
          assert state == Finish(counted, files, dirty).value by { FinishFailed(counted, files, dirty); }
          ok := Save(base);
          died := Mishap();
          return died, true, 12;
        case Malformed =>
          state := Settle(state, InvalidResult, result, 13);
          assert state == Finish(counted, files, dirty).value by { FinishFailed(counted, files, dirty); }
          ok := Save(base);
          died := Mishap();
          return died, true, 13;
        case Says(_) =>
      }
      var end := DispatchResult(base, result);
      if end.Died? { return true, false, 0; }
      if state.lastResult != result { return false, false, end.rc; }
      ClearActive();
      ok := Save(base);
      died := Mishap();
      if died { return true, false, 0; }
      return false, ok, if ok then end.rc else 15;
    }

    /**
     Completes the turn found on disk. However far it gets, what it leaves on disk ends as what it found; if it reports
     the turn recovered, the turn was decided and is finished.
     */
    method RecoverActive(alive: bool) returns (died: bool, recovered: bool, rc: int)
      requires disk == Some(state) && Sound(state, files) && Spoken(state, posted)
      modifies this`disk, this`state, this`dirty, this`openPr, this`posted
      ensures OnDisk(old(state)) && Spoken(state, posted)
      ensures !died && recovered ==> Decided(old(state), files) && !Active(state) && OnTrack(old(state), state, files, dirty)
      ensures !died && !recovered && rc == 0 ==> !Active(old(state)) && state == old(state) && disk == old(disk)
      ensures !Active(old(state)) ==> !died && !recovered && rc == 0
      ensures died ==> faults
      ensures !died && !recovered && rc == 0 <==>
                var turn := old(state).active; turn.mode == NoMode && turn.pid.None? && turn.events == BLANK && turn.result == BLANK
      ensures Active(old(state)) && alive ==> !died && !recovered && rc == 3 && disk == old(disk)
      ensures !faults && Active(old(state)) && !alive && Reconciled(old(state), files).None? ==>
                !recovered && rc == 4 && disk == Some(old(state).(status := ThreadMismatch))
      ensures !faults && Active(old(state)) && !alive && Reconciled(old(state), files).Some? && !Decided(old(state), files) ==>
                !recovered && rc == 15
                && disk == Some(Reconciled(old(state), files).value.(
                             status := if old(state).active.result == BLANK then ResultIdentityMissing else CompletionUnknown))
      ensures !faults && !alive && Decided(old(state), files) && !Publishing(old(state), files) ==>
                !died && recovered && rc == RecordedRc(state) && disk == Some(state)
      ensures !Publishing(old(state), files) ==> openPr == old(openPr) && dirty == old(dirty)
      ensures Commented(old(posted), posted, old(state).active.result, issue, old(openPr))
    {
      hide OnTrack, Reconciled, Outcome;
      ghost var base := state;
      OnTrackSelf(base, files, dirty);
      if !Active(state) { return false, false, 0; }
      if alive { return false, false, 3; }
      if Reconciled(base, files).Some? { BoundBook(base, files); }
      var ok: bool;
      died, ok := ReconcileRecoveredThread(base);
      if died { return true, false, 0; }
      if !ok {
        died := FailClosed(base, ThreadMismatch);
        return died, false, 4;
      }
      if state.active.result == BLANK {
        died := FailClosed(base, ResultIdentityMissing);
        return died, false, 15;
      }
      if state.active.exitStatus !in files.exits {
        died := FailClosed(base, CompletionUnknown);
        return died, false, 15;
      }
      died, recovered, rc := DecideRecovered(base);
    }

    /**
     Recovery attempted again and again, by processes that may each die anywhere: the disk keeps ending as it first did,
     the turn is counted once, at most one blocker comment is posted, and if the turn ends blocked, exactly one.
     */
    method SurviveCrashes(attempts: nat, result: Id) returns (recovered: bool)
      requires Valid() && disk.Some? && OneHome(posted, result, issue, openPr) && !Publishing(disk.value, files)
      modifies this`disk, this`state, this`dirty, this`openPr, this`posted
      ensures Valid() && OnDisk(old(disk).value)
      ensures recovered ==> Finish(old(disk).value, files, dirty) == Some(state) && !Active(state)
      ensures openPr == old(openPr) && OneHome(posted, result, issue, openPr)
      ensures !faults && attempts > 0 && Decided(old(disk).value, files) ==> recovered
      ensures recovered && state.status == Blocked && state.lastResult == result ==> Naming(posted, result) == 1
      ensures recovered && Blocks(old(disk).value, files) ==>
              state.status == Blocked && state.lastResult == old(disk).value.active.result
    {
      hide Reconciled, Outcome, Finish, Private, OneHome, Commented, Spoken, Naming, Blocks, Decided;
      ghost var base := disk.value;
      OnTrackSelf(base, files, dirty);
      var left := attempts;
      while left > 0
        invariant Valid() && disk.Some? && OnDisk(base) && !Publishing(disk.value, files) && !Publishing(base, files)
        invariant openPr == old(openPr) && OneHome(posted, result, issue, openPr)
        invariant left == attempts ==> disk.value == base
        invariant !faults && Decided(base, files) ==> left == attempts
      {
        state := disk.value;
        ghost var found, comments := state, posted;
        var died, done, _ := RecoverActive(false);
        OnTrackTransitive(base, found, disk.value, files, dirty);
        CommentedOnce(comments, posted, found.active.result, result, issue, openPr);
        StillPrivate(found, disk.value, files, dirty);
        if !died && done {
          OnTrackTransitive(base, found, state, files, dirty);
          IdleIsFinished(state, files, dirty);
          if Blocks(base, files) { BlocksEnds(base, files, dirty); }
          if state.status == Blocked && state.lastResult == result { SpokenIsOne(state, posted, issue, openPr); }
          return true;
        }
        left := left - 1;
      }
      return false;
    }

    // ---------------------------------------------------------------- the live turn

    /** The disk holds an early state of the turn. */
    ghost predicate EarlyOnDisk(intent: State)
      reads this
    {
      disk.Some? && Early(disk.value, intent, files) && Spoken(disk.value, posted)
    }

    /** A turn identity nothing durable mentions yet. */
    ghost predicate Unused(turn: Id)
      reads this
    {
      turn != BLANK && turn !in files.threads && turn !in files.exits && turn !in files.results && turn !in ended
    }

    /** The process recorded, the thread not yet seen. */
    ghost predicate Launched(intent: State)
      reads this
    {
      state.active.pid.Some? && state.active.(pid := None) == intent.active && state == intent.(active := state.active)
    }

    method BindLiveThread(ghost intent: State, mode: Mode, previous: Id, found: Id, model: Id, reasoning: Id, reason: Id)
      returns (died: bool, ok: bool)
      requires EarlyOnDisk(intent) && Launched(intent) && Book(intent)
      requires intent.active.mode == mode && intent.active.previous == previous && intent.active.reason == reason
      requires intent.model == model == intent.active.model && intent.reasoning == reasoning == intent.active.reasoning
      requires found != BLANK && FoundThread(files, intent.active.events) == found
      requires Unspent(intent, intent.active.result) && Spoken(state, posted)
      modifies this`disk, this`state
      ensures EarlyOnDisk(intent) && Spoken(state, posted)
      ensures state == old(state) || Some(state) == Reconciled(old(state), files)
      ensures ok ==> Some(state) == Reconciled(old(state), files)
      ensures !faults ==> !died && (ok <==> Reconciled(old(state), files).Some?)
    {
      hide OnTrack, Sound, Due, Finish;
      match mode {
        case Start =>
          if state.thread == BLANK {
            state := state.(thread := found, status := Running);
            EarlyOnTrack(intent, state, files, dirty, intent.active.result);
            ok := Save(intent);
            died := Mishap();
            return;
          }
          return false, state.thread == found;
        case Resume =>
          return false, !(previous == BLANK || found != previous || state.thread != previous);
        case Rotate =>
          if previous == BLANK || found == previous { return false, false; }
          if state.thread == previous {
            var entry := HistoryEntry(state.thread, state.model, state.reasoning, state.threadTurns, reason);
            state := state.(history := state.history + [entry], thread := found, model := model, reasoning := reasoning,
                            threadTurns := 0, generation := state.generation + 1, status := Rotated);
            EarlyOnTrack(intent, state, files, dirty, intent.active.result);
            ok := Save(intent);
            died := Mishap();
            return;
          }
          return false, state.thread == found;
        case NoMode =>
          return false, false;
      }
    }

    /** The rest of a live turn once its exit status is durable; `seen` is the thread the event stream announced. */
    method CompleteTurn(ghost intent: State, mode: Mode, turn: Id, seen: Id, invalid: bool) returns (end: End)
      requires OnDisk(intent) && OnTrack(intent, state, files, dirty) && Spoken(state, posted) && Active(state)
      requires state.active.result == turn == state.active.exitStatus && turn != BLANK && turn in files.exits
      requires invalid || seen == BLANK ==> state.lastResult != turn
      requires !invalid && seen != BLANK ==> Reconciled(state, files) == Some(state)
      requires state.lastResult != turn
      modifies this`disk, this`state, this`dirty, this`openPr, this`posted
      ensures OnDisk(intent) && Spoken(state, posted)
      ensures end.Returned? && state.lastResult == turn ==> !Active(state) && OnTrack(intent, state, files, dirty)
      ensures !faults && !invalid && seen != BLANK && !Publishing(old(state), files) ==>
                end == Returned(RecordedRc(state)) && state.lastResult == turn && disk == Some(state)
      ensures !faults && invalid ==> end == Returned(11) && disk == Some(old(state).(status := ThreadMismatch))
      ensures !faults && !invalid && seen == BLANK ==>
                end == Returned(10)
                && disk == Some(old(state).(status := Threadless(mode)))
      ensures !Publishing(old(state), files) ==> openPr == old(openPr) && dirty == old(dirty)
      ensures Commented(old(posted), posted, turn, issue, old(openPr))
    {
      hide OnTrack, Reconciled, Outcome, Commented;
      NoComment(posted, turn, issue, openPr);
      if invalid {
        var died := FailClosed(intent, ThreadMismatch);
        return if died then Died else Returned(11);
      }
      if seen == BLANK {
        var died := FailClosed(intent, match mode case Start => StartFailedNoThread case Rotate => RotateFailedNoThread case _ => ThreadMismatch);
        return if died then Died else Returned(10);
      }
      var rc := files.exits[turn];
      CountOnTrack(intent, state, files, dirty);
      CountTurn(turn);
      ghost var counted := state;
      FinishOnTrack(intent, counted, files, dirty);
      var ok, dies: bool;
      if rc != 0 {
        state := Settle(state, TurnFailed, turn, rc);
        assert state == Finish(counted, files, dirty).value by { FinishFailed(counted, files, dirty); }
        ok := Save(intent);
        dies := Mishap();
        return if dies then Died else Returned(rc);
      }
      match ResultOf(files, turn) {
        case Missing =>
          state := Settle(state, EmptyResult, turn, 12);
          assert state == Finish(counted, files, dirty).value by { FinishFailed(counted, files, dirty); }
          ok := Save(intent);
          dies := Mishap();
          return if dies then Died else Returned(12);
        case Malformed =>
          state := Settle(state, InvalidResult, turn, 13);
          assert state == Finish(counted, files, dirty).value by { FinishFailed(counted, files, dirty); }
          ok := Save(intent);
          dies := Mishap();
          return if dies then Died else Returned(13);
        case Says(_) =>
      }
      end := DispatchResult(intent, turn);
      if end.Died? { return Died; }
      if state.lastResult == turn {
        ClearActive();
        ok := Save(intent);
        dies := Mishap();
        if dies { return Died; }
      }
    }

    /** The process ends: its result, its changes to the worktree, its exit status. */
    method RecordExit(ghost intent: State, turn: Id) returns (fails: bool)
      requires EarlyOnDisk(intent) && Early(state, intent, files) && Spoken(state, posted)
      requires Book(intent) && Unspent(intent, turn) && intent.active.pid.None?
      requires turn !in files.exits && turn !in ended && intent.totalTurns == |ended|
      modifies this`files, this`dirty, this`ended
      ensures files.threads == old(files.threads) && (if fails then faults else turn in files.exits)
      ensures Valid() && OnDisk(intent) && OnTrack(intent, state, files, dirty)
      ensures ended == old(ended) + (if Decided(intent, files) then {turn} else {})
    {
      hide OnTrack, Reconciled, Outcome, Sound, Book, Early, Finish;
      ghost var before := files;
      var rc: nat, written: ResultFile := *, *;
      dirty := *;
      files := files.(results := files.results[turn := written]);
      fails := Mishap();
      var durable: bool := *;
      if !fails || durable {
        files := files.(exits := files.exits[turn := rc]);
        if Decided(intent, files) { ended := ended + {turn}; }
      }
      StillEarly(state, intent, before, files);
      StillEarly(disk.value, intent, before, files);
      EarlyOnTrack(intent, disk.value, files, dirty, turn);
      EarlyOnTrack(intent, state, files, dirty, turn);
      TrackedCounts(intent, disk.value, files, dirty);
    }

    /** The end of the process, and the completion of the turn. */
    method EndTurn(ghost intent: State, mode: Mode, turn: Id, seen: Id, invalid: bool) returns (end: End)
      requires EarlyOnDisk(intent) && Early(state, intent, files) && Spoken(state, posted) && Active(state)
              && state.lastResult != turn
      requires Book(intent) && Unspent(intent, turn) && intent.active.pid.None?
      requires turn !in files.exits && turn !in ended && intent.totalTurns == |ended|
      requires !invalid && seen != BLANK ==> Reconciled(state, files) == Some(state)
      requires !faults && Reconciled(intent, files).Some? ==> !invalid && seen != BLANK
      modifies this
      ensures Valid() && OnDisk(intent) && Spoken(state, posted)
      ensures end.Returned? && state.lastResult == turn ==> !Active(state) && OnTrack(intent, state, files, dirty)
      ensures !faults && Decided(intent, files) && !Publishing(intent, files) ==> disk == Some(state) && state.lastResult == turn
      ensures ended == old(ended) + (if Decided(intent, files) then {turn} else {})
      ensures Commented(old(posted), posted, turn, issue, old(openPr))
      ensures files.threads == old(files.threads) && (!faults ==> turn in files.exits)
      ensures !faults && invalid ==> end == Returned(11) && disk.value.status == ThreadMismatch
      ensures !faults && !invalid && seen == BLANK ==> end == Returned(10) && disk.value.status == Threadless(mode)
    {
      hide OnTrack, Reconciled, Outcome, Sound, Book, Finish, Commented;
      ghost var before := files;
      var fails := RecordExit(intent, turn);
      SameThreads(intent, before, files);
      SameThreads(state, before, files);
      StillPublishing(intent, state, files, dirty);
      NoComment(posted, turn, issue, openPr);
      var dies := Mishap();
      if dies { return Died; }
      if fails {
        var died := FailClosed(intent, CompletionUnknown);
        TrackedCounts(intent, disk.value, files, dirty);
        return if died then Died else Returned(15);
      }
      end := CompleteTurn(intent, mode, turn, seen, invalid);
      TrackedCounts(intent, disk.value, files, dirty);
    }

    /**
     One turn, from its intent to its end. Unless the disk is left as it was, it ends as the intent does; `ended` records
     the turn when its exit status becomes durable under a matching thread.
     */
    method RunTurn(mode: Mode, previous: Id, model: Id, reasoning: Id, reason: Id, turn: Id) returns (end: End)
      requires Valid() && disk.Some? && !Active(disk.value) && Unused(turn)
      requires disk.value.lastResult != turn && disk.value.lastCounted != turn
      requires disk.value.model == model && disk.value.reasoning == reasoning && mode != NoMode
      modifies this
      ensures Valid()
      ensures var intent := Intent(old(disk).value, mode, turn, previous, model, reasoning, reason);
              && (disk == old(disk) || OnDisk(intent))
              && (end.Returned? && state.lastResult == turn ==> !Active(state) && OnTrack(intent, state, files, dirty))
              && (!faults && Decided(intent, files) && !Publishing(intent, files) ==> disk == Some(state) && state.lastResult == turn)
              && ended == old(ended) + (if Decided(intent, files) then {turn} else {})
              && (!faults && turn in files.threads && Reconciled(intent, files).None? ==> end == Returned(11) && disk.value.status == ThreadMismatch)
      ensures !faults ==> turn in files.exits
      ensures !faults && turn !in files.threads ==> end == Returned(10) && disk.value.status == Threadless(mode)
      ensures Commented(old(posted), posted, turn, issue, old(openPr))
      ensures end.Returned? && state.lastResult == turn && state.status == Blocked && Naming(old(posted), turn) == 0 ==>
                posted == old(posted) + [(turn, if old(openPr) == 0 then issue else old(openPr))] && Naming(posted, turn) == 1
    {
      hide OnTrack, Reconciled, Outcome, Sound, Book, Naming, Commented, Threadless;
      NoComment(posted, turn, issue, openPr);
      ghost var intent := Intent(disk.value, mode, turn, previous, model, reasoning, reason);
      IntentFacts(disk.value, intent, files, turn);
      state := disk.value;
      var mishap := Mishap();
      if mishap { return Returned(1); }
      state := state.(active := ActiveTurn(None, mode, turn, turn, turn, previous, reason, model, reasoning), status := Running);
      EarlyOnTrack(intent, state, files, dirty, turn);
      TrackedCounts(intent, state, files, dirty);
      var ok := Save(intent);
      mishap := Mishap();
      if mishap { return Died; }
      if !ok { return Returned(1); }
      mishap := Mishap();
      if mishap { return Returned(1); }
      var pid: nat := *;
      state := state.(active := state.active.(pid := Some(pid)));
      EarlyOnTrack(intent, state, files, dirty, turn);
      TrackedCounts(intent, state, files, dirty);
      ok := Save(intent);
      mishap := Mishap();
      if mishap { return Died; }
      if !ok { return Returned(1); }
      end := FollowTurn(intent, mode, previous, model, reasoning, reason, turn);
    }

    /** The first thread.started event: logged, and then bound. */
    method HearThread(ghost intent: State, mode: Mode, previous: Id, model: Id, reasoning: Id, reason: Id, turn: Id, seen: Id)
      returns (died: bool, invalid: bool)
      requires disk == Some(state) && Spoken(state, posted) && seen != BLANK
      requires Launched(intent) && Book(intent) && Unspent(intent, turn) && intent.active.pid.None?
      requires intent.active.mode == mode && intent.active.previous == previous && intent.active.reason == reason
      requires intent.model == model == intent.active.model && intent.reasoning == reasoning == intent.active.reasoning
      requires turn !in files.threads && turn !in files.exits && turn !in ended && intent.totalTurns == |ended|
      modifies this`files, this`disk, this`state
      ensures Valid() && OnDisk(intent) && files == old(files).(threads := old(files.threads)[turn := seen])
      ensures EarlyOnDisk(intent) && Early(state, intent, files) && Spoken(state, posted)
      ensures Active(state) && state.lastResult != turn
      ensures !died && !invalid ==> Reconciled(state, files) == Some(state)
      ensures died ==> faults
      ensures !faults ==> (invalid <==> Reconciled(intent, files).None?)
    {
      hide OnTrack, Outcome, Sound, Book, Threadless, Naming, Finish;
      ghost var launched := state;
      LaunchedIsActive(launched, intent);
      files := files.(threads := files.threads[turn := seen]);
      EarlyOnTrack(intent, disk.value, files, dirty, turn);
      TrackedCounts(intent, disk.value, files, dirty);
      PidReconciled(intent, files, launched.active.pid);
      assert launched == intent.(active := intent.active.(pid := launched.active.pid));
      if Reconciled(launched, files).Some? { BoundBook(launched, files); }
      var dies := Mishap();
      if dies { return true, false; }
      var bound;
      died, bound := BindLiveThread(intent, mode, previous, seen, model, reasoning, reason);
      EarlyOnTrack(intent, disk.value, files, dirty, turn);
      TrackedCounts(intent, disk.value, files, dirty);
      invalid := !bound;
    }

    /** The event stream, which may name a thread, and the end of the process. */
    method FollowTurn(ghost intent: State, mode: Mode, previous: Id, model: Id, reasoning: Id, reason: Id, turn: Id) returns (end: End)
      requires disk == Some(state) && Spoken(state, posted)
      requires Launched(intent) && Book(intent) && Unspent(intent, turn) && intent.active.pid.None?
      requires intent.active.mode == mode && intent.active.previous == previous && intent.active.reason == reason
      requires intent.model == model == intent.active.model && intent.reasoning == reasoning == intent.active.reasoning
      requires turn !in files.threads && turn !in files.exits && turn !in ended && intent.totalTurns == |ended|
      modifies this
      ensures Valid() && OnDisk(intent) && Spoken(state, posted)
      ensures end.Returned? && state.lastResult == turn ==> !Active(state) && OnTrack(intent, state, files, dirty)
      ensures !faults && Decided(intent, files) && !Publishing(intent, files) ==> disk == Some(state) && state.lastResult == turn
      ensures ended == old(ended) + (if Decided(intent, files) then {turn} else {})
      ensures Commented(old(posted), posted, turn, issue, old(openPr))
      ensures !faults ==> turn in files.exits
      ensures !faults && turn !in files.threads ==> end == Returned(10) && disk.value.status == Threadless(mode)
      ensures !faults && turn in files.threads && Reconciled(intent, files).None? ==>
              end == Returned(11) && disk.value.status == ThreadMismatch
      ensures end.Returned? && state.lastResult == turn && state.status == Blocked && Naming(old(posted), turn) == 0 ==>
                posted == old(posted) + [(turn, if old(openPr) == 0 then issue else old(openPr))] && Naming(posted, turn) == 1
    {
      hide OnTrack, Outcome, Sound, Book, Commented, Threadless, Naming, Finish, Reconciled;
      NoComment(posted, turn, issue, openPr);
      LaunchedIsActive(state, intent);
      var seen: Id := *;
      var invalid := false;
      if seen != BLANK {
        var died;
        died, invalid := HearThread(intent, mode, previous, model, reasoning, reason, turn, seen);
        if died { return Died; }
      }
      ghost var heard := files;
      Threads(intent, heard);
      ghost var before, pr := posted, openPr;
      end := EndTurn(intent, mode, turn, seen, invalid);
      SameThreads(intent, heard, files);
      if state.status == Blocked && state.lastResult == turn && Naming(before, turn) == 0 {
        SpokenOnce(state, before, posted, turn, issue, pr);
      }
    }

    // ---------------------------------------------------------------- commands

    /** The state of a start that failed before any thread existed. */
    predicate Orphaned()
      reads this
    {
      disk.Some? && disk.value.thread == BLANK && disk.value.status == StartFailedNoThread && disk.value.active.mode == Start
    }

    /** Archives the state of a start that failed before any thread existed; only such a state is ever removed. */
    method RepairPrethreadFailure(alive: bool) returns (died: bool, ok: bool)
      requires Valid()
      modifies this`disk
      ensures Valid()
      ensures disk == old(disk) || (disk.None? && old(Orphaned()) && !alive && !dirty && ended == {})
      ensures disk != old(disk) ==> FoundThread(files, old(disk).value.active.events) == BLANK && !Decided(old(disk).value, files)
      ensures ok <==> disk.None? || !old(Orphaned())
      ensures died ==> faults && disk.None?
      ensures !faults && old(Orphaned()) && !alive && !dirty && FoundThread(files, old(disk).value.active.events) == BLANK ==>
              disk.None?
    {
      if disk.None? { return false, true; }
      var s := disk.value;
      if s.thread != BLANK || s.status != StartFailedNoThread || s.active.mode != Start { return false, true; }
      if alive { return false, false; }
      if FoundThread(files, s.active.events) != BLANK { return false, false; }
      if dirty { return false, false; }
      var mishap := Mishap();
      if mishap { return false, false; }
      disk := None;
      died := Mishap();
      return died, true;
    }

    /** Loads the state and completes the turn it records, if any; `idle` says that there is none left to complete. */
    method CompleteRecorded(alive: bool) returns (end: End, idle: bool)
      requires Valid() && disk.Some?
      modifies this
      ensures Valid() && disk.Some? && ended == old(ended) && files == old(files)
      ensures OnDisk(old(disk).value)
      ensures idle ==> !Active(old(disk).value) && disk == old(disk) == Some(state)
      ensures !idle ==> Active(old(disk).value)
    {
      hide OnTrack, Reconciled, Outcome, Finish, Book;
      state := disk.value;
      ghost var found := state;
      var died, recovered, rc := RecoverActive(alive);
      TrackedCounts(found, disk.value, files, dirty);
      if died { return Died, false; }
      return Returned(rc), !recovered && rc == 0;
    }

    /** `resume` and `rotate`. A recorded turn is completed instead of beginning another. */
    method ResumeOrRotate(mode: Mode, model: Id, reasoning: Id, reason: Id, turn: Id, alive: bool) returns (end: End)
      requires Valid() && Unused(turn) && (mode == Resume || mode == Rotate)
      requires disk.Some? ==> disk.value.lastResult != turn && disk.value.lastCounted != turn
      modifies this
      ensures Valid() && disk.Some? == old(disk).Some?
      ensures old(disk).Some? && Active(old(disk).value) ==> OnDisk(old(disk).value) && ended == old(ended)
      ensures old(disk).Some? && !Active(old(disk).value) ==>
                var chosen := old(disk).value.(model := model, reasoning := reasoning);
                || disk == old(disk) || disk == Some(chosen)
                || OnDisk(Intent(chosen, mode, turn, chosen.thread, model, reasoning, reason))
      ensures old(disk).None? || (!Active(old(disk).value) && old(disk).value.thread == BLANK) ==>
              end == Returned(1) && disk == old(disk)
      ensures !faults && old(disk).Some? && !Active(old(disk).value) && old(disk).value.thread != BLANK ==> turn in files.exits
      ensures ended == old(ended) || ended == old(ended) + {turn}
    {
      hide OnTrack, Reconciled, Outcome, Finish, Book;
      if disk.None? { return Returned(1); }
      ghost var found := disk.value;
      OnTrackSelf(found, files, dirty);
      var mishap := Mishap();
      if mishap { return Returned(1); }
      var idle: bool;
      end, idle := CompleteRecorded(alive);
      if !idle { return; }
      if state.thread == BLANK { return Returned(1); }
      state := state.(model := model, reasoning := reasoning);
      IdleRewrite(found, state, files, dirty);
      var ok := Save(state);
      mishap := Mishap();
      if mishap { return Died; }
      if !ok { return Returned(1); }
      mishap := Mishap();
      if mishap { return Returned(1); }
      end := RunTurn(mode, state.thread, model, reasoning, reason, turn);
    }

    /** The state `start` goes on with: a new one, or the recorded one once it is idle and has no thread. */
    method LoadOrInitialize(model: Id, reasoning: Id, alive: bool) returns (end: End, ready: bool)
      requires Valid()
      modifies this
      ensures Valid() && ended == old(ended) && files == old(files)
      ensures old(disk).Some? ==> disk.Some? && OnDisk(old(disk).value)
      ensures ready && old(disk).Some? ==> disk == old(disk)
      ensures ready ==> disk == Some(state) && !Active(state) && state.thread == BLANK
      ensures !faults && (old(disk).None? || (!Active(old(disk).value) && old(disk).value.thread == BLANK)) ==> ready
      ensures old(disk).Some? && !Active(old(disk).value) ==> disk == old(disk)
      ensures ready ==> state.lastResult == (if old(disk).Some? then old(disk).value.lastResult else BLANK)
      ensures ready ==> state.lastCounted == (if old(disk).Some? then old(disk).value.lastCounted else BLANK)
    {
      hide OnTrack, Reconciled, Outcome, Finish, Book, Sound, Due;
      ready := false;
      var mishap: bool;
      if disk.None? {
        state := State(BLANK, model, reasoning, WorktreeInitializing, 0, 0, 1, [], NO_CANDIDATE, None, IDLE, BLANK, None, BLANK);
        NewState(state, files, dirty);
        var ok := Save(state);
        mishap := Mishap();
        if mishap { return Died, false; }
        if !ok { return Returned(1), false; }
      } else {
        var idle: bool;
        end, idle := CompleteRecorded(alive);
        if !idle { return; }
        if state.thread != BLANK { return Returned(1), false; }
      }
      mishap := Mishap();
      return Returned(1), !mishap;
    }

    /** `start`. A recorded turn is completed instead of beginning another; a thread that exists is never replaced. */
    method StartChange(model: Id, reasoning: Id, turn: Id, alive: bool) returns (end: End)
      requires Valid() && Unused(turn)
      requires disk.Some? ==> disk.value.lastResult != turn && disk.value.lastCounted != turn
      modifies this
      ensures Valid()
      ensures old(disk).Some? && Active(old(disk).value) && old(disk).value.status != StartFailedNoThread ==>
                OnDisk(old(disk).value) && ended == old(ended)
      ensures old(disk).Some? && !Active(old(disk).value) && old(disk).value.thread != BLANK ==> disk == old(disk)
      ensures old(Orphaned()) && (alive || old(dirty) || FoundThread(old(files), old(disk).value.active.events) != BLANK) ==>
                end == Returned(1) && disk == old(disk)
      ensures old(disk).Some? && !Active(old(disk).value) && old(disk).value.thread == BLANK ==>
                var chosen := old(disk).value.(model := model, reasoning := reasoning, status := Initializing);
                disk == old(disk) || disk == Some(chosen) || OnDisk(Intent(chosen, Start, turn, BLANK, model, reasoning, BLANK))
      ensures !faults && (old(disk).None? || (!Active(old(disk).value) && old(disk).value.thread == BLANK)) ==>
              turn in files.exits
      ensures !faults && old(Orphaned()) && !alive && !old(dirty)
              && FoundThread(old(files), old(disk).value.active.events) == BLANK ==>
                turn in files.exits
      ensures ended == old(ended) || ended == old(ended) + {turn}
    {
      hide OnTrack, Reconciled, Outcome, Finish, Book, Sound, Due;
      if disk.Some? { OnTrackSelf(disk.value, files, dirty); }
      var mishap := Mishap();
      if mishap { return Returned(1); }
      var died, repaired := RepairPrethreadFailure(alive);
      if died { return Died; }
      mishap := Mishap();
      if !repaired || mishap { return Returned(1); }
      var ready: bool;
      end, ready := LoadOrInitialize(model, reasoning, alive);
      if !ready { return; }
      ghost var loaded := state;
      state := state.(model := model, reasoning := reasoning, status := Initializing);
      IdleRewrite(loaded, state, files, dirty);
      var ok := Save(state);
      mishap := Mishap();
      if mishap { return Died; }
      if !ok { return Returned(1); }
      mishap := Mishap();
      if mishap { return Returned(1); }
      end := RunTurn(Start, BLANK, model, reasoning, BLANK, turn);
    }
  }
}

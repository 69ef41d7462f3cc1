/**
 A presence token proves continuity: presence, binding rows and the command table run together.

 The state keeps the trail of every step the binding service took, so that a claim can be compared with everything
 that happened since its confirmation.
 */
module PresenceContinuity {
  import opened Prelude
  import B = BrowserBinding
  import D = DeliveryCommands

  /** One step of the binding service and the world it left. */
  datatype Moment = Moment(event: B.Event, world: B.World)

  /** The trail, the command table, and at which moment each command was confirmed and claimed. */
  datatype State = State(trail: seq<Moment>, table: D.Table, confirmed: map<Id, nat>, claimed: map<Id, nat>)

  const START := State([], D.EMPTY, map[], map[])

  function Current(s: State): B.World {
    if s.trail == [] then B.EMPTY else s.trail[|s.trail| - 1].world
  }

  /**
   `look` is the instant at which a transaction reads the lane's binding; it does not read it when something else
   already refuses the request, or when the read fails.
   */
  datatype Event =
    | Serve(event: B.Event)
    | Confirm(project: nat, issue: nat, input: D.Confirmation, authority: Option<D.Authority>, look: Option<nat>, now: nat, ttl: nat)
    | ClaimOne(id: Id, req: D.ClaimRequest, authority: Option<D.Authority>, look: Option<nat>, now: nat, ttl: nat)
    | Complete(completion: D.Completion, now: nat)
    | Reconcile(now: nat)
    | Cancel(id: Id, now: nat)
    | Invalidate(id: Id, now: nat, reason: string)

  function Extend(s: State, e: B.Event, ttl: nat): State {
    s.(trail := s.trail + [Moment(e, B.Step(Current(s), e, ttl))])
  }

  function Looked(s: State, look: Option<nat>, ttl: nat): State {
    if look.Some? then Extend(s, B.Check(look.value), ttl) else s
  }

  /** What the binding resolver makes of the world it has just checked. */
  function Resolved(w: B.World, key: (nat, Id)): D.Resolution {
    if key !in w.lanes.rows then D.NotReady
    else
      var row := w.lanes.rows[key];
      match B.Project(w.presence.sessions, row)
      case Ready(session, token) => D.Ready(key.1, row.id, row.version, row.worker, session, row.target, token)
      case _ => D.NotReady
  }

  function SeenBinding(s: State, look: Option<nat>, project: nat, lane: Id): D.Resolution {
    if look.Some? then Resolved(Current(s), (project, lane)) else D.NotReady
  }

  function ConfirmView(s: State, project: nat, authority: Option<D.Authority>, look: Option<nat>, now: nat): D.View {
    D.View(now, authority, SeenBinding(s, look, project, if authority.Some? then authority.value.planLane else BLANK))
  }

  function ClaimView(s: State, id: Id, authority: Option<D.Authority>, look: Option<nat>, now: nat): D.View {
    D.View(now, authority,
           if D.Has(s.table, id) then SeenBinding(s, look, D.Row(s.table, id).frozen.project, D.Row(s.table, id).frozen.lane)
           else D.NotReady)
  }

  /** `ttl` is the presence time to live. */
  function Step(s: State, e: Event, ttl: nat): State {
    match e
    case Serve(event) => Extend(s, event, ttl)
    case Confirm(project, issue, input, authority, look, now, pendingTTL) =>
      var l := Looked(s, look, ttl);
      var t := D.CreateTx(s.table, project, issue, input, ConfirmView(l, project, authority, look, now), pendingTTL).0;
      l.(table := t,
         confirmed := if |t.rows| > |s.table.rows| && |l.trail| > 0 then s.confirmed[|t.rows| := |l.trail| - 1] else s.confirmed)
    case ClaimOne(id, req, authority, look, now, claimTTL) =>
      var l := Looked(s, look, ttl);
      var (t, verdict) := D.ClaimTx(s.table, id, req, ClaimView(l, id, authority, look, now), claimTTL);
      l.(table := t,
         claimed := if verdict.Won? && |l.trail| > 0 then s.claimed[id := |l.trail| - 1] else s.claimed)
    case Complete(k, now) => s.(table := D.Apply(s.table, D.Complete(k, now)))
    case Reconcile(now) => s.(table := D.Apply(s.table, D.Reconcile(now)))
    case Cancel(id, now) => s.(table := D.Apply(s.table, D.Cancel(id, now)))
    case Invalidate(id, now, reason) => s.(table := D.Apply(s.table, D.Invalidate(id, now, reason)))
  }

  function Run(s: State, es: seq<Event>, ttl: nat): State
    decreases |es|
  {
    if es == [] then s else Run(Step(s, es[0], ttl), es[1..], ttl)
  }

  // ---------------------------------------------------------------- continuity

  /** The lane's row is the frozen one, and the worker has only the frozen session, unconflicted, on the frozen target. */
  ghost predicate Steady(w: B.World, f: D.Frozen) {
    var key := (f.project, f.lane);
    && key in w.lanes.rows
    && w.lanes.rows[key] == B.Binding(f.bindingId, f.bindingVersion, f.worker, f.target, true)
    && B.Holds(w.presence.sessions, f.worker, f.session, f.target, f.presence)
  }

  /** At every moment from `lo` to `hi` the frozen authority held, and no step in between found the session lapsed. */
  ghost predicate Continuous(trail: seq<Moment>, lo: nat, hi: nat, f: D.Frozen, ttl: nat) {
    && lo <= hi < |trail|
    && (forall j :: lo <= j <= hi ==> Steady(trail[j].world, f))
    && (forall j :: lo < j <= hi ==> B.Fresh(trail[j - 1].world.presence.sessions, f.worker, f.session, trail[j].event, ttl))
  }

  /** The frozen authority can never be current again: its token left the worker, or its row moved on. */
  ghost predicate Broken(w: B.World, f: D.Frozen) {
    var key := (f.project, f.lane);
    || B.Gone(w.presence.sessions, f.presence)
    || (key in w.lanes.rows && w.lanes.rows[key].version > f.bindingVersion)
  }

  /** A drawn token on a known row: what `Broken` needs to last. */
  ghost predicate Grounded(w: B.World, f: D.Frozen) {
    && f.presence.Token? && f.presence.stamp <= w.presence.stamp
    && (f.project, f.lane) in w.lanes.rows
    && w.lanes.rows[(f.project, f.lane)].version >= f.bindingVersion
  }

  ghost predicate Traced(s: State, c: D.Command, ttl: nat) {
    && c.id in s.confirmed && s.confirmed[c.id] < |s.trail|
    && Grounded(Current(s), c.frozen)
    && (c.claim.None? ==> Broken(Current(s), c.frozen) || Continuous(s.trail, s.confirmed[c.id], |s.trail| - 1, c.frozen, ttl))
    && (c.claim.Some? ==> c.id in s.claimed && Continuous(s.trail, s.confirmed[c.id], s.claimed[c.id], c.frozen, ttl))
  }

  ghost predicate Joint(s: State, ttl: nat) {
    && D.Inv(s.table) && B.Ok(Current(s))
    && (forall i {:trigger s.table.rows[i]} :: 0 <= i < |s.table.rows| ==> Traced(s, s.table.rows[i], ttl))
  }

  /** One step of the binding service either keeps the frozen authority or breaks it for good. */
  lemma StepKeepsOrBreaks(w: B.World, e: B.Event, f: D.Frozen, ttl: nat)
    requires B.Ok(w) && Grounded(w, f)
    ensures Grounded(B.Step(w, e, ttl), f)
    ensures Broken(w, f) ==> Broken(B.Step(w, e, ttl), f)
    ensures Steady(w, f) ==>
              || Broken(B.Step(w, e, ttl), f)
              || (Steady(B.Step(w, e, ttl), f) && B.Fresh(w.presence.sessions, f.worker, f.session, e, ttl))
  {
    hide B.Watch, B.Write, B.Holds, B.Gone, B.Fresh, B.PresenceOk, B.RowsOk;
    B.WatchKeepsOk(w.presence, e, ttl);
    B.WriteKeepsOk(w.lanes, e);
    if B.Gone(w.presence.sessions, f.presence) { B.GoneForever(w.presence, e, ttl, f.presence); }
    if Steady(w, f) { B.HoldsOrGone(w.presence, e, ttl, f.worker, f.session, f.target, f.presence); }
  }

  lemma ExtendTraced(s: State, e: B.Event, c: D.Command, ttl: nat)
    requires B.Ok(Current(s)) && Traced(s, c, ttl)
    ensures Traced(Extend(s, e, ttl), c, ttl)
  {
    hide B.Ok, B.Step, Steady, Broken, Grounded, B.Fresh;
    var n := |s.trail|;
    var trail := Extend(s, e, ttl).trail;
    StepKeepsOrBreaks(Current(s), e, c.frozen, ttl);
    assert forall j :: 0 <= j < n ==> trail[j] == s.trail[j];
    if Continuous(s.trail, s.confirmed[c.id], n - 1, c.frozen, ttl) {
      assert Steady(s.trail[n - 1].world, c.frozen);
    }
  }

  lemma ExtendKeepsJoint(s: State, e: B.Event, ttl: nat)
    requires Joint(s, ttl)
    ensures Joint(Extend(s, e, ttl), ttl)
  {
    hide B.Ok, B.Step, Traced, D.Inv;
    B.StepKeepsOk(Current(s), e, ttl);
    forall i | 0 <= i < |s.table.rows|
      ensures Traced(Extend(s, e, ttl), s.table.rows[i], ttl)
    {
      ExtendTraced(s, e, s.table.rows[i], ttl);
    }
  }

  /** A binding that resolves ready is steady, and its token is on its session. */
  lemma ReadyIsSteady(w: B.World, key: (nat, Id), f: D.Frozen)
    requires B.Ok(w)
    requires Resolved(w, key) == D.Ready(f.lane, f.bindingId, f.bindingVersion, f.worker, f.session, f.target, f.presence)
    requires key == (f.project, f.lane)
    ensures Steady(w, f) && Grounded(w, f) && !Broken(w, f)
  {
    var row := w.lanes.rows[key];
    var ss := B.SessionsOf(w.presence.sessions, row.worker);
    assert ss.Keys == {B.Only(ss)};
    assert B.WorkerOk(row.worker, ss, w.presence.stamp);
  }

  /** Transactions that look at no binding leave every trace alone. */
  lemma TableKeepsJoint(s: State, tx: D.Tx, ttl: nat)
    requires Joint(s, ttl) && !tx.Create? && !tx.ClaimOne?
    ensures Joint(s.(table := D.Apply(s.table, tx)), ttl)
  {
    hide B.Ok, D.Inv, Broken, Continuous, Grounded;
    var t := D.Apply(s.table, tx);
    D.ApplySafe(s.table, tx);
    SameClaims(s.table, tx);
    forall i | 0 <= i < |t.rows|
      ensures Traced(s.(table := t), t.rows[i], ttl)
    {
      assert D.RowEvolves(s.table.rows[i], t.rows[i]);
      assert Traced(s, s.table.rows[i], ttl);
    }
  }

  lemma SameClaims(t: D.Table, tx: D.Tx)
    requires D.Inv(t) && !tx.Create? && !tx.ClaimOne?
    ensures var u := D.Apply(t, tx);
            |u.rows| == |t.rows| && forall i :: 0 <= i < |t.rows| ==> u.rows[i].claim == t.rows[i].claim
  {
  }

  /** A confirmation adds at most one row, pending and without a claim. */
  lemma CreateRows(t: D.Table, project: nat, issue: nat, input: D.Confirmation, v: D.View, ttl: nat)
    requires D.Inv(t)
    ensures var (u, r) := D.CreateTx(t, project, issue, input, v, ttl);
            && |t.rows| <= |u.rows| <= |t.rows| + 1 && (forall i :: 0 <= i < |t.rows| ==> u.rows[i] == t.rows[i])
            && (|u.rows| > |t.rows| ==>
                  && v.authority.Some? && u.rows[|t.rows|].id == |t.rows| + 1 && u.rows[|t.rows|].claim.None?
                  && var f := u.rows[|t.rows|].frozen;
                     f.project == project && f.lane == v.authority.value.planLane
                     && v.binding == D.Ready(f.lane, f.bindingId, f.bindingVersion, f.worker, f.session, f.target, f.presence))
  {
  }

  lemma ConfirmKeepsJoint(s: State, e: Event, ttl: nat)
    requires Joint(s, ttl) && e.Confirm?
    ensures Joint(Step(s, e, ttl), ttl)
  {
    hide B.Ok, D.Inv, D.Evolves, Broken, Grounded, B.Step, Steady, Traced, D.CreateTx, Resolved;
    var l := Looked(s, e.look, ttl);
    if e.look.Some? { ExtendKeepsJoint(s, B.Check(e.look.value), ttl); }
    var view := ConfirmView(l, e.project, e.authority, e.look, e.now);
    D.ApplySafe(s.table, D.Create(e.project, e.issue, e.input, view, e.ttl));
    CreateRows(s.table, e.project, e.issue, e.input, view, e.ttl);
    var r := Step(s, e, ttl);
    var n := |s.table.rows|;
    forall i | 0 <= i < |r.table.rows|
      ensures Traced(r, r.table.rows[i], ttl)
    {
      if i < n {
        InvRow(s.table, i);
        assert Traced(l, s.table.rows[i], ttl);
        OldTrace(l, r, s.table.rows[i], ttl);
      } else {
        ReadyIsSteady(Current(l), (e.project, view.authority.value.planLane), r.table.rows[i].frozen);
        JustConfirmed(l, r, i, ttl);
      }
    }
  }

  lemma OldTrace(l: State, r: State, c: D.Command, ttl: nat)
    requires Traced(l, c, ttl) && r.trail == l.trail && r.claimed == l.claimed
    requires c.id in l.confirmed ==> c.id in r.confirmed && r.confirmed[c.id] == l.confirmed[c.id]
    ensures Traced(r, c, ttl)
  {
    hide Broken, Continuous, Grounded;
  }

  lemma InvRow(t: D.Table, i: nat)
    requires D.Inv(t) && i < |t.rows|
    ensures D.RowOk(t.rows[i], i + 1, t.claims)
  {
  }

  lemma JustConfirmed(l: State, r: State, i: nat, ttl: nat)
    requires i < |r.table.rows| && r.trail == l.trail && |l.trail| > 0
    requires var c := r.table.rows[i];
             && c.claim.None? && c.id in r.confirmed && r.confirmed[c.id] == |l.trail| - 1
             && Steady(Current(l), c.frozen) && Grounded(Current(l), c.frozen)
    ensures Traced(r, r.table.rows[i], ttl)
  {
  }

  /** What the claim transaction does to each row. */
  lemma ClaimRow(t: D.Table, id: Id, req: D.ClaimRequest, v: D.View, ttl: nat, i: nat)
    requires D.Inv(t) && i < |t.rows|
    ensures var (u, verdict) := D.ClaimTx(t, id, req, v, ttl);
            && |u.rows| == |t.rows| && u.rows[i].id == t.rows[i].id == i + 1 && u.rows[i].frozen == t.rows[i].frozen
            && (if verdict.Won? && i == id - 1 then t.rows[i].claim.None? && u.rows[i].claim.Some? else u.rows[i].claim == t.rows[i].claim)
  {
    InvRow(t, i);
  }

  lemma ClaimLength(t: D.Table, id: Id, req: D.ClaimRequest, v: D.View, ttl: nat)
    ensures var (u, verdict) := D.ClaimTx(t, id, req, v, ttl); |u.rows| == |t.rows| && (verdict.Won? ==> D.Has(t, id))
  {
  }

  /** A claim is won only while the frozen authority is steady. */
  lemma WonIsSteady(l: State, e: Event)
    requires e.ClaimOne? && D.Inv(l.table) && B.Ok(Current(l))
    requires D.ClaimTx(l.table, e.id, e.req, ClaimView(l, e.id, e.authority, e.look, e.now), e.ttl).1.Won?
    ensures D.Has(l.table, e.id) && !Broken(Current(l), D.Row(l.table, e.id).frozen)
  {
    hide B.Ok, D.Inv, Broken, Steady, Grounded;
    var view := ClaimView(l, e.id, e.authority, e.look, e.now);
    D.WonIsCurrent(l.table, e.id, e.req, view, e.ttl);
    hide D.ClaimTx;
    var f := D.Row(l.table, e.id).frozen;
    ReadyIsSteady(Current(l), (f.project, f.lane), f);
  }

  lemma KeptTrace(l: State, r: State, c: D.Command, d: D.Command, ttl: nat)
    requires Traced(l, c, ttl) && d.id == c.id && d.frozen == c.frozen && d.claim == c.claim
    requires r.trail == l.trail && r.confirmed == l.confirmed
    requires c.id in l.claimed ==> c.id in r.claimed && (c.claim.Some? ==> r.claimed[c.id] == l.claimed[c.id])
    ensures Traced(r, d, ttl)
  {
    hide Broken, Continuous, Grounded;
  }

  lemma WonTrace(l: State, r: State, c: D.Command, d: D.Command, ttl: nat)
    requires Traced(l, c, ttl) && d.id == c.id && d.frozen == c.frozen && c.claim.None? && d.claim.Some?
    requires r.trail == l.trail && r.confirmed == l.confirmed && !Broken(Current(l), c.frozen)
    requires |l.trail| > 0 && c.id in r.claimed && r.claimed[c.id] == |l.trail| - 1
    ensures Traced(r, d, ttl)
  {
    hide Broken, Continuous, Grounded;
  }

  lemma ClaimKeepsJoint(s: State, e: Event, ttl: nat)
    requires Joint(s, ttl) && e.ClaimOne?
    ensures Joint(Step(s, e, ttl), ttl)
  {
    hide B.Ok, D.Inv, Broken, Grounded, B.Step, Steady, Traced, D.ClaimTx, ClaimView, D.Evolves;
    var l := Looked(s, e.look, ttl);
    if e.look.Some? { ExtendKeepsJoint(s, B.Check(e.look.value), ttl); }
    var view := ClaimView(l, e.id, e.authority, e.look, e.now);
    D.ClaimSafe(s.table, e.id, e.req, view, e.ttl);
    ClaimLength(s.table, e.id, e.req, view, e.ttl);
    var verdict := D.ClaimTx(s.table, e.id, e.req, view, e.ttl).1;
    var r := Step(s, e, ttl);
    if verdict.Won? { WonIsSteady(l, e); }
    forall i | 0 <= i < |s.table.rows|
      ensures Traced(r, r.table.rows[i], ttl)
    {
      ClaimRow(s.table, e.id, e.req, view, e.ttl, i);
      assert Traced(l, s.table.rows[i], ttl);
      if verdict.Won? && i == e.id - 1 {
        TrailIsThere(l, s.table.rows[i], ttl);
        WonTrace(l, r, s.table.rows[i], r.table.rows[i], ttl);
      } else {
        InvRow(s.table, i);
        KeptTrace(l, r, s.table.rows[i], r.table.rows[i], ttl);
      }
    }
  }

  lemma TrailIsThere(l: State, c: D.Command, ttl: nat)
    requires Traced(l, c, ttl)
    ensures |l.trail| > 0
  {
  }

  lemma StepKeepsJoint(s: State, e: Event, ttl: nat)
    requires Joint(s, ttl)
    ensures Joint(Step(s, e, ttl), ttl)
  {
    hide Joint;
    match e
    case Serve(event) => ExtendKeepsJoint(s, event, ttl);
    case Confirm(_, _, _, _, _, _, _) => ConfirmKeepsJoint(s, e, ttl);
    case ClaimOne(_, _, _, _, _, _) => ClaimKeepsJoint(s, e, ttl);
    case Complete(k, now) => TableKeepsJoint(s, D.Complete(k, now), ttl);
    case Reconcile(now) => TableKeepsJoint(s, D.Reconcile(now), ttl);
    case Cancel(id, now) => TableKeepsJoint(s, D.Cancel(id, now), ttl);
    case Invalidate(id, now, reason) => TableKeepsJoint(s, D.Invalidate(id, now, reason), ttl);
  }

  lemma {:induction false} RunKeepsJoint(s: State, es: seq<Event>, ttl: nat)
    requires Joint(s, ttl)
    ensures Joint(Run(s, es, ttl), ttl)
    decreases |es|
  {
    hide Joint, Step;
    if es != [] {
      StepKeepsJoint(s, es[0], ttl);
      RunKeepsJoint(Step(s, es[0], ttl), es[1..], ttl);
    }
  }

  /**
   In every run, a command that was ever claimed kept its authority from confirmation to claim: the same enabled row at
   the same version, and the worker with only the frozen session, unconflicted, on the frozen target, never found
   lapsed.
   */
  lemma ClaimProvesContinuity(es: seq<Event>, id: Id, ttl: nat)
    requires var s := Run(START, es, ttl); D.Has(s.table, id) && D.Row(s.table, id).claim.Some?
    ensures var s := Run(START, es, ttl);
            && id in s.confirmed && id in s.claimed
            && Continuous(s.trail, s.confirmed[id], s.claimed[id], D.Row(s.table, id).frozen, ttl)
  {
    RunKeepsJoint(START, es, ttl);
    var s := Run(START, es, ttl);
    InvRow(s.table, id - 1);
    assert Traced(s, s.table.rows[id - 1], ttl);
  }

  /** In every run, at most one enabled row serves a worker and target, across all projects and lanes. */
  lemma OneRowPerTarget(es: seq<Event>, ttl: nat, k: (nat, Id), j: (nat, Id))
    requires var rows := Current(Run(START, es, ttl)).lanes.rows;
             && k in rows && j in rows && rows[k].enabled && rows[j].enabled
             && rows[k].worker == rows[j].worker && rows[k].target == rows[j].target
    ensures k == j
  {
    RunKeepsJoint(START, es, ttl);
  }

  // ---------------------------------------------------------------- witness

  const WORKER: Id := 1
  const SESSION: Id := 2
  const TARGET: Id := 3
  const LANE: Id := 4
  const TOKEN: Token := Token(2, WORKER, SESSION)
  const PLAN := D.Authority(true, true, 5, D.Dispatch, 6, LANE, 7, 8, 9, 8, 7, D.Dispatch, 6, LANE)
  const INPUT := D.Confirmation(10, 11, 5, 8, 7, LANE, 1, 1, TOKEN)
  const REQUEST := D.ClaimRequest(WORKER, SESSION, 12)

  /** A registered session, a binding of its target, a confirmation and a poll: the command is claimed. */
  const STORY := [
    Serve(B.Register(WORKER, SESSION, Some(TARGET), 1)),
    Serve(B.Put((1, LANE), WORKER, TARGET, None)),
    Confirm(1, 1, INPUT, Some(PLAN), Some(2), 2, 300),
    ClaimOne(1, REQUEST, Some(PLAN), Some(3), 3, 60)]

  const HERE := map[WORKER := map[SESSION := B.Session(1, Some(TARGET), TOKEN, false)]]
  const BOUND := map[(1 as nat, LANE) := B.Binding(1, 1, WORKER, TARGET, true)]

  lemma PresenceOfOne(now: nat, stamp: nat)
    requires now <= 31
    ensures B.Pruned(HERE, now, 30, stamp) == HERE
  {
    var ss := HERE[WORKER];
    assert B.Live(ss, now, 30) == ss;
    assert B.MarkConflict(WORKER, ss, stamp) == ss;
  }

  lemma FirstRegistration()
    ensures B.Watch(B.EMPTY.presence, B.Register(WORKER, SESSION, Some(TARGET), 1), 30) == B.Presence(HERE, 3)
  {
    var p := B.Pruned(map[], 1, 30, 1);
    assert p == map[];
    var ss := B.Seen(map[], WORKER, SESSION, Some(TARGET), 1, 2);
    assert ss == HERE[WORKER];
    assert B.MarkConflict(WORKER, ss, 3) == ss;
    assert p[WORKER := ss] == HERE;
  }

  lemma BoundHere()
    ensures Resolved(B.World(B.Presence(HERE, 5), B.Lanes(BOUND, 2)), (1, LANE)) == D.Ready(LANE, 1, 1, WORKER, SESSION, TARGET, TOKEN)
    ensures Resolved(B.World(B.Presence(HERE, 4), B.Lanes(BOUND, 2)), (1, LANE)) == D.Ready(LANE, 1, 1, WORKER, SESSION, TARGET, TOKEN)
  {
    var ss := HERE[WORKER];
    assert ss.Keys == {SESSION};
    assert B.Only(ss) == SESSION;
  }

  lemma BoundStory()
    ensures var s := Step(Step(START, STORY[0], 30), STORY[1], 30);
            Current(s) == B.World(B.Presence(HERE, 3), B.Lanes(BOUND, 2)) && s.table == D.EMPTY && |s.trail| == 2
  {
    FirstRegistration();
    var s := Step(START, STORY[0], 30);
    assert Current(s) == B.World(B.Presence(HERE, 3), B.Lanes(map[], 1));
    assert Current(Step(s, STORY[1], 30)).lanes.rows == BOUND;
  }

  lemma StoryUnfolds(s: State)
    requires s == Step(Step(START, STORY[0], 30), STORY[1], 30)
    ensures Run(START, STORY, 30) == Step(Step(s, STORY[2], 30), STORY[3], 30)
  {
    hide Step;
    assert STORY[1..][1..] == STORY[2..] && STORY[2..][1..] == STORY[3..] && STORY[3..][1..] == [];
    var s3 := Step(s, STORY[2], 30);
    assert Run(s3, STORY[3..], 30) == Run(Step(s3, STORY[3], 30), [], 30);
    assert Run(s, STORY[2..], 30) == Run(s3, STORY[3..], 30);
    assert Run(Step(START, STORY[0], 30), STORY[1..], 30) == Run(s, STORY[2..], 30);
  }

  const ROW := D.Command(
    1, D.Frozen(1, 1, 11, 10, 5, 8, 9, 9, D.Dispatch, 6, LANE, 7, 1, 1, WORKER, SESSION, TOKEN, TARGET, 2, 302),
    D.Pending, None, None, "", "")

  lemma ConfirmedStory()
    ensures var s := Step(Step(Step(START, STORY[0], 30), STORY[1], 30), STORY[2], 30);
            s.table == D.Table([ROW], 0) && Current(s) == B.World(B.Presence(HERE, 4), B.Lanes(BOUND, 2))
  {
    hide B.Pruned, B.Project;
    BoundStory();
    PresenceOfOne(2, 4);
    BoundHere();
    var s2 := Step(Step(START, STORY[0], 30), STORY[1], 30);
    assert Current(Looked(s2, Some(2), 30)) == B.World(B.Presence(HERE, 4), B.Lanes(BOUND, 2));
    assert D.FindKey(s2.table.rows, 1, 1, INPUT.key, 0).None?;
  }

  /** The premise of `ClaimProvesContinuity` is met by a run. */
  lemma ClaimIsReached()
    ensures var s := Run(START, STORY, 30);
            D.Has(s.table, 1) && D.Row(s.table, 1).status == D.Claimed && D.Row(s.table, 1).claim.Some?
  {
    hide B.Pruned, B.Project, D.ClaimTx, D.CreateTx, Run;
    ConfirmedStory();
    PresenceOfOne(3, 5);
    BoundHere();
    var s2 := Step(Step(START, STORY[0], 30), STORY[1], 30);
    StoryUnfolds(s2);
    var s3 := Step(s2, STORY[2], 30);
    var l3 := Looked(s3, Some(3), 30);
    assert Current(l3) == B.World(B.Presence(HERE, 5), B.Lanes(BOUND, 2));
    RowIsWon(ClaimView(l3, 1, Some(PLAN), Some(3), 3));
  }

  lemma RowIsWon(v: D.View)
    requires v == D.View(3, Some(PLAN), D.Ready(LANE, 1, 1, WORKER, SESSION, TARGET, TOKEN))
    ensures var u := D.ClaimTx(D.Table([ROW], 0), 1, REQUEST, v, 60).0;
            |u.rows| == 1 && u.rows[0].status == D.Claimed && u.rows[0].claim.Some?
  {
    assert D.FindRequest([ROW], WORKER, 12, 1).None?;
    assert D.FindRequest([ROW], WORKER, 12, 0).None?;
    assert D.Stale(ROW, v).None?;
  }
}

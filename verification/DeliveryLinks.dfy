/**
 Links between workflow commands and browser deliveries (backend/internal/workerloop/delivery.go).

 The status of a workflow command and the status of the browser delivery that carries it live in different tables and
 never commit together: a coordinator request reads a delivery, and records what it read some time later. This module
 joins the browser protocol, the worker loop and the links into one transition system and shows what a workflow status
 says about the page. `DeliveryCoordinator` is the imperative form of the coordinator.
 */
module DeliveryLinks {
  import opened Prelude
  import D = DeliveryCommands
  import B = BrowserProtocol
  import W = WorkerResults

  /** The delivery each workflow command is linked to. */
  type Links = map<Id, Id>

  /** A delivery status as the worker loop reads it. */
  function Outcome(s: D.Status): W.Delivery {
    match s
    case Pending => W.Pending
    case Claimed => W.Claimed
    case Delivered => W.Delivered
    case Failed => W.DeliveryFailed
    case Uncertain => W.Uncertain
    case Cancelled => W.Cancelled
    case Expired => W.Expired
    case Invalidated => W.Invalidated
  }

  /** The workflow status a delivery status is recorded as. */
  function Recorded(s: D.Status): W.Status {
    W.StatusOfDelivery(Outcome(s)).value
  }

  lemma RecordedIff(s: D.Status)
    ensures Recorded(s) == W.DeliveryPending <==> s in {D.Pending, D.Claimed}
    ensures Recorded(s) == W.AwaitingResult <==> s == D.Delivered
    ensures Recorded(s) == W.Failed <==> s in {D.Failed, D.Cancelled, D.Expired}
    ensures Recorded(s) == W.Ambiguous <==> s == D.Uncertain
    ensures Recorded(s) == W.Superseded <==> s == D.Invalidated
  {
  }

  /** INSERT … ON CONFLICT DO NOTHING over two unique columns. */
  function Linked(links: Links, w: Id, d: Id): Links {
    if w in links || d in links.Values then links else links[w := d]
  }

  // ---------------------------------------------------------------- what the tables say of each other

  /** Links join existing rows, one delivery to one workflow command. */
  ghost predicate LinksOk(t: D.Table, cs: W.Commands, links: Links) {
    && (forall w :: w in links ==> w in cs && D.Has(t, links[w]))
    && (forall v, w :: v in links && w in links && links[v] == links[w] ==> v == w)
  }

  /** Did the delivery end without anything being sent? */
  predicate NeverSent(s: D.Status) {
    s == D.Failed || s == D.Cancelled || s == D.Expired
  }

  /** A command waits for a result only when its delivery was delivered, and failed only when that was never sent. */
  ghost predicate ToldOf(t: D.Table, c: W.Command, w: Id, links: Links) {
    && (c.status == W.AwaitingResult ==> w in links && D.Has(t, links[w]) && D.Row(t, links[w]).status == D.Delivered)
    && (c.status == W.Failed ==> w in links && D.Has(t, links[w]) && NeverSent(D.Row(t, links[w]).status))
  }

  ghost predicate Told(t: D.Table, cs: W.Commands, links: Links) {
    forall w :: w in cs ==> ToldOf(t, cs[w], w, links)
  }

  /** A status read at some time from a delivery; a final one is still its status. */
  ghost predicate ReadOk(t: D.Table, d: Id, s: D.Status) {
    D.Has(t, d) && (D.Rank(s) == 2 ==> D.Row(t, d).status == s)
  }

  lemma RowMoves(t: D.Table, u: D.Table, d: Id)
    requires D.Evolves(t, u) && D.Has(t, d)
    ensures D.Has(u, d) && D.RowEvolves(D.Row(t, d), D.Row(u, d))
  {
    assert D.RowEvolves(t.rows[d - 1], u.rows[d - 1]);
  }

  /** Transactions of the delivery service never make a workflow status untrue. */
  lemma TableKeepsTold(t: D.Table, u: D.Table, cs: W.Commands, links: Links)
    requires D.Evolves(t, u) && LinksOk(t, cs, links) && Told(t, cs, links)
    ensures LinksOk(u, cs, links) && Told(u, cs, links)
  {
    hide D.Evolves;
    forall w | w in links
      ensures D.Has(u, links[w]) && D.RowEvolves(D.Row(t, links[w]), D.Row(u, links[w]))
    {
      RowMoves(t, u, links[w]);
    }
    forall w | w in cs
      ensures ToldOf(u, cs[w], w, links)
    {
      assert ToldOf(t, cs[w], w, links);
    }
  }

  /** A new link keeps every old one. */
  lemma LinkKeepsTold(t: D.Table, cs: W.Commands, links: Links, w: Id, d: Id)
    requires LinksOk(t, cs, links) && Told(t, cs, links) && w in cs && D.Has(t, d)
    ensures LinksOk(t, cs, Linked(links, w, d)) && Told(t, cs, Linked(links, w, d))
    ensures forall v :: v in links ==> v in Linked(links, w, d) && Linked(links, w, d)[v] == links[v]
  {
    forall v | v in cs
      ensures ToldOf(t, cs[v], v, Linked(links, w, d))
    {
      assert ToldOf(t, cs[v], v, links);
    }
  }

  /** Recording what was read of the linked delivery keeps the command truthful, even when it was read long ago. */
  lemma RecordKeepsTold(t: D.Table, cs: W.Commands, links: Links, w: Id, s: D.Status, c: W.Command)
    requires LinksOk(t, cs, links) && Told(t, cs, links) && w in links && ReadOk(t, links[w], s)
    requires c == W.AfterDelivery(cs[w], Outcome(s)) || c == W.Moved(cs[w], Recorded(s))
    ensures LinksOk(t, cs[w := c], links) && Told(t, cs[w := c], links)
  {
    assert ToldOf(t, cs[w], w, links);
    forall v | v in cs
      ensures ToldOf(t, cs[w := c][v], v, links)
    {
      assert ToldOf(t, cs[v], v, links);
    }
  }

  /** Observations, refreshes and creations never say that a command was sent or failed. */
  ghost predicate Spoken(cs: W.Commands, ds: W.Commands) {
    && cs.Keys <= ds.Keys
    && (forall w :: w in ds && (ds[w].status == W.AwaitingResult || ds[w].status == W.Failed) ==> w in cs && ds[w].status == cs[w].status)
  }

  predicate FromGitHub(cause: W.Cause) {
    match cause
    case Observe(_, _) => true
    case Callback(_, _) => false
    case Refresh(_, to) => to == W.Superseded || to == W.Ambiguous
    case Create(input) => input.status == W.DeliveryPending
  }

  lemma SettledBySelf(c: W.Command, accepted: set<W.Payload>)
    ensures W.Settled(c, accepted) in {c.status, W.Ambiguous, W.Completed, W.Stopped, W.Inconclusive}
  {
  }

  lemma GitHubSpeaksNotOfTransport(a: W.Store, cause: W.Cause, b: W.Store)
    requires W.Next(a, cause, b) && !cause.Callback?
    requires cause.Refresh? ==> cause.to in {W.Superseded, W.Ambiguous}
    requires cause.Create? ==> cause.input.status == W.DeliveryPending
    ensures Spoken(a.commands, b.commands)
  {
    hide W.Recorded, W.InConflict, W.AcceptedPayloads, W.Synced, W.Settled;
    if cause.Observe? {
      var s := cause.snapshot;
      var done := W.Synced(a.commands, s.project, s.issues);
      var rows :| W.Recorded(a.rows, rows, a.commands, s, cause.patterns)
        && W.Reconciled(W.Store(a.commands, rows), b, s.project, done);
      forall w | w in a.commands
        ensures b.commands[w].status in {a.commands[w].status, W.Ambiguous, W.Completed, W.Stopped, W.Inconclusive}
      {
        SettledBySelf(a.commands[w], W.AcceptedPayloads(rows, s.project, w));
      }
    }
  }

  lemma SpokenKeepsTold(t: D.Table, cs: W.Commands, ds: W.Commands, links: Links)
    requires LinksOk(t, cs, links) && Told(t, cs, links) && Spoken(cs, ds)
    ensures LinksOk(t, ds, links) && Told(t, ds, links)
  {
    forall w | w in ds
      ensures ToldOf(t, ds[w], w, links)
    {
      if w in cs { assert ToldOf(t, cs[w], w, links); }
    }
  }

  // ---------------------------------------------------------------- the joined system

  /** `taken` are the delivery statuses ever read by a request; it may record one at any later time, or twice. */
  datatype World = World(browser: B.State, work: W.Store, links: Links, taken: set<(Id, D.Status)>)

  const START := World(B.START, W.Store(map[], map[]), map[], {})

  datatype Event =
    | Protocol(event: B.Event)
    | ReadDelivery(delivery: Id)
    | LinkDelivery(workflow: Id, delivery: Id)
    | RecordOutcome(workflow: Id, status: D.Status, late: bool)   // late: the command turned terminal after it was looked at
    | Worker(cause: W.Cause)

  ghost predicate Next(a: World, e: Event, b: World) {
    match e
    case Protocol(x) => b == a.(browser := B.Step(a.browser, x))
    case ReadDelivery(d) =>
      D.Has(a.browser.table, d) && b == a.(taken := a.taken + {(d, D.Row(a.browser.table, d).status)})
    case LinkDelivery(w, d) =>
      w in a.work.commands && D.Has(a.browser.table, d) && b == a.(links := Linked(a.links, w, d))
    case RecordOutcome(w, s, late) =>
      && w in a.links && (a.links[w], s) in a.taken && b == a.(work := b.work)
      && W.Next(a.work, if late then W.Refresh(w, Recorded(s)) else W.Callback(w, Outcome(s)), b.work)
    case Worker(cause) => FromGitHub(cause) && b == a.(work := b.work) && W.Next(a.work, cause, b.work)
  }

  ghost predicate Joined(x: World) {
    && B.Joint(x.browser)
    && LinksOk(x.browser.table, x.work.commands, x.links)
    && Told(x.browser.table, x.work.commands, x.links)
    && (forall r :: r in x.taken ==> ReadOk(x.browser.table, r.0, r.1))
  }

  /** Rows and clicks only move on, and a link once made stays. */
  ghost predicate Onward(a: World, b: World) {
    && D.Evolves(a.browser.table, b.browser.table)
    && (forall w :: w in a.links ==> w in b.links && b.links[w] == a.links[w])
  }

  lemma ProtocolKeepsJoined(a: World, e: B.Event)
    requires Joined(a)
    ensures Joined(a.(browser := B.Step(a.browser, e))) && Onward(a, a.(browser := B.Step(a.browser, e)))
  {
    B.StepKeepsJoint(a.browser, e);
    assert D.Inv(a.browser.table);
    B.StepEvolves(a.browser, e);
    hide B.Joint, B.Step, D.Evolves, D.Inv;
    var t, u := a.browser.table, B.Step(a.browser, e).table;
    TableKeepsTold(t, u, a.work.commands, a.links);
    forall r | r in a.taken
      ensures ReadOk(u, r.0, r.1)
    {
      RowMoves(t, u, r.0);
    }
  }

  /** Every step keeps what the four stores say of each other. */
  lemma NextKeepsJoined(a: World, e: Event, b: World)
    requires Joined(a) && Next(a, e, b)
    ensures Joined(b) && Onward(a, b)
  {
    hide B.Joint, B.Step, D.Evolves, W.Next, LinksOk, Told, W.AfterDelivery, W.Moved;
    if !e.Protocol? { D.EvolvesSelf(a.browser.table); }
    match e
    case Protocol(x) => ProtocolKeepsJoined(a, x);
    case ReadDelivery(d) =>
    case LinkDelivery(w, d) => LinkKeepsTold(a.browser.table, a.work.commands, a.links, w, d);
    case RecordOutcome(w, s, late) => RecordStep(a, w, s, late, b);
    case Worker(cause) =>
      GitHubSpeaksNotOfTransport(a.work, cause, b.work);
      SpokenKeepsTold(a.browser.table, a.work.commands, b.work.commands, a.links);
  }

  lemma RecordStep(a: World, w: Id, s: D.Status, late: bool, b: World)
    requires Joined(a) && Next(a, RecordOutcome(w, s, late), b)
    ensures LinksOk(b.browser.table, b.work.commands, b.links) && Told(b.browser.table, b.work.commands, b.links)
  {
    hide B.Joint, Told, D.Row, D.Has;
    assert ReadOk(a.browser.table, a.links[w], s);
    RecordKeepsTold(a.browser.table, a.work.commands, a.links, w, s, b.work.commands[w]);
  }

  ghost predicate Chain(worlds: seq<World>, events: seq<Event>) {
    |worlds| == |events| + 1 && forall i :: 0 <= i < |events| ==> Next(worlds[i], events[i], worlds[i + 1])
  }

  ghost predicate IsRun(worlds: seq<World>, events: seq<Event>) {
    Chain(worlds, events) && worlds[0] == START
  }

  lemma StartIsJoined()
    ensures Joined(START)
  {
    B.StartIsJoint();
  }

  lemma {:induction false} RunKeepsJoined(worlds: seq<World>, events: seq<Event>, i: nat, n: nat)
    requires IsRun(worlds, events) && i <= n < |worlds|
    ensures Joined(worlds[n]) && Onward(worlds[i], worlds[n])
    decreases n
  {
    hide Joined, Next, D.Evolves;
    if n == 0 {
      StartIsJoined();
      D.EvolvesSelf(worlds[0].browser.table);
    } else {
      RunKeepsJoined(worlds, events, if i == n then n - 1 else i, n - 1);
      assert Next(worlds[n - 1], events[n - 1], worlds[n - 1 + 1]);
      NextKeepsJoined(worlds[n - 1], events[n - 1], worlds[n]);
      if i == n {
        D.EvolvesSelf(worlds[n].browser.table);
      } else {
        D.EvolvesTransitive(worlds[i].browser.table, worlds[n - 1].browser.table, worlds[n].browser.table);
      }
    }
  }

  // ---------------------------------------------------------------- what a workflow status means on the page

  lemma NeverSentIsNeverClicked(s: B.State, k: Id)
    requires B.Joint(s) && D.Has(s.table, k) && D.Row(s.table, k).frozen.worker == B.WORKER && NeverSent(D.Row(s.table, k).status)
    ensures s.clicks[k] == 0
  {
    var row := s.table.rows[k - 1];
    assert D.RowOk(row, k, s.table.claims);
    if row.status == D.Failed {
      B.HonestRow(s, k);
    } else {
      forall i | 0 <= i < |s.messages|
        ensures s.messages[i].command != k
      {
        assert B.Owns(s.table, s.messages[i].claim, s.messages[i].command);
      }
    }
  }

  /**
   In every run, a workflow command that has ever waited for its result was sent: the delivery it is linked to, now and
   for good, has exactly one click on the page, and the page acknowledged it. One that has ever failed was not: its
   delivery has no click and never gets one.
   */
  lemma WorkflowStatusIsHonest(worlds: seq<World>, events: seq<Event>, i: nat, n: nat, w: Id)
    requires IsRun(worlds, events) && i <= n < |worlds|
    requires w in worlds[i].links && D.Has(worlds[i].browser.table, worlds[i].links[w])
    requires w in worlds[i].work.commands && D.Row(worlds[i].browser.table, worlds[i].links[w]).frozen.worker == B.WORKER
    ensures w in worlds[n].links && worlds[n].links[w] == worlds[i].links[w]
    ensures worlds[i].work.commands[w].status == W.AwaitingResult ==>
              var x := worlds[n].browser;
              x.clicks[worlds[i].links[w]] == 1 && exists c :: B.Owns(x.table, c, worlds[i].links[w]) && B.Acknowledged(x.messages, c)
    ensures worlds[i].work.commands[w].status == W.Failed ==> worlds[n].browser.clicks[worlds[i].links[w]] == 0
  {
    hide Next, IsRun, B.Joint;
    RunKeepsJoined(worlds, events, i, i);
    RunKeepsJoined(worlds, events, i, n);
    var d := worlds[i].links[w];
    assert ToldOf(worlds[i].browser.table, worlds[i].work.commands[w], w, worlds[i].links);
    RowMoves(worlds[i].browser.table, worlds[n].browser.table, d);
    if worlds[i].work.commands[w].status == W.AwaitingResult {
      B.HonestRow(worlds[n].browser, d);
    } else if worlds[i].work.commands[w].status == W.Failed {
      NeverSentIsNeverClicked(worlds[n].browser, d);
    }
  }

  /** A workflow command says that it was sent, or failed, only once it is linked. */
  lemma SpeaksOnlyWhenLinked(worlds: seq<World>, events: seq<Event>, n: nat, w: Id)
    requires IsRun(worlds, events) && n < |worlds| && w in worlds[n].work.commands
    requires worlds[n].work.commands[w].status in {W.AwaitingResult, W.Failed}
    ensures w in worlds[n].links && D.Has(worlds[n].browser.table, worlds[n].links[w])
  {
    RunKeepsJoined(worlds, events, n, n);
    assert ToldOf(worlds[n].browser.table, worlds[n].work.commands[w], w, worlds[n].links);
  }

  // ---------------------------------------------------------------- it does get there

  lemma ChainNext(worlds: seq<World>, events: seq<Event>, e: Event, b: World)
    requires Chain(worlds, events) && Next(worlds[|events|], e, b)
    ensures Chain(worlds + [b], events + [e])
  {
    hide Next;
  }

  lemma {:induction false} ProtocolChain(es: seq<B.Event>) returns (worlds: seq<World>, events: seq<Event>)
    ensures IsRun(worlds, events) && worlds[|events|] == START.(browser := B.Run(B.START, es))
    ensures |events| == |es| && forall i :: 0 <= i < |es| ==> events[i] == Protocol(es[i])
    ensures forall i :: 0 <= i <= |es| ==> worlds[i] == START.(browser := B.Run(B.START, es[..i]))
    decreases |es|
  {
    if es == [] {
      worlds, events := [START], [];
    } else {
      var n := |es| - 1;
      worlds, events := ProtocolChain(es[..n]);
      assert es[..n + 1] == es && forall i :: 0 <= i <= n ==> es[..n][..i] == es[..i];
      B.RunAppend(B.START, es[..n], [es[n]]);
      assert es == es[..n] + [es[n]];
      var s := B.Run(B.START, es[..n]);
      assert [es[n]][1..] == [] && B.Run(s, [es[n]]) == B.Run(B.Step(s, es[n]), []);
      ChainNext(worlds, events, Protocol(es[n]), START.(browser := B.Step(s, es[n])));
      worlds, events := worlds + [START.(browser := B.Step(s, es[n]))], events + [Protocol(es[n])];
    }
  }

  /** Some run ends with a linked workflow command that waits for its result after one click. */
  lemma AwaitingIsReachable(input: W.Command) returns (worlds: seq<World>, events: seq<Event>)
    requires input.status == W.DeliveryPending
    ensures IsRun(worlds, events)
    ensures var x := worlds[|events|];
            && x.links == map[input.id := 1] && x.browser.clicks[1] == 1
            && x.work.commands == map[input.id := input.(status := W.AwaitingResult)]
  {
    hide B.Run, B.Step;
    var es := B.DeliveryIsReachable();
    worlds, events := ProtocolChain(es);
    var a := worlds[|events|];
    var b := a.(work := W.Store(map[input.id := input], map[]));
    assert W.Inserted(map[], input) == map[input.id := input];
    ChainNext(worlds, events, Worker(W.Create(input)), b);
    worlds, events := worlds + [b], events + [Worker(W.Create(input))];
    var c := b.(links := map[input.id := 1]);
    assert Linked(map[], input.id, 1) == c.links;
    ChainNext(worlds, events, LinkDelivery(input.id, 1), c);
    worlds, events := worlds + [c], events + [LinkDelivery(input.id, 1)];
    var d := c.(taken := {(1, D.Delivered)});
    ChainNext(worlds, events, ReadDelivery(1), d);
    worlds, events := worlds + [d], events + [ReadDelivery(1)];
    var e := d.(work := W.Store(map[input.id := input.(status := W.AwaitingResult)], map[]));
    assert W.AfterDelivery(input, W.Delivered) == input.(status := W.AwaitingResult);
    ChainNext(worlds, events, RecordOutcome(input.id, D.Delivered, false), e);
    worlds, events := worlds + [e], events + [RecordOutcome(input.id, D.Delivered, false)];
  }

  // ---------------------------------------------------------------- reconciliation

  /** A workflow command shows what its delivery says, unless it is already settled. */
  ghost predicate Agrees(t: D.Table, c: W.Command, d: Id)
    requires D.Has(t, d)
  {
    W.Terminal(c.status) || c.status == Recorded(D.Row(t, d).status)
  }

  /** The workflow command after the status of its delivery was recorded. */
  function AfterSync(t: D.Table, cs: W.Commands, links: Links, w: Id): W.Command
    requires w in cs
  {
    if w in links && D.Has(t, links[w]) then W.AfterDelivery(cs[w], Outcome(D.Row(t, links[w]).status)) else cs[w]
  }

  /**
   One reconciliation brings every linked command in line with its delivery: no guarded update is refused, because a
   command never runs ahead of its delivery.
   */
  lemma SyncAgrees(t: D.Table, cs: W.Commands, links: Links, w: Id)
    requires LinksOk(t, cs, links) && Told(t, cs, links) && w in links
    ensures Agrees(t, AfterSync(t, cs, links, w), links[w])
    ensures var c, to := cs[w], Recorded(D.Row(t, links[w]).status);
            W.Terminal(c.status) || c.status == to || W.AllowedTransition(c.status, to)
  {
    assert ToldOf(t, cs[w], w, links);
  }

  // ---------------------------------------------------------------- the coordinator

  /** What may go wrong in one confirmation, besides what the tables say. */
  datatype Weather = Weather(linkFails: bool, linkLands: bool, recordFails: bool, invalidateFails: bool, now: nat)

  /** The stored command is the one asked for; only its identifier and status may differ. */
  predicate SameWork(c: W.Command, input: W.Command) {
    c == input.(id := c.id, status := c.status)
  }

  class DeliveryCoordinator {
    const service: D.DeliveryService
    const loop: W.WorkerLoop
    var links: Links

    ghost predicate Valid()
      reads this, service, loop
    {
      && D.Inv(service.State()) && W.KeyedById(loop.commands)
      && LinksOk(service.State(), loop.commands, links) && Told(service.State(), loop.commands, links)
    }

    constructor (service: D.DeliveryService, loop: W.WorkerLoop)
      requires D.Inv(service.State()) && loop.commands == map[]
      ensures Valid() && this.service == service && this.loop == loop && links == map[]
    {
      this.service, this.loop, links := service, loop, map[];
    }

    /** A guarded update of the delivery table, whose own failure is ignored. */
    method InvalidatePendingDelivery(id: Id, reason: string, weather: Weather)
      requires Valid()
      modifies service`rows
      ensures Valid() && D.Evolves(old(service.State()), service.State())
      ensures !weather.invalidateFails && D.Has(service.State(), id) ==> D.Row(service.State(), id).status != D.Pending
      ensures service.State() == if weather.invalidateFails then old(service.State())
                                 else D.InvalidateTx(old(service.State()), id, weather.now, reason)
    {
      ghost var was := service.State();
      if weather.invalidateFails {
        D.EvolvesSelf(was);
        return;
      }
      if D.Has(was, id) { D.RowIsOk(was, id); }
      D.ApplySafe(was, D.Invalidate(id, weather.now, reason));
      TableKeepsTold(was, D.InvalidateTx(was, id, weather.now, reason), loop.commands, links);
      if 1 <= id <= |service.rows| && service.rows[id - 1].id == id && service.rows[id - 1].status == D.Pending {
        service.rows := service.rows[id - 1 := service.rows[id - 1].(status := D.Invalidated, terminalAt := Some(weather.now), reason := reason)];
      }
      assert service.State() == D.InvalidateTx(was, id, weather.now, reason);
    }

    /** Inserts the link unless either side has one, and succeeds when the command is linked to this delivery. */
    method Link(w: Id, d: Id) returns (ok: bool)
      requires Valid() && w in loop.commands && D.Has(service.State(), d)
      modifies this`links
      ensures Valid() && links == Linked(old(links), w, d)
      ensures ok <==> w in links && links[w] == d
      ensures !ok <==> (w in old(links) && old(links)[w] != d) || (w !in old(links) && d in old(links).Values)
    {
      LinkKeepsTold(service.State(), loop.commands, links, w, d);
      if w !in links && d !in links.Values { links := links[w := d]; }
      return w in links && links[w] == d;
    }

    /** Records a delivery status read before, on the workflow command linked to that delivery. */
    method Record(w: Id, s: D.Status) returns (r: Option<W.Refusal>)
      requires Valid() && w in links && ReadOk(service.State(), links[w], s)
      modifies loop`commands
      ensures Valid() && loop.commands == old(loop.commands)[w := W.AfterDelivery(old(loop.commands)[w], Outcome(s))]
      ensures r.None? ==> W.Terminal(old(loop.commands)[w].status) || loop.commands[w].status == Recorded(s)
      ensures r.None? <==>
                var was := old(loop.commands)[w].status;
                W.Terminal(was) || was == Recorded(s) || W.AllowedTransition(was, Recorded(s))
    {
      ghost var was := loop.commands;
      r := loop.RecordDeliveryOutcome(w, Outcome(s));
      RecordKeepsTold(service.State(), was, links, w, s, loop.commands[w]);
    }

    /** What the base service answers to a confirmation. */
    ghost function Base(project: nat, issue: nat, input: D.Confirmation, v: D.View): (D.Table, D.Result<D.Command>)
      reads service
    {
      if !service.enabled then (service.State(), D.Err(D.ErrUnavailable))
      else if project == 0 || issue == 0 || input.planId == BLANK || input.key == BLANK then (service.State(), D.Err(D.ErrInvalid))
      else D.CreateTx(service.State(), project, issue, input, v, service.pendingTTL)
    }

    /**
     Confirms a prepared workflow command: the delivery is created first, then the command, then the link. `prepared` is
     absent when the plan cannot be read or rendered.
     */
    method CreateDelivery(project: nat, issue: nat, input: D.Confirmation, v: D.View, prepared: Option<W.Command>, weather: Weather)
      returns (r: D.Result<D.Command>)
      requires Valid() && (prepared.Some? ==> prepared.value.status == W.DeliveryPending)
      modifies this`links, service, loop`commands
      ensures Valid() && D.Evolves(old(service.State()), service.State())
      ensures forall w :: w in old(links) ==> w in links && links[w] == old(links)[w]
      ensures var (t, base) := old(Base(project, issue, input, v));
              && (base.Err? ==> r == base && links == old(links) && loop.commands == old(loop.commands))
              && (r.Ok? ==> r == base && prepared.Some? && service.State() == t
                            && exists w :: w in links && links[w] == r.value.id && SameWork(loop.commands[w], prepared.value)
                                           && (W.Terminal(loop.commands[w].status) || loop.commands[w].status == Recorded(r.value.status)))
              && (r.Err? && base.Ok? ==>
                    && D.Has(t, base.value.id) && D.Has(service.State(), base.value.id)
                    && (if weather.invalidateFails then service.State() == t
                        else exists reason :: service.State() == D.InvalidateTx(t, base.value.id, weather.now, reason))
                    && (D.Row(service.State(), base.value.id).status == D.Pending
                        <==> D.Row(t, base.value.id).status == D.Pending && weather.invalidateFails))
              && (base.Ok? && prepared.Some? && W.Fresh(old(loop.commands), prepared.value) && base.value.id !in old(links).Values ==>
                    (r.Ok? <==> !weather.linkFails && !weather.recordFails))
    {
      hide D.Inv, D.Evolves, D.CreateTx, Told, LinksOk, W.Next;
      ghost var was := service.State();
      var created := service.CreateCommand(project, issue, input, v);
      ghost var t := service.State();
      TableKeepsTold(was, t, loop.commands, links);
      if created.Err? { return created; }
      CreatedRow(was, project, issue, input, v, service.pendingTTL);
      var failure := LinkCreated(created.value, prepared, weather);
      if failure.Some? {
        InvalidatePendingDelivery(created.value.id, failure.value, weather);
        D.EvolvesTransitive(was, t, service.State());
        return D.Err(D.ErrConflict);
      }
      return created;
    }

    /** What follows a created delivery; the answer is the reason to withdraw it. */
    method LinkCreated(c: D.Command, prepared: Option<W.Command>, weather: Weather) returns (failure: Option<string>)
      requires Valid() && (prepared.Some? ==> prepared.value.status == W.DeliveryPending)
      requires D.Has(service.State(), c.id) && D.Row(service.State(), c.id) == c
      modifies this`links, loop`commands
      ensures Valid()
      ensures forall w :: w in old(links) ==> w in links && links[w] == old(links)[w]
      ensures failure.None? ==>
                prepared.Some?
                && exists w :: w in links && links[w] == c.id && SameWork(loop.commands[w], prepared.value)
                               && (W.Terminal(loop.commands[w].status) || loop.commands[w].status == Recorded(c.status))
      ensures failure.None? ==> !weather.linkFails && !weather.recordFails
      ensures prepared.Some? && W.Fresh(old(loop.commands), prepared.value) && c.id !in old(links).Values ==>
                var input := prepared.value;
                && (failure.None? <==> !weather.linkFails && !weather.recordFails)
                && links == (if weather.linkFails && !weather.linkLands then old(links) else old(links)[input.id := c.id])
                && loop.commands == old(loop.commands)[input.id := if failure.None? then input.(status := Recorded(c.status)) else input]
    {
      hide D.Inv, Told, LinksOk, W.Next, W.Fresh;
      if prepared.Some? && W.Fresh(loop.commands, prepared.value) { FreshUnlinked(service.State(), loop.commands, links, prepared.value); }
      if prepared.None? { return Some("workflow_plan_unavailable"); }
      var stored := PersistWorkflowCommand(prepared.value);
      if stored.None? { return Some("workflow_command_unavailable"); }
      var w := stored.value.id;
      if weather.linkFails {
        if weather.linkLands { var _ := Link(w, c.id); }
        return Some("workflow_command_already_linked");
      }
      var linked := Link(w, c.id);
      if !linked { return Some("workflow_command_already_linked"); }
      if weather.recordFails { return Some("workflow_status_failed"); }
      var refused := Record(w, c.status);
      return if refused.Some? then Some("workflow_status_failed") else None;
    }

    method PersistWorkflowCommand(input: W.Command) returns (r: Option<W.Command>)
      requires Valid() && input.status == W.DeliveryPending
      modifies loop`commands
      ensures Valid() && old(loop.commands).Keys <= loop.commands.Keys
      ensures r.Some? ==> r.value.id in loop.commands && loop.commands[r.value.id] == r.value && SameWork(r.value, input)
      ensures W.Fresh(old(loop.commands), input) ==> r == Some(input) && loop.commands == old(loop.commands)[input.id := input]
    {
      ghost var was := loop.State();
      r := loop.CreateCommand(input);
      if W.Storable(input) {
        GitHubSpeaksNotOfTransport(was, W.Create(input), loop.State());
        SpokenKeepsTold(service.State(), was.commands, loop.commands, links);
      }
    }

    /** Reports a completion, and records the outcome on the workflow command of that delivery. */
    method CompleteDelivery(k: D.Completion, now: nat) returns (r: D.Result<D.Command>)
      requires Valid()
      modifies service, loop`commands
      ensures Valid() && service.State() == D.CompleteTx(old(service.State()), k, now).0
      ensures r.Ok? <==> D.CompleteTx(old(service.State()), k, now).1.Ok?
      ensures forall w :: w in old(loop.commands) ==>
              w in loop.commands && (w !in links || links[w] != k.command ==> loop.commands[w] == old(loop.commands)[w])
      ensures r.Ok? ==> forall w :: w in links && links[w] == k.command ==>
              D.Has(service.State(), k.command) && Agrees(service.State(), loop.commands[w], k.command)
    {
      hide D.Inv, D.Evolves, D.CompleteTx, Told, LinksOk;
      ghost var was := service.State();
      r := service.CompleteClaim(k, now);
      TableKeepsTold(was, service.State(), loop.commands, links);
      if r.Ok? {
        CompletedRow(was, k, now);
        var refused := SyncCommand(r.value);
        if refused.Some? { return D.Err(D.ErrOther); }
      }
    }

    /** Records the status of a delivery on the workflow command linked to it, if there is one. */
    method SyncCommand(c: D.Command) returns (r: Option<W.Refusal>)
      requires Valid() && D.Has(service.State(), c.id) && D.Row(service.State(), c.id) == c
      modifies loop`commands
      ensures Valid() && r.None?
      ensures forall w :: w in old(loop.commands) ==>
              w in loop.commands && (w !in links || links[w] != c.id ==> loop.commands[w] == old(loop.commands)[w])
      ensures forall w :: w in links && links[w] == c.id ==> w in loop.commands && Agrees(service.State(), loop.commands[w], c.id)
    {
      r := None;
      if exists w :: w in links && links[w] == c.id {
        var w :| w in links && links[w] == c.id;
        SyncAgrees(service.State(), loop.commands, links, w);
        r := Record(w, c.status);
      }
    }

    /** Settles overdue deliveries, then records the status of every linked delivery. */
    method ReconcileLinks(now: nat)
      requires Valid()
      modifies service, loop`commands
      ensures Valid() && service.State() == D.ReconcileTx(old(service.State()), now)
      ensures loop.commands.Keys == old(loop.commands).Keys
      ensures forall w :: w in loop.commands ==> loop.commands[w] == AfterSync(service.State(), old(loop.commands), links, w)
      ensures forall w :: w in links ==>
              w in loop.commands && D.Has(service.State(), links[w]) && Agrees(service.State(), loop.commands[w], links[w])
    {
      hide D.Inv, D.Evolves, D.ReconcileTx, Told, LinksOk, W.AfterDelivery;
      ghost var was := service.State();
      ghost var cs := loop.commands;
      service.ReconcileDeadlines(now);
      ghost var t := service.State();
      TableKeepsTold(was, t, cs, links);
      var left := links.Keys;
      while left != {}
        invariant left <= links.Keys && service.State() == t && Valid() && loop.commands.Keys == cs.Keys
        invariant forall w :: w in cs ==> loop.commands[w] == if w in left then cs[w] else AfterSync(t, cs, links, w)
      {
        var w :| w in left;
        LinkStands(t, cs, links, w);
        var _ := Record(w, service.rows[links[w] - 1].status);
        left := left - {w};
      }
      forall w | w in links
        ensures D.Has(t, links[w]) && w in loop.commands && Agrees(t, loop.commands[w], links[w])
      {
        LinkStands(t, cs, links, w);
        SyncAgrees(t, cs, links, w);
      }
    }
  }

  lemma FreshUnlinked(t: D.Table, cs: W.Commands, links: Links, input: W.Command)
    requires LinksOk(t, cs, links) && W.Fresh(cs, input)
    ensures input.id !in links && input.id !in cs
  {
  }

  lemma LinkStands(t: D.Table, cs: W.Commands, links: Links, w: Id)
    requires LinksOk(t, cs, links) && w in links
    ensures w in cs && D.Has(t, links[w]) && ReadOk(t, links[w], D.Row(t, links[w]).status)
  {
  }

  lemma CreatedRow(t: D.Table, project: nat, issue: nat, input: D.Confirmation, v: D.View, ttl: nat)
    requires D.Inv(t) && D.CreateTx(t, project, issue, input, v, ttl).1.Ok?
    ensures var (u, r) := D.CreateTx(t, project, issue, input, v, ttl); D.Has(u, r.value.id) && D.Row(u, r.value.id) == r.value
  {
  }

  lemma CompletedRow(t: D.Table, k: D.Completion, now: nat)
    requires D.Inv(t) && D.CompleteTx(t, k, now).1.Ok?
    ensures var (u, r) := D.CompleteTx(t, k, now); r.value.id == k.command && D.Has(u, k.command) && D.Row(u, k.command) == r.value
  {
  }
}

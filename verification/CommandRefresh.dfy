/**
 The refresh that selects the current command of every issue (backend/internal/workerloop/sync_observer.go).

 The overlay it leaves is what later overrides the derived route.
 */
module CommandRefresh {
  import opened Prelude
  import W = WorkerResults
  import R = WorkflowRoute

  datatype Pull = Pull(open: bool, head: string)

  /** A synced issue, and its commands in the order of creation. */
  datatype IssueRef = IssueRef(number: nat, pulls: seq<Pull>, ids: seq<Id>)

  predicate Active(s: W.Status) {
    s == W.Created || s == W.DeliveryPending || s == W.AwaitingResult
  }

  predicate Exceptional(s: W.Status) {
    s == W.Ambiguous || s == W.Failed
  }

  /** The head of the only open pull request. */
  ghost predicate OnlyHead(pulls: seq<Pull>, head: string) {
    || (head == "" && !exists i :: 0 <= i < |pulls| && pulls[i].open && OnlyOpen(pulls, i))
    || (exists i :: 0 <= i < |pulls| && pulls[i].open && OnlyOpen(pulls, i) && pulls[i].head == head)
  }

  ghost predicate OnlyOpen(pulls: seq<Pull>, i: nat)
    requires i < |pulls|
  {
    forall j :: 0 <= j < |pulls| && j != i ==> !pulls[j].open
  }

  method SingleCurrentHead(pulls: seq<Pull>) returns (head: string)
    ensures OnlyHead(pulls, head)
  {
    head := "";
    var count := 0;
    ghost var last, first := 0, 0;
    var i := 0;
    while i < |pulls|
      invariant 0 <= i <= |pulls| && count >= 0
      invariant count == 0 ==> forall j :: 0 <= j < i ==> !pulls[j].open
      invariant count > 0 ==> 0 <= first <= last < i && pulls[last].open && pulls[first].open && head == pulls[last].head
      invariant count == 1 ==> forall j :: 0 <= j < i && j != last ==> !pulls[j].open
      invariant count > 1 ==> first < last
    {
      if pulls[i].open {
        if count == 0 { first := i; }
        last := i;
        count := count + 1;
        head := pulls[i].head;
      }
      i := i + 1;
    }
    if count != 1 {
      if count > 1 {
        assert forall j :: 0 <= j < |pulls| && pulls[j].open ==> !OnlyOpen(pulls, j) by {
          assert pulls[first].open && pulls[last].open;
        }
      }
      return "";
    }
    assert OnlyOpen(pulls, last);
  }

  // ---------------------------------------------------------------- one issue

  predicate BoundElsewhere(c: W.Command, head: string) {
    c.expectedHead != "" && c.expectedHead != head
  }

  /** An active command bound to another head is superseded. */
  function Kept(c: W.Command, head: string): W.Command {
    if Active(c.status) && BoundElsewhere(c, head) then c.(status := W.Superseded) else c
  }

  /** The commands still active, in order. */
  function ActiveOf(cs: W.Commands, ids: seq<Id>, head: string): seq<Id>
    requires forall id :: id in ids ==> id in cs
  {
    if ids == [] then []
    else
      var n := |ids| - 1;
      ActiveOf(cs, ids[..n], head) + (if Active(Kept(cs[ids[n]], head).status) then [ids[n]] else [])
  }

  lemma {:induction false} ActiveOfExactly(cs: W.Commands, ids: seq<Id>, head: string, x: Id)
    requires forall id :: id in ids ==> id in cs
    ensures x in ActiveOf(cs, ids, head) <==> x in ids && Active(Kept(cs[x], head).status)
    decreases |ids|
  {
    if ids != [] {
      ActiveOfExactly(cs, ids[..|ids| - 1], head, x);
      assert ids == ids[..|ids| - 1] + [ids[|ids| - 1]];
    }
  }

  ghost predicate Distinct(ids: seq<Id>) {
    forall i, j :: 0 <= i < j < |ids| ==> ids[i] != ids[j]
  }

  lemma {:induction false} ActiveOfDistinct(cs: W.Commands, ids: seq<Id>, head: string)
    requires Distinct(ids) && forall id :: id in ids ==> id in cs
    ensures Distinct(ActiveOf(cs, ids, head))
    decreases |ids|
  {
    if ids != [] {
      var n := |ids| - 1;
      ActiveOfDistinct(cs, ids[..n], head);
      if ids[n] in ActiveOf(cs, ids[..n], head) { ActiveOfExactly(cs, ids[..n], head, ids[n]); }
    }
  }

  /** What a refresh leaves of one command of the issue: superseded by head, or ambiguous when several were active. */
  function Refreshed(cs: W.Commands, ids: seq<Id>, head: string, id: Id): W.Command
    requires id in ids && forall x :: x in ids ==> x in cs
  {
    if |ActiveOf(cs, ids, head)| > 1 && id in ActiveOf(cs, ids, head) then cs[id].(status := W.Ambiguous) else Kept(cs[id], head)
  }

  ghost predicate Selected(cs: W.Commands, ids: seq<Id>, selected: Option<W.Command>)
    requires forall id :: id in ids ==> id in cs
  {
    match selected
    case None => forall id :: id in ids ==> !Active(cs[id].status) && !Exceptional(cs[id].status)
    case Some(c) =>
      && (exists id :: id in ids && cs[id] == c)
      && (Active(c.status) || Exceptional(c.status))
      && (!Active(c.status) ==> forall id :: id in ids ==> !Active(cs[id].status))
  }

  /** The last exceptional command of the list. */
  ghost predicate LastExceptional(cs: W.Commands, ids: seq<Id>, x: Id)
    requires forall id :: id in ids ==> id in cs
  {
    exists i :: 0 <= i < |ids| && ids[i] == x && Exceptional(cs[x].status) && forall j :: i < j < |ids| ==>
      !Exceptional(cs[ids[j]].status)
  }

  /** At most one command of the issue is active, and it is bound to no head or to the current one. */
  ghost predicate Tidy(cs: W.Commands, ids: seq<Id>, head: string)
    requires forall id :: id in ids ==> id in cs
  {
    && (forall x, y :: x in ids && y in ids && Active(cs[x].status) && Active(cs[y].status) ==> x == y)
    && (forall x :: x in ids && Active(cs[x].status) ==> cs[x].expectedHead == "" || cs[x].expectedHead == head)
  }

  /** The refreshed commands of an issue are tidy. */
  lemma RefreshedTidy(was: W.Commands, now: W.Commands, ids: seq<Id>, head: string)
    requires Distinct(ids) && now.Keys == was.Keys && forall id :: id in ids ==> id in was
    requires forall id :: id in ids ==> now[id] == Refreshed(was, ids, head, id)
    ensures Tidy(now, ids, head)
    ensures forall x :: x in ids && Active(now[x].status) ==> ActiveOf(was, ids, head) == [x]
  {
    var active := ActiveOf(was, ids, head);
    forall x | x in ids
      ensures x in active <==> Active(Kept(was[x], head).status)
    {
      ActiveOfExactly(was, ids, head, x);
    }
    forall x | x in ids && Active(now[x].status)
      ensures active == [x]
    {
      assert x in active && |active| <= 1;
    }
  }

  /** What the first pass has remembered after i commands: the last of them that is exceptional once stale ones are superseded. */
  ghost predicate Seen(was: W.Commands, ids: seq<Id>, head: string, i: nat, x: Option<Id>)
    requires i <= |ids| && forall id :: id in ids ==> id in was
  {
    match x
    case None => forall j :: 0 <= j < i ==> !Exceptional(Kept(was[ids[j]], head).status)
    case Some(id) => exists at :: 0 <= at < i && ids[at] == id && Exceptional(Kept(was[id], head).status)
                                  && forall j :: at < j < i ==> !Exceptional(Kept(was[ids[j]], head).status)
  }

  lemma SeenNext(was: W.Commands, ids: seq<Id>, head: string, i: nat, x: Option<Id>)
    requires i < |ids| && (forall id :: id in ids ==> id in was) && Seen(was, ids, head, i, x)
    ensures Seen(was, ids, head, i + 1, if Exceptional(Kept(was[ids[i]], head).status) then Some(ids[i]) else x)
  {
  }

  lemma SeenAll(was: W.Commands, now: W.Commands, ids: seq<Id>, head: string, x: Option<Id>)
    requires (forall id :: id in ids ==> id in was && id in now && now[id] == Kept(was[id], head))
            && Seen(was, ids, head, |ids|, x)
    ensures match x
            case None => forall id :: id in ids ==> !Exceptional(now[id].status)
            case Some(id) => id in ids && LastExceptional(now, ids, id)
  {
    hide Kept, Exceptional;
    if x.Some? {
      var at :| 0 <= at < |ids| && ids[at] == x.value && Exceptional(Kept(was[x.value], head).status)
                && forall j :: at < j < |ids| ==> !Exceptional(Kept(was[ids[j]], head).status);
      assert forall j :: at < j < |ids| ==> ids[j] in ids;
    }
  }

  lemma ActiveOfNext(cs: W.Commands, ids: seq<Id>, i: nat, head: string)
    requires i < |ids| && forall id :: id in ids ==> id in cs
    ensures ActiveOf(cs, ids[..i + 1], head)
            == ActiveOf(cs, ids[..i], head) + (if Active(Kept(cs[ids[i]], head).status) then [ids[i]] else [])
  {
    assert ids[..i + 1][..i] == ids[..i];
  }

  method SupersedeOne(store: W.WorkerLoop, id: Id, head: string)
    requires id in store.commands
    modifies store`commands
    ensures store.commands == old(store.commands)[id := Kept(old(store.commands)[id], head)]
  {
    var c := store.commands[id];
    if Active(c.status) && BoundElsewhere(c, head) {
      var _ := store.SetCommandStatus(id, W.Superseded);
    }
    assert store.commands[id] == Kept(c, head);
  }

  /** The first pass: supersede what is bound to another head, and remember what is active or exceptional. */
  method SupersedeStale(store: W.WorkerLoop, ids: seq<Id>, head: string) returns (active: seq<Id>, exceptional: Option<Id>)
    requires Distinct(ids) && forall id :: id in ids ==> id in store.commands
    modifies store`commands
    ensures store.commands.Keys == old(store.commands).Keys && active == ActiveOf(old(store.commands), ids, head)
    ensures forall id :: id in store.commands ==>
              store.commands[id] == if id in ids then Kept(old(store.commands)[id], head) else old(store.commands)[id]
    ensures match exceptional
            case None => forall id :: id in ids ==> !Exceptional(store.commands[id].status)
            case Some(x) => x in ids && LastExceptional(store.commands, ids, x)
  {
    ghost var was := store.commands;
    active, exceptional := [], None;
    assert ActiveOf(was, ids[..0], head) == [] && Seen(was, ids, head, 0, exceptional);
    hide Kept, Active, Exceptional, LastExceptional, ActiveOf, Seen;
    var i := 0;
    while i < |ids|
      invariant 0 <= i <= |ids| && store.commands.Keys == was.Keys
      invariant forall id :: id in was ==> store.commands[id] == if id in ids[..i] then Kept(was[id], head) else was[id]
      invariant active == ActiveOf(was, ids[..i], head)
      invariant Seen(was, ids, head, i, exceptional)
    {
      var id := ids[i];
      assert ids[..i + 1] == ids[..i] + [id] && id !in ids[..i];
      ActiveOfNext(was, ids, i, head);
      SeenNext(was, ids, head, i, exceptional);
      SupersedeOne(store, id, head);
      if Active(store.commands[id].status) { active := active + [id]; }
      if Exceptional(store.commands[id].status) { exceptional := Some(id); }
      i := i + 1;
    }
    assert ids[..i] == ids;
    SeenAll(was, store.commands, ids, head, exceptional);
  }

  /** The second pass: several active commands make each other ambiguous. */
  method MarkAmbiguous(store: W.WorkerLoop, active: seq<Id>)
    requires Distinct(active) && forall id :: id in active ==> id in store.commands && Active(store.commands[id].status)
    modifies store`commands
    ensures store.commands.Keys == old(store.commands).Keys
    ensures forall id :: id in store.commands ==>
              store.commands[id] == if id in active then old(store.commands)[id].(status := W.Ambiguous) else old(store.commands)[id]
  {
    ghost var was := store.commands;
    var j := 0;
    while j < |active|
      invariant 0 <= j <= |active| && store.commands.Keys == was.Keys
      invariant forall id :: id in was ==>
              store.commands[id] == if id in active[..j] then was[id].(status := W.Ambiguous) else was[id]
    {
      assert active[..j + 1] == active[..j] + [active[j]];
      assert active[j] in active && active[j] !in active[..j];
      var _ := store.SetCommandStatus(active[j], W.Ambiguous);
      j := j + 1;
    }
    assert active[..j] == active;
  }

  /** Several active commands: the last of them is selected, ambiguous like the others. */
  lemma SelectedAmong(was: W.Commands, now: W.Commands, ids: seq<Id>, head: string)
    requires Distinct(ids) && now.Keys == was.Keys && forall id :: id in ids ==> id in was
    requires forall id :: id in ids ==> now[id] == Refreshed(was, ids, head, id)
    requires |ActiveOf(was, ids, head)| > 1
    ensures var active := ActiveOf(was, ids, head);
            active[|active| - 1] in ids && Selected(now, ids, Some(now[active[|active| - 1]]))
  {
    RefreshedTidy(was, now, ids, head);
    var active := ActiveOf(was, ids, head);
    ActiveOfExactly(was, ids, head, active[|active| - 1]);
  }

  /** One active command is selected. */
  lemma SelectedOnly(was: W.Commands, now: W.Commands, ids: seq<Id>, head: string)
    requires Distinct(ids) && now.Keys == was.Keys && forall id :: id in ids ==> id in was
    requires forall id :: id in ids ==> now[id] == Refreshed(was, ids, head, id)
    requires |ActiveOf(was, ids, head)| == 1
    ensures var x := ActiveOf(was, ids, head)[0]; x in ids && Selected(now, ids, Some(now[x]))
  {
    ActiveOfExactly(was, ids, head, ActiveOf(was, ids, head)[0]);
  }

  /** Otherwise the latest exceptional one, if there is any. */
  lemma SelectedElse(was: W.Commands, now: W.Commands, ids: seq<Id>, head: string, exceptional: Option<Id>)
    requires Distinct(ids) && now.Keys == was.Keys && forall id :: id in ids ==> id in was
    requires forall id :: id in ids ==> now[id] == Refreshed(was, ids, head, id)
    requires ActiveOf(was, ids, head) == []
    requires match exceptional
             case None => forall id :: id in ids ==> !Exceptional(now[id].status)
             case Some(x) => x in ids && LastExceptional(now, ids, x)
    ensures Selected(now, ids, if exceptional.Some? then Some(now[exceptional.value]) else None)
  {
    RefreshedTidy(was, now, ids, head);
  }

  // ---------------------------------------------------------------- what a refresh amounts to

  /** A command still open that is bound to no head or to the current one. */
  predicate Current(c: W.Command, head: string) {
    c.status in {W.Created, W.DeliveryPending, W.AwaitingResult} && (c.expectedHead == "" || c.expectedHead == head)
  }

  predicate Troubled(c: W.Command) {
    c.status in {W.Ambiguous, W.Failed}
  }

  /** Another command of the issue is current, too. */
  ghost predicate Contested(cs: W.Commands, ids: seq<Id>, head: string, x: Id)
    requires forall id :: id in ids ==> id in cs
  {
    exists y :: y in ids && y != x && Current(cs[y], head)
  }

  /** The only current command stays as it is, several are ambiguous, an open one that is not current is superseded. */
  ghost predicate Judged(was: W.Commands, now: W.Commands, ids: seq<Id>, head: string, x: Id)
    requires x in ids && forall id :: id in ids ==> id in was && id in now
  {
    var c := was[x];
    now[x] == c.(status := if c.status !in {W.Created, W.DeliveryPending, W.AwaitingResult} then c.status
                           else if !Current(c, head) then W.Superseded
                           else if Contested(was, ids, head, x) then W.Ambiguous
                           else c.status)
  }

  /** The command chosen for an issue: its last current one, and without one the last that is ambiguous or failed. */
  ghost predicate Chosen(was: W.Commands, now: W.Commands, ids: seq<Id>, head: string, selected: Option<W.Command>)
    requires forall id :: id in ids ==> id in was && id in now
  {
    match selected
    case None => forall id :: id in ids ==> !Current(was[id], head) && !Troubled(was[id])
    case Some(c) =>
      exists i :: 0 <= i < |ids| && c == now[ids[i]]
                  && (if exists id :: id in ids && Current(was[id], head)
                      then Current(was[ids[i]], head) && forall j :: i < j < |ids| ==> !Current(was[ids[j]], head)
                      else Troubled(was[ids[i]]) && forall j :: i < j < |ids| ==> !Troubled(was[ids[j]]))
  }

  lemma CurrentIff(c: W.Command, head: string)
    ensures Active(Kept(c, head).status) <==> Current(c, head)
    ensures Exceptional(Kept(c, head).status) <==> Troubled(c)
  {
  }

  lemma RefreshedIsJudged(was: W.Commands, now: W.Commands, ids: seq<Id>, head: string, x: Id)
    requires Distinct(ids) && x in ids && forall id :: id in ids ==> id in was && id in now
    requires now[x] == Refreshed(was, ids, head, x)
    ensures Judged(was, now, ids, head, x)
  {
    var active := ActiveOf(was, ids, head);
    ActiveOfDistinct(was, ids, head);
    forall y
      ensures y in active <==> y in ids && Current(was[y], head)
    {
      ActiveOfExactly(was, ids, head, y);
      if y in ids { CurrentIff(was[y], head); }
    }
    hide ActiveOf, Distinct;
    if Current(was[x], head) {
      if Contested(was, ids, head, x) {
        var y :| y in ids && y != x && Current(was[y], head);
        assert x in active && y in active;
      } else if |active| > 1 {
        assert active[0] in active && active[1] in active && active[0] != active[1] by { TwoDiffer(active); }
      }
    }
  }

  lemma TwoDiffer(ids: seq<Id>)
    requires Distinct(ids) && |ids| > 1
    ensures ids[0] != ids[1]
  {
  }

  lemma {:induction false} LastActive(cs: W.Commands, ids: seq<Id>, head: string) returns (i: nat)
    requires (forall id :: id in ids ==> id in cs) && ActiveOf(cs, ids, head) != []
    ensures var active := ActiveOf(cs, ids, head);
            i < |ids| && ids[i] == active[|active| - 1] && Current(cs[ids[i]], head)
    ensures forall j :: i < j < |ids| ==> !Current(cs[ids[j]], head)
    decreases |ids|
  {
    var n := |ids| - 1;
    CurrentIff(cs[ids[n]], head);
    if Current(cs[ids[n]], head) { i := n; } else { i := LastActive(cs, ids[..n], head); }
  }

  /** The selection of a refresh is the choice above. */
  lemma SelectionIsChosen(was: W.Commands, now: W.Commands, ids: seq<Id>, head: string, selected: Option<W.Command>)
    requires Distinct(ids) && (forall id :: id in ids ==> id in was && id in now)
    requires forall id :: id in ids ==> now[id] == Refreshed(was, ids, head, id)
    requires var active := ActiveOf(was, ids, head);
             if active != [] then selected.Some? && active[|active| - 1] in ids && selected.value == now[active[|active| - 1]]
             else if selected.Some? then exists x :: x in ids && LastExceptional(now, ids, x) && selected.value == now[x]
             else forall id :: id in ids ==> !Exceptional(now[id].status)
    ensures Chosen(was, now, ids, head, selected)
  {
    forall y
      ensures y in ActiveOf(was, ids, head) <==> y in ids && Current(was[y], head)
      ensures y in ids ==> (Exceptional(Kept(was[y], head).status) <==> Troubled(was[y]))
    {
      ActiveOfExactly(was, ids, head, y);
      if y in ids { CurrentIff(was[y], head); }
    }
    if ActiveOf(was, ids, head) != [] {
      var i := LastActive(was, ids, head);
      assert ids[i] in ids;
    } else {
      hide Kept, Exceptional, Troubled, Current, ActiveOf;
      if selected.Some? {
        var x :| x in ids && LastExceptional(now, ids, x) && selected.value == now[x];
        LastTroubled(was, now, ids, head, x);
      }
    }
  }

  lemma LastTroubled(was: W.Commands, now: W.Commands, ids: seq<Id>, head: string, x: Id)
    requires (forall id :: id in ids ==> id in was && id in now) && LastExceptional(now, ids, x)
    requires forall id :: id in ids ==> now[id] == Kept(was[id], head)
    ensures exists i :: 0 <= i < |ids| && ids[i] == x && Troubled(was[ids[i]]) && forall j :: i < j < |ids| ==>
            !Troubled(was[ids[j]])
  {
    forall y | y in ids
      ensures Exceptional(now[y].status) <==> Troubled(was[y])
    {
      CurrentIff(was[y], head);
    }
    hide Kept, Exceptional, Troubled;
    var i :| 0 <= i < |ids| && ids[i] == x && Exceptional(now[x].status) && forall j :: i < j < |ids| ==>
      !Exceptional(now[ids[j]].status);
    assert forall j :: i <= j < |ids| ==> ids[j] in ids;
  }

  lemma Concludes(was: W.Commands, now: W.Commands, ids: seq<Id>, head: string, selected: Option<W.Command>)
    requires Distinct(ids) && (forall id :: id in ids ==> id in was && id in now)
    requires forall id :: id in ids ==> now[id] == Refreshed(was, ids, head, id)
    requires var active := ActiveOf(was, ids, head);
             if active != [] then selected.Some? && active[|active| - 1] in ids && selected.value == now[active[|active| - 1]]
             else if selected.Some? then exists x :: x in ids && LastExceptional(now, ids, x) && selected.value == now[x]
             else forall id :: id in ids ==> !Exceptional(now[id].status)
    ensures forall x :: x in ids ==> Judged(was, now, ids, head, x)
    ensures Chosen(was, now, ids, head, selected)
  {
    hide Judged, Chosen, ActiveOf, Refreshed, LastExceptional, Exceptional;
    forall x | x in ids
      ensures Judged(was, now, ids, head, x)
    {
      RefreshedIsJudged(was, now, ids, head, x);
    }
    SelectionIsChosen(was, now, ids, head, selected);
  }

  method CurrentCommand(store: W.WorkerLoop, pulls: seq<Pull>, ids: seq<Id>) returns (selected: Option<W.Command>, ghost head: string)
    requires Distinct(ids) && forall id :: id in ids ==> id in store.commands
    modifies store`commands
    ensures store.commands.Keys == old(store.commands).Keys && OnlyHead(pulls, head)
    ensures forall id :: id in store.commands ==>
              store.commands[id] == if id in ids then Refreshed(old(store.commands), ids, head, id) else old(store.commands)[id]
    ensures Tidy(store.commands, ids, head) && Selected(store.commands, ids, selected)
    ensures var active := ActiveOf(old(store.commands), ids, head);
            if active != [] then selected.Some? && active[|active| - 1] in ids
              && selected.value == store.commands[active[|active| - 1]]
            else selected.Some? ==> exists x :: x in ids && LastExceptional(store.commands, ids, x) && selected.value == store.commands[x]
    ensures forall x :: x in ids ==> Judged(old(store.commands), store.commands, ids, head, x)
    ensures Chosen(old(store.commands), store.commands, ids, head, selected)
  {
    hide Tidy, OnlyHead, BoundElsewhere, Selected, ActiveOf, LastExceptional, Judged, Chosen;
    ghost var was := store.commands;
    var current := SingleCurrentHead(pulls);
    head := current;
    var active, exceptional := SupersedeStale(store, ids, current);
    ActiveOfDistinct(was, ids, current);
    forall x
      ensures x in active <==> x in ids && Active(Kept(was[x], current).status)
    {
      ActiveOfExactly(was, ids, current, x);
    }
    if |active| > 1 {
      MarkAmbiguous(store, active);
      RefreshedTidy(was, store.commands, ids, head);
      SelectedAmong(was, store.commands, ids, head);
      selected := Some(store.commands[active[|active| - 1]]);
      Concludes(was, store.commands, ids, head, selected);
      return;
    }
    RefreshedTidy(was, store.commands, ids, head);
    if |active| == 1 {
      SelectedOnly(was, store.commands, ids, head);
      selected := Some(store.commands[active[0]]);
      Concludes(was, store.commands, ids, head, selected);
      return;
    }
    SelectedElse(was, store.commands, ids, head, exceptional);
    selected := if exceptional.Some? then Some(store.commands[exceptional.value]) else None;
    Concludes(was, store.commands, ids, head, selected);
  }

  // ---------------------------------------------------------------- the project

  /** The identifiers listed for an issue are exactly its commands. */
  ghost predicate Lists(cs: W.Commands, project: nat, x: IssueRef) {
    Distinct(x.ids) && forall id :: id in x.ids <==> id in cs && cs[id].project == project && cs[id].issue == x.number
  }

  /** After a refresh: the issue is tidy, and its overlay is the selected command. */
  ghost predicate Settled(cs: W.Commands, overlay: map<nat, W.Status>, x: IssueRef) {
    && (forall id :: id in x.ids ==> id in cs)
    && (exists head :: OnlyHead(x.pulls, head) && Tidy(cs, x.ids, head))
    && (x.number !in overlay ==> forall id :: id in x.ids ==> !Active(cs[id].status) && !Exceptional(cs[id].status))
    && (x.number in overlay ==>
          && (exists id :: id in x.ids && cs[id].status == overlay[x.number])
          && (Active(overlay[x.number]) || Exceptional(overlay[x.number]))
          && (!Active(overlay[x.number]) ==> forall id :: id in x.ids ==> !Active(cs[id].status)))
  }

  lemma SettledStays(was: W.Commands, now: W.Commands, overlay: map<nat, W.Status>, wider: map<nat, W.Status>, x: IssueRef)
    requires Settled(was, overlay, x) && now.Keys == was.Keys
    requires forall id :: id in x.ids && id in was ==> now[id] == was[id]
    requires (x.number in overlay <==> x.number in wider) && (x.number in overlay ==> wider[x.number] == overlay[x.number])
    ensures Settled(now, wider, x)
  {
    var head :| OnlyHead(x.pulls, head) && Tidy(was, x.ids, head);
    assert Tidy(now, x.ids, head);
  }

  lemma SettledNow(cs: W.Commands, overlay: map<nat, W.Status>, x: IssueRef, selected: Option<W.Command>, head: string)
    requires (forall id :: id in x.ids ==> id in cs) && OnlyHead(x.pulls, head) && Tidy(cs, x.ids, head)
    requires Selected(cs, x.ids, selected)
    requires if selected.Some? then x.number in overlay && overlay[x.number] == selected.value.status else x.number !in overlay
    ensures Settled(cs, overlay, x)
  {
    hide OnlyHead, Tidy;
  }

  /** Only statuses differ: issues list the same commands. */
  lemma ListsStay(was: W.Commands, now: W.Commands, project: nat, x: IssueRef)
    requires Lists(was, project, x) && W.SameScope(was, now)
    ensures Lists(now, project, x)
  {
  }

  lemma RefreshedScope(was: W.Commands, now: W.Commands, ids: seq<Id>, head: string)
    requires now.Keys == was.Keys && (forall id :: id in ids ==> id in was)
    requires forall id :: id in was ==> now[id] == if id in ids then Refreshed(was, ids, head, id) else was[id]
    ensures W.SameScope(was, now)
  {
    hide ActiveOf;
  }

  /** The issue's commands were judged, and its overlay is the status of the one that was chosen. */
  ghost predicate Overlaid(was: W.Commands, now: W.Commands, overlay: map<nat, W.Status>, x: IssueRef) {
    && (forall id :: id in x.ids ==> id in was && id in now)
    && exists head, selected ::
         && OnlyHead(x.pulls, head) && Chosen(was, now, x.ids, head, selected)
         && (forall id :: id in x.ids ==> Judged(was, now, x.ids, head, id))
         && Shows(overlay, x.number, selected)
  }

  predicate Shows(overlay: map<nat, W.Status>, number: nat, selected: Option<W.Command>) {
    if selected.Some? then number in overlay && overlay[number] == selected.value.status else number !in overlay
  }

  /** The commands of an issue are the same in both. */
  ghost predicate Agree(cs: W.Commands, ds: W.Commands, ids: seq<Id>) {
    forall id :: id in ids ==> id in cs && id in ds && cs[id] == ds[id]
  }

  lemma JudgedAgree(was: W.Commands, was': W.Commands, now: W.Commands, now': W.Commands, ids: seq<Id>, head: string, id: Id)
    requires Agree(was, was', ids) && Agree(now, now', ids) && id in ids && Judged(was, now, ids, head, id)
    ensures Judged(was', now', ids, head, id)
  {
    assert Contested(was, ids, head, id) <==> Contested(was', ids, head, id);
  }

  lemma ChosenAgree(was: W.Commands, was': W.Commands, now: W.Commands, now': W.Commands, ids: seq<Id>, head: string, selected: Option<W.Command>)
    requires Agree(was, was', ids) && Agree(now, now', ids) && Chosen(was, now, ids, head, selected)
    ensures Chosen(was', now', ids, head, selected)
  {
    hide Current, Troubled;
    assert forall j :: 0 <= j < |ids| ==> ids[j] in ids;
    if selected.Some? {
      var i :| 0 <= i < |ids| && selected.value == now[ids[i]]
               && (if exists id :: id in ids && Current(was[id], head)
                   then Current(was[ids[i]], head) && forall j :: i < j < |ids| ==> !Current(was[ids[j]], head)
                   else Troubled(was[ids[i]]) && forall j :: i < j < |ids| ==> !Troubled(was[ids[j]]));
      assert (exists id :: id in ids && Current(was'[id], head)) <==> exists id :: id in ids && Current(was[id], head);
      assert selected.value == now'[ids[i]];
    }
  }

  lemma OverlaidAgree(was: W.Commands, was': W.Commands, now: W.Commands, now': W.Commands,
                      overlay: map<nat, W.Status>, wider: map<nat, W.Status>, x: IssueRef)
    requires Agree(was, was', x.ids) && Agree(now, now', x.ids) && Overlaid(was, now, overlay, x)
    requires (x.number in overlay <==> x.number in wider) && (x.number in overlay ==> wider[x.number] == overlay[x.number])
    ensures Overlaid(was', now', wider, x)
  {
    hide Judged, Chosen, OnlyHead;
    var head, selected :|
      && OnlyHead(x.pulls, head) && Chosen(was, now, x.ids, head, selected)
      && (forall id :: id in x.ids ==> Judged(was, now, x.ids, head, id)) && Shows(overlay, x.number, selected);
    ChosenAgree(was, was', now, now', x.ids, head, selected);
    forall id | id in x.ids
      ensures Judged(was', now', x.ids, head, id)
    {
      JudgedAgree(was, was', now, now', x.ids, head, id);
    }
    assert Shows(wider, x.number, selected);
  }

  /** Different issues list different commands. */
  lemma ListsApart(cs: W.Commands, project: nat, x: IssueRef, y: IssueRef, id: Id)
    requires Lists(cs, project, x) && Lists(cs, project, y) && x.number != y.number && id in x.ids
    ensures id !in y.ids
  {
  }

  /** One issue more: it is overlaid, the others keep what they have. */
  lemma OverlaidNext(project: nat, issues: seq<IssueRef>, i: nat, was: W.Commands, before: W.Commands, now: W.Commands,
                     narrower: map<nat, W.Status>, overlay: map<nat, W.Status>, selected: Option<W.Command>, head: string)
    requires i < |issues| && forall j :: 0 <= j < |issues| ==> Lists(before, project, issues[j])
    requires forall j, k :: 0 <= j < k < |issues| ==> issues[j].number != issues[k].number
    requires now.Keys == before.Keys && forall id :: id in before && id !in issues[i].ids ==> now[id] == before[id]
    requires forall j :: 0 <= j < i ==> Overlaid(was, before, narrower, issues[j])
    requires forall j :: i <= j < |issues| ==> Agree(was, before, issues[j].ids)
    requires forall id :: id in issues[i].ids ==> id in before
    requires OnlyHead(issues[i].pulls, head) && Chosen(before, now, issues[i].ids, head, selected)
    requires forall id :: id in issues[i].ids ==> Judged(before, now, issues[i].ids, head, id)
    requires overlay == if selected.Some? then narrower[issues[i].number := selected.value.status] else narrower
    requires issues[i].number !in narrower
    ensures forall j :: 0 <= j < i + 1 ==> Overlaid(was, now, overlay, issues[j])
    ensures forall j :: i + 1 <= j < |issues| ==> Agree(was, now, issues[j].ids)
  {
    hide OnlyHead, Chosen, Judged, Lists;
    var x := issues[i];
    forall j | 0 <= j < |issues| && j != i
      ensures Agree(before, now, issues[j].ids)
    {
      forall id | id in issues[j].ids
        ensures id in before && id !in x.ids
      {
        ListsHave(before, project, issues[j], id);
        ListsApart(before, project, issues[j], x, id);
      }
    }
    forall j | 0 <= j < i
      ensures Overlaid(was, now, overlay, issues[j])
    {
      OverlaidHas(was, before, narrower, issues[j]);
      OverlaidAgree(was, was, before, now, narrower, overlay, issues[j]);
    }
    assert Overlaid(before, now, overlay, x) by { assert Shows(overlay, x.number, selected); }
    assert Agree(before, was, x.ids) && Agree(now, now, x.ids);
    OverlaidAgree(before, was, now, now, overlay, overlay, x);
  }

  lemma ListsHave(cs: W.Commands, project: nat, x: IssueRef, id: Id)
    requires Lists(cs, project, x) && id in x.ids
    ensures id in cs
  {
  }

  lemma OverlaidHas(was: W.Commands, now: W.Commands, overlay: map<nat, W.Status>, x: IssueRef)
    requires Overlaid(was, now, overlay, x)
    ensures Agree(was, was, x.ids) && Agree(now, now, x.ids)
  {
  }

  method RefreshProject(store: W.WorkerLoop, project: nat, issues: seq<IssueRef>) returns (overlay: map<nat, W.Status>)
    requires forall i :: 0 <= i < |issues| ==> Lists(store.commands, project, issues[i])
    requires forall i, j :: 0 <= i < j < |issues| ==> issues[i].number != issues[j].number
    modifies store`commands
    ensures W.SameScope(old(store.commands), store.commands)
    ensures forall i :: 0 <= i < |issues| ==> Settled(store.commands, overlay, issues[i])
    ensures forall i :: 0 <= i < |issues| ==> Overlaid(old(store.commands), store.commands, overlay, issues[i])
    ensures forall id :: id in store.commands && (forall i :: 0 <= i < |issues| ==> id !in issues[i].ids) ==>
              store.commands[id] == old(store.commands)[id]
    ensures forall n :: n in overlay ==> exists i :: 0 <= i < |issues| && issues[i].number == n
  {
    hide Tidy, OnlyHead, Settled, Selected, Overlaid, Judged, Chosen, Refreshed;
    ghost var was := store.commands;
    overlay := map[];
    var i := 0;
    while i < |issues|
      invariant 0 <= i <= |issues| && W.SameScope(was, store.commands)
      invariant forall j :: 0 <= j < |issues| ==> Lists(store.commands, project, issues[j])
      invariant forall j :: 0 <= j < i ==> Settled(store.commands, overlay, issues[j])
      invariant forall j :: 0 <= j < i ==> Overlaid(was, store.commands, overlay, issues[j])
      invariant forall j :: i <= j < |issues| ==> Agree(was, store.commands, issues[j].ids)
      invariant forall id :: id in was && (forall j :: 0 <= j < |issues| ==> id !in issues[j].ids) ==>
                  id in store.commands && store.commands[id] == was[id]
      invariant forall n :: n in overlay ==> exists j :: 0 <= j < i && issues[j].number == n
    {
      var x := issues[i];
      ghost var before, narrower := store.commands, overlay;
      var selected, head := CurrentCommand(store, x.pulls, x.ids);
      if selected.Some? { overlay := overlay[x.number := selected.value.status]; }
      RefreshedScope(before, store.commands, x.ids, head);
      OverlaidNext(project, issues, i, was, before, store.commands, narrower, overlay, selected, head);
      SettledNow(store.commands, overlay, x, selected, head);
      forall j | 0 <= j < |issues|
        ensures Lists(store.commands, project, issues[j])
        ensures j < i ==> Settled(store.commands, overlay, issues[j])
      {
        ListsStay(before, store.commands, project, issues[j]);
        if j < i { SettledStays(before, store.commands, narrower, overlay, issues[j]); }
      }
      i := i + 1;
    }
  }

  /**
   After a refresh, an issue with an active, ambiguous or failed command is never dispatched, whatever route its
   evidence derives.
   */
  lemma NoDispatchWhileHeld(cs: W.Commands, overlay: map<nat, W.Status>, x: IssueRef, id: Id, qaRequired: bool, issue: R.Issue)
    requires Settled(cs, overlay, x) && id in x.ids && (Active(cs[id].status) || Exceptional(cs[id].status))
    ensures !R.RouteOf(qaRequired, issue, if x.number in overlay then Some(overlay[x.number]) else None).action.Dispatch?
  {
    hide R.DeriveRoute, R.Derived, OnlyHead, Tidy;
  }
}

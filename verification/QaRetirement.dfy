/**
 Retirement of QA lane bindings (backend/internal/workerloop/qa_binding.go).

 A query over workflow commands, results, links and deliveries captures which binding served a QA command that has ended
 with an accepted result; one guarded update for each captured identity and version then disables it.
 */
module QaRetirement {
  import opened Prelude
  import B = BrowserBinding
  import D = DeliveryCommands
  import W = WorkerResults
  import opened DeliveryLinks

  /** The statuses the query asks for; a superseded command retires nothing. */
  predicate Ended(s: W.Status) {
    s == W.Completed || s == W.Stopped || s == W.Inconclusive || s == W.Failed || s == W.Ambiguous
  }

  /** A QA command of the project that ended, with an accepted result and a linked delivery. */
  predicate Retiring(project: nat, work: W.Store, t: D.Table, links: Links, w: Id) {
    w in work.commands && w in links && D.Has(t, links[w])
    && var c := work.commands[w];
       c.project == project && c.role == W.QA && Ended(c.status) && W.AcceptedPayloads(work.rows, project, w) != {}
  }

  /** The binding a delivery was frozen to. */
  function Serving(t: D.Table, links: Links, w: Id): (Id, nat)
    requires w in links && D.Has(t, links[w])
  {
    var f := D.Row(t, links[w]).frozen;
    (f.bindingId, f.bindingVersion)
  }

  /** Exactly the bindings, as they were frozen, that served a retiring command. */
  ghost predicate Captures(project: nat, work: W.Store, t: D.Table, links: Links, x: (Id, nat)) {
    exists w :: Retiring(project, work, t, links, w) && Serving(t, links, w) == x
  }

  /** Stated without the query: the ended QA command, its accepted result, and the delivery it is linked to. */
  lemma CapturesIff(project: nat, work: W.Store, t: D.Table, links: Links, x: (Id, nat))
    ensures Captures(project, work, t, links, x) <==>
            exists w, k ::
              && w in work.commands && work.commands[w].project == project && work.commands[w].role == W.QA
              && work.commands[w].status in {W.Completed, W.Stopped, W.Inconclusive, W.Failed, W.Ambiguous}
              && k in work.rows && k.0 == project && work.rows[k].command == w && work.rows[k].validation == W.Accepted
              && w in links && D.Has(t, links[w])
              && x == (D.Row(t, links[w]).frozen.bindingId, D.Row(t, links[w]).frozen.bindingVersion)
  {
    if Captures(project, work, t, links, x) {
      var w :| Retiring(project, work, t, links, w) && Serving(t, links, w) == x;
      var p :| p in W.AcceptedPayloads(work.rows, project, w);
      var k :| k in work.rows && k.0 == project && work.rows[k].command == w && work.rows[k].validation == W.Accepted
        && work.rows[k].payload == p;
    }
    if w, k :| && w in work.commands && work.commands[w].project == project && work.commands[w].role == W.QA
               && work.commands[w].status in {W.Completed, W.Stopped, W.Inconclusive, W.Failed, W.Ambiguous}
               && k in work.rows && k.0 == project && work.rows[k].command == w && work.rows[k].validation == W.Accepted
               && w in links && D.Has(t, links[w])
               && x == (D.Row(t, links[w]).frozen.bindingId, D.Row(t, links[w]).frozen.bindingVersion) {
      assert work.rows[k].payload in W.AcceptedPayloads(work.rows, project, w);
      assert Retiring(project, work, t, links, w) && Serving(t, links, w) == x;
    }
  }

  method Capture(project: nat, work: W.Store, t: D.Table, links: Links) returns (captured: seq<(Id, nat)>)
    ensures forall x :: x in captured <==> Captures(project, work, t, links, x)
    ensures forall i, j :: 0 <= i < j < |captured| ==> captured[i] != captured[j]
  {
    captured := [];
    var left := work.commands.Keys;
    while left != {}
      invariant left <= work.commands.Keys
      invariant forall x :: x in captured <==> exists w :: w !in left && Retiring(project, work, t, links, w) && Serving(t, links, w) == x
      invariant forall i, j :: 0 <= i < j < |captured| ==> captured[i] != captured[j]
    {
      hide Serving, W.AcceptedPayloads;
      var w :| w in left;
      left := left - {w};
      if Retiring(project, work, t, links, w) && Serving(t, links, w) !in captured {
        captured := captured + [Serving(t, links, w)];
      }
    }
  }

  /**
   Disables exactly the bindings that are enabled and still what a retiring command was frozen to; a binding that was
   written since, and every other one, is untouched.
   */
  method RetireAcceptedTerminalQA(lanes: B.BrowserBindingService, project: nat, work: W.Store, t: D.Table, links: Links)
    requires B.RowsOk(lanes.bindings, lanes.nextId)
    modifies lanes`bindings
    ensures B.RowsOk(lanes.bindings, lanes.nextId) && lanes.bindings.Keys == old(lanes.bindings).Keys
    ensures forall k :: k in lanes.bindings ==>
              var was := old(lanes.bindings)[k];
              lanes.bindings[k] == if was.enabled && Captures(project, work, t, links, (was.id, was.version))
                                   then was.(enabled := false, version := was.version + 1) else was
  {
    hide B.RowsOk, B.RowsMove;
    var captured := Capture(project, work, t, links);
    lanes.RetireCaptured(captured);
  }
}

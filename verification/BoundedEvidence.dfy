/**
 The evidence a prompt context carries (backend/internal/planning/context.go): a bounded number of comments that never
 loses a mandatory one.
 */
module BoundedEvidence {
  import opened Prelude

  /** A parsed comment; `heading` says that it carries one of the operational Lead headings. */
  datatype Parsed = Parsed(id: Id, created: nat, heading: bool)

  const MINIMUM_SAFE_LIMIT := 8

  ghost predicate DistinctIds(s: seq<Parsed>) {
    forall i, j :: 0 <= i < j < |s| ==> s[i].id != s[j].id
  }

  predicate Before(a: Parsed, b: Parsed) {
    a.created < b.created || (a.created == b.created && a.id < b.id)
  }

  ghost predicate Sorted(s: seq<Parsed>) {
    forall i, j :: 0 <= i < j < |s| ==> Before(s[i], s[j])
  }

  /** The identities of the latest results and of the active blocker. */
  function Latest(latest: seq<Option<Id>>): set<Id> {
    set i | 0 <= i < |latest| && latest[i].Some? :: latest[i].value
  }

  /**
   What is mandatory: every latest result and the active blocker, and the newest Lead headings until seven comments are
   collected.
   */
  ghost predicate IsMandatory(parsed: seq<Parsed>, latest: seq<Option<Id>>, m: set<Id>) {
    && Latest(latest) <= m && |m| <= MINIMUM_SAFE_LIMIT - 1
    && (forall id :: id in m && id !in Latest(latest) ==> exists i :: 0 <= i < |parsed| && parsed[i].id == id && parsed[i].heading)
    && (forall i :: 0 <= i < |parsed| && parsed[i].heading && parsed[i].id !in m ==>
          && |m| == MINIMUM_SAFE_LIMIT - 1
          && forall j :: 0 <= j < i && parsed[j].id in m ==> parsed[j].id in Latest(latest))
  }

  /** What the selection promises, for limits from eight on. */
  ghost predicate KeepsMandatory(parsed: seq<Parsed>, m: set<Id>, limit: nat, items: seq<Parsed>) {
    && |items| == (if limit < |parsed| then limit else |parsed|)
    && (forall c :: c in parsed && c.id in m ==> c in items)
    && (forall i, j :: 0 <= i < |parsed| && 0 <= j < |parsed| && parsed[i] in items && parsed[i].id !in m && parsed[j] !in items ==> j < i)
  }

  /** Where the mandatory comments are. */
  function Present(parsed: seq<Parsed>, m: set<Id>): set<nat> {
    set i | 0 <= i < |parsed| && parsed[i].id in m
  }

  predicate Earlier(a: Parsed, b: Parsed) {
    a.created < b.created || (a.created == b.created && a.id < b.id)
  }

  /** What it does when even the mandatory comments do not fit: the newest of them and nothing else. */
  ghost predicate NewestMandatory(parsed: seq<Parsed>, m: set<Id>, limit: nat, items: seq<Parsed>) {
    && |items| == limit && (forall c :: c in items ==> c in parsed && c.id in m)
    && (forall c, x :: c in parsed && c.id in m && c !in items && x in items ==> Earlier(c, x))
  }

  lemma {:induction false} FewLatest(latest: seq<Option<Id>>)
    ensures |Latest(latest)| <= |latest|
  {
    if latest != [] {
      var n := |latest| - 1;
      FewLatest(latest[..n]);
      if latest[n].Some? {
        assert Latest(latest) == Latest(latest[..n]) + {latest[n].value};
      } else {
        assert Latest(latest) == Latest(latest[..n]);
      }
    }
  }

  method MandatoryIds(parsed: seq<Parsed>, latest: seq<Option<Id>>) returns (m: set<Id>)
    requires DistinctIds(parsed) && |latest| == 4
    ensures IsMandatory(parsed, latest, m)
  {
    m := {};
    var k := 0;
    while k < |latest|
      invariant 0 <= k <= |latest| && m == Latest(latest[..k])
    {
      assert latest[..k + 1] == latest[..k] + [latest[k]];
      if latest[k].Some? {
        m := m + {latest[k].value};
        assert Latest(latest[..k + 1]) == Latest(latest[..k]) + {latest[k].value};
      } else {
        assert Latest(latest[..k + 1]) == Latest(latest[..k]);
      }
      k := k + 1;
    }
    assert latest[..k] == latest;
    FewLatest(latest);
    ghost var base := m;
    var i := |parsed|;
    while i > 0
      invariant 0 <= i <= |parsed| && base <= m
      invariant |m| < MINIMUM_SAFE_LIMIT - 1
      invariant forall id :: id in m && id !in base ==> exists j :: i <= j < |parsed| && parsed[j].id == id && parsed[j].heading
      invariant forall j :: i <= j < |parsed| && parsed[j].heading ==> parsed[j].id in m
    {
      i := i - 1;
      if parsed[i].heading {
        m := m + {parsed[i].id};
        if |m| >= MINIMUM_SAFE_LIMIT - 1 {
          forall j | 0 <= j < i && parsed[j].id in m
            ensures parsed[j].id in base
          {
          }
          return;
        }
      }
    }
  }

  /** Index of the newest comment not selected yet, counting down; every comment from it on is selected or left. */
  ghost predicate Chosen(parsed: seq<Parsed>, m: set<Id>, chosen: set<nat>, from: nat) {
    && (forall i :: i in chosen ==> i < |parsed|)
    && (forall i :: 0 <= i < |parsed| && parsed[i].id in m ==> i in chosen)
    && (forall i :: from <= i < |parsed| ==> i in chosen)
    && (forall i :: i in chosen && i < from ==> parsed[i].id in m)
  }

  /** The mandatory comments that are present. */
  method SelectMandatory(parsed: seq<Parsed>, m: set<Id>) returns (chosen: set<nat>)
    requires DistinctIds(parsed)
    ensures Chosen(parsed, m, chosen, |parsed|) && chosen == Present(parsed, m) && |chosen| <= |m|
  {
    chosen := {};
    var i := 0;
    while i < |parsed|
      invariant 0 <= i <= |parsed|
      invariant forall j :: j in chosen <==> 0 <= j < i && parsed[j].id in m
    {
      if parsed[i].id in m { chosen := chosen + {i}; }
      i := i + 1;
    }
    Injected(parsed, chosen, m);
  }

  /** The newest of the others, while there is room. */
  method FillNewest(parsed: seq<Parsed>, m: set<Id>, mandatory: set<nat>, limit: nat) returns (chosen: set<nat>, ghost from: nat)
    requires Chosen(parsed, m, mandatory, |parsed|)
    ensures from <= |parsed| && Chosen(parsed, m, chosen, from) && |chosen| <= |parsed|
    ensures |mandatory| <= limit ==> |chosen| <= limit && (|chosen| == limit || |chosen| == |parsed|)
    ensures |mandatory| >= limit ==> chosen == mandatory
  {
    chosen := mandatory;
    var i := |parsed|;
    while i > 0 && |chosen| < limit
      invariant 0 <= i <= |parsed| && Chosen(parsed, m, chosen, i)
      invariant |mandatory| <= limit ==> |chosen| <= limit
      invariant |mandatory| >= limit ==> chosen == mandatory
    {
      i := i - 1;
      chosen := chosen + {i};
    }
    AllChosen(parsed, m, chosen, i);
    from := i;
  }

  method Bounded(parsed: seq<Parsed>, latest: seq<Option<Id>>, limit: nat) returns (items: seq<Parsed>, m: set<Id>)
    requires DistinctIds(parsed) && |latest| == 4
    ensures IsMandatory(parsed, latest, m)
    ensures Sorted(items) && DistinctIds(items) && |items| <= limit && forall c :: c in items ==> c in parsed
    ensures forall i, j :: 0 <= i < j < |items| ==> Earlier(items[i], items[j])
    ensures if |Present(parsed, m)| <= limit then KeepsMandatory(parsed, m, limit, items) else NewestMandatory(parsed, m, limit, items)
    ensures |Present(parsed, m)| <= |m| < MINIMUM_SAFE_LIMIT
  {
    m := MandatoryIds(parsed, latest);
    var mandatory := SelectMandatory(parsed, m);
    var chosen, from := FillNewest(parsed, m, mandatory, limit);
    items := SortChosen(parsed, chosen);
    InOrder(items);
    if |mandatory| <= limit { ChosenKeeps(parsed, m, chosen, from, limit, items); }
    if |items| > limit {
      SuffixKeeps(parsed, m, items, |items| - limit);
      hide Sorted, DistinctIds, NewestMandatory;
      items := items[|items| - limit..];
    }
  }

  lemma InOrder(s: seq<Parsed>)
    requires Sorted(s)
    ensures forall i, j :: 0 <= i < j < |s| ==> Earlier(s[i], s[j])
  {
    assert forall i, j :: 0 <= i < j < |s| ==> Before(s[i], s[j]);
  }

  /** The newest of the sorted mandatory comments. */
  lemma SuffixKeeps(parsed: seq<Parsed>, m: set<Id>, s: seq<Parsed>, k: nat)
    requires k <= |s| && Sorted(s) && DistinctIds(s)
    requires forall c :: c in s <==> exists i :: i in Present(parsed, m) && parsed[i] == c
    ensures Sorted(s[k..]) && DistinctIds(s[k..]) && forall c :: c in s[k..] ==> c in parsed
    ensures forall i, j :: 0 <= i < j < |s[k..]| ==> Earlier(s[k..][i], s[k..][j])
    ensures NewestMandatory(parsed, m, |s| - k, s[k..])
  {
    InOrder(s);
    forall c | c in s[k..]
      ensures c in parsed && c.id in m
    {
      assert c in s;
    }
    forall a | k <= a < |s|
      ensures s[a] in s[k..]
    {
      assert s[k..][a - k] == s[a];
    }
    forall c, x | c in parsed && c.id in m && c !in s[k..] && x in s[k..]
      ensures Earlier(c, x)
    {
      var i :| 0 <= i < |parsed| && parsed[i] == c;
      assert i in Present(parsed, m);
      assert c in s;
      var a :| 0 <= a < |s| && s[a] == c;
      var b :| 0 <= b < |s[k..]| && s[k..][b] == x;
    }
  }

  lemma {:induction false} Injected(parsed: seq<Parsed>, chosen: set<nat>, m: set<Id>)
    requires DistinctIds(parsed) && forall i :: i in chosen ==> i < |parsed| && parsed[i].id in m
    ensures |chosen| <= |m|
    decreases |chosen|
  {
    if chosen != {} {
      var i :| i in chosen;
      Injected(parsed, chosen - {i}, m - {parsed[i].id});
    }
  }

  lemma AllChosen(parsed: seq<Parsed>, m: set<Id>, chosen: set<nat>, from: nat)
    requires Chosen(parsed, m, chosen, from)
    ensures |chosen| <= |parsed| && (from == 0 ==> |chosen| == |parsed|)
  {
    Subset(chosen, Below(|parsed|));
    if from == 0 { assert chosen == Below(|parsed|); }
  }

  function Below(n: nat): (s: set<nat>)
    ensures |s| == n && forall i :: i in s <==> 0 <= i < n
  {
    if n == 0 then {} else Below(n - 1) + {n - 1}
  }

  lemma Subset(a: set<nat>, b: set<nat>)
    requires a <= b
    ensures |a| <= |b|
  {
    assert b == a + (b - a);
  }

  /** The selected comments, sorted by time and identity. */
  method SortChosen(parsed: seq<Parsed>, chosen: set<nat>) returns (items: seq<Parsed>)
    requires DistinctIds(parsed) && forall i :: i in chosen ==> i < |parsed|
    ensures Sorted(items) && DistinctIds(items) && |items| == |chosen|
    ensures forall c :: c in items <==> exists i :: i in chosen && parsed[i] == c
  {
    hide Sorted, DistinctIds;
    items := [];
    assert Sorted(items) && DistinctIds(items) by { NothingSorted(); }
    var left := chosen;
    while left != {}
      invariant left <= chosen && Sorted(items) && DistinctIds(items) && |items| + |left| == |chosen|
      invariant forall c :: c in items <==> exists i :: i in chosen && i !in left && parsed[i] == c
    {
      var n :| n in left;
      ghost var before := items;
      var k := 0;
      while k < |items| && Before(items[k], parsed[n])
        invariant 0 <= k <= |items| && forall j :: 0 <= j < k ==> Before(items[j], parsed[n])
      {
        k := k + 1;
      }
      OtherIds(parsed, chosen, left, n, items);
      if k < |items| { assert items[k] in items; }
      Spliced(items, k, parsed[n]);
      items := items[..k] + [parsed[n]] + items[k..];
      left := left - {n};
    }
  }

  lemma NothingSorted()
    ensures Sorted([]) && DistinctIds([])
  {
  }

  lemma OtherIds(parsed: seq<Parsed>, chosen: set<nat>, left: set<nat>, n: nat, items: seq<Parsed>)
    requires DistinctIds(parsed) && (forall i :: i in chosen ==> i < |parsed|) && n in left && left <= chosen
    requires forall c :: c in items <==> exists i :: i in chosen && i !in left && parsed[i] == c
    ensures forall x :: x in items ==> x.id != parsed[n].id
  {
  }

  lemma Spliced(s: seq<Parsed>, i: nat, c: Parsed)
    requires Sorted(s) && DistinctIds(s) && i <= |s| && forall x :: x in s ==> x.id != c.id
    requires (forall j :: 0 <= j < i ==> Before(s[j], c)) && (i < |s| ==> !Before(s[i], c))
    ensures var r := s[..i] + [c] + s[i..]; Sorted(r) && DistinctIds(r) && forall x :: x in r <==> x in s || x == c
  {
    var r := s[..i] + [c] + s[i..];
    assert s == s[..i] + s[i..];
    forall j | 0 <= j < |s|
      ensures s[j].id != c.id && (j >= i ==> Before(c, s[j]))
    {
      assert s[j] in s;
      assert j > i ==> Before(s[i], s[j]);
    }
    hide Before;
    forall a, b | 0 <= a < b < |r|
      ensures Before(r[a], r[b]) && r[a].id != r[b].id
    {
      var p, q := if a < i then a else a - 1, if b < i then b else b - 1;
      assert a != i ==> r[a] == s[p];
      assert b != i ==> r[b] == s[q];
    }
    assert r[i] == c;
  }

  lemma ChosenKeeps(parsed: seq<Parsed>, m: set<Id>, chosen: set<nat>, from: nat, limit: nat, items: seq<Parsed>)
    requires DistinctIds(parsed) && Chosen(parsed, m, chosen, from) && |items| == |chosen| <= |parsed|
    requires forall c :: c in items <==> exists i :: i in chosen && parsed[i] == c
    requires |chosen| <= limit && (|chosen| == limit || |chosen| == |parsed|)
    ensures KeepsMandatory(parsed, m, limit, items)
  {
    forall c | c in parsed && c.id in m
      ensures c in items
    {
      var i :| 0 <= i < |parsed| && parsed[i] == c;
      assert i in chosen;
    }
    forall i, j | 0 <= i < |parsed| && 0 <= j < |parsed| && parsed[i] in items && parsed[i].id !in m && parsed[j] !in items
      ensures j < i
    {
      var k :| k in chosen && parsed[k] == parsed[i];
      assert k == i;
    }
  }
}

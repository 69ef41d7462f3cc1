/**
 Deterministic comments (backend/internal/workflow/derive_snapshot.go).

 Records sharing an identity collapse to the preferred one; the rest is sorted. The Go map is iterated in an arbitrary
 order, so the method is nondeterministic inside and its result must not be.
 */
module CommentCanon {
  import opened Prelude

  datatype Comment = Comment(id: Id, author: Id, created: nat, updated: nat, body: string, url: string)

  /** Lexicographic order of texts. */
  predicate Less(a: string, b: string)
    decreases |a|
  {
    if b == "" then false
    else if a == "" then true
    else a[0] < b[0] || (a[0] == b[0] && Less(a[1..], b[1..]))
  }

  lemma {:induction false} LessTotal(a: string, b: string)
    ensures (Less(a, b) || Less(b, a) || a == b) && !(Less(a, b) && Less(b, a)) && !(a == b && Less(a, b))
    decreases |a|
  {
    if a != "" && b != "" {
      LessTotal(a[1..], b[1..]);
      if a[0] == b[0] && a[1..] == b[1..] {
        assert a == [a[0]] + a[1..] && b == [b[0]] + b[1..];
      }
    }
  }

  lemma {:induction false} LessTransitive(a: string, b: string, c: string)
    requires Less(a, b) && Less(b, c)
    ensures Less(a, c)
    decreases |a|
  {
    if a != "" && a[0] == b[0] == c[0] { LessTransitive(a[1..], b[1..], c[1..]); }
  }

  /** The order of texts: a proper prefix comes first, and otherwise the first difference decides. */
  lemma {:induction false} LessIff(a: string, b: string)
    ensures Less(a, b) <==>
            || (a <= b && a != b)
            || exists k :: 0 <= k < |a| && k < |b| && a[..k] == b[..k] && a[k] < b[k]
    decreases |a|
  {
    if a != "" && b != "" {
      LessIff(a[1..], b[1..]);
      if a[0] < b[0] {
        assert a[..0] == b[..0];
      } else if a[0] == b[0] {
        assert a == [a[0]] + a[1..] && b == [b[0]] + b[1..];
        if k :| 0 <= k < |a[1..]| && k < |b[1..]| && a[1..][..k] == b[1..][..k] && a[1..][k] < b[1..][k] {
          assert a[..k + 1] == [a[0]] + a[1..][..k] && b[..k + 1] == [b[0]] + b[1..][..k];
          assert a[k + 1] < b[k + 1];
        }
        if k :| 0 <= k < |a| && k < |b| && a[..k] == b[..k] && a[k] < b[k] {
          assert k > 0 && a[1..][..k - 1] == a[..k][1..] && b[1..][..k - 1] == b[..k][1..];
          assert a[1..][k - 1] < b[1..][k - 1];
        }
      } else if k :| 0 <= k < |a| && k < |b| && a[..k] == b[..k] && a[k] < b[k] {
        assert k > 0 ==> a[..k][0] == b[..k][0];
      }
    }
  }

  /** The preference among records of one identity. */
  predicate Preferred(c: Comment, e: Comment) {
    if c.updated != e.updated then c.updated > e.updated
    else if c.created != e.created then c.created > e.created
    else if c.body != e.body then Less(e.body, c.body)
    else Less(e.url, c.url)
  }

  lemma PreferredTotal(c: Comment, e: Comment)
    ensures !(Preferred(c, e) && Preferred(e, c))
    ensures !Preferred(c, e) && !Preferred(e, c) <==> c.updated == e.updated && c.created == e.created && c.body == e.body && c.url == e.url
  {
    LessTotal(c.body, e.body);
    LessTotal(c.url, e.url);
  }

  lemma PreferredTransitive(a: Comment, b: Comment, c: Comment)
    requires !Preferred(a, b) && !Preferred(b, c)
    ensures !Preferred(a, c)
  {
    PreferredTotal(a, b);
    PreferredTotal(b, c);
    PreferredTotal(a, c);
    if Preferred(a, c) && a.updated == c.updated && a.created == c.created {
      if a.body != c.body {
        if a.body != b.body && b.body != c.body { LessTransitive(a.body, b.body, c.body); LessTotal(a.body, c.body); }
      } else if a.url != b.url && b.url != c.url && a.body == b.body {
        LessTransitive(a.url, b.url, c.url);
        LessTotal(a.url, c.url);
      } else if a.body != b.body {
        LessTotal(a.body, b.body);
      }
    }
  }

  /** The order of the result. */
  predicate Before(a: Comment, b: Comment) {
    a.created < b.created || (a.created == b.created && a.id < b.id)
  }

  ghost predicate Sorted(s: seq<Comment>) {
    forall i, j :: 0 <= i < j < |s| ==> Before(s[i], s[j])
  }

  ghost predicate Ascending(s: seq<Id>) {
    forall i, j :: 0 <= i < j < |s| ==> s[i] < s[j]
  }

  ghost predicate Repeated(comments: seq<Comment>, id: Id) {
    exists i, j :: 0 <= i < j < |comments| && comments[i].id == id && comments[j].id == id
  }

  /** A record no other record of its identity is preferred to. */
  ghost predicate Best(comments: seq<Comment>, c: Comment) {
    c in comments && forall e :: e in comments && e.id == c.id ==> !Preferred(e, c)
  }

  /** No other record comes before this one: updated later, or else created later, or else with the greater text or address. */
  predicate NoLater(e: Comment, c: Comment) {
    && e.updated <= c.updated
    && (e.updated == c.updated ==> e.created <= c.created)
    && (e.updated == c.updated && e.created == c.created ==> !Less(c.body, e.body))
    && (e.updated == c.updated && e.created == c.created && e.body == c.body ==> !Less(c.url, e.url))
  }

  /** The best record of an identity is its latest update, and among equals the latest, the greatest text, the greatest address. */
  lemma BestIsLatest(comments: seq<Comment>, c: Comment)
    ensures Best(comments, c) <==> c in comments && forall e :: e in comments && e.id == c.id ==> NoLater(e, c)
  {
    forall e
      ensures NoLater(e, c) <==> !Preferred(e, c)
    {
      LessTotal(e.body, c.body);
    }
  }

  /** What canonicalisation promises: one best record for each identity, sorted, and a warning for each repeated one. */
  ghost predicate IsCanonical(comments: seq<Comment>, result: seq<Comment>, warnings: seq<Id>) {
    && Sorted(result) && OneEach(result)
    && (forall c :: c in result ==> Best(comments, c))
    && (forall c :: c in comments ==> exists r :: r in result && r.id == c.id)
    && Ascending(warnings) && (forall id :: id in warnings <==> Repeated(comments, id))
  }

  // ---------------------------------------------------------------- the algorithm

  /** The record the scan has kept for each identity: the first one, replaced by any that is preferred to it. */
  function Kept(comments: seq<Comment>): map<Id, Comment>
    decreases |comments|
  {
    if comments == [] then map[]
    else
      var m := Kept(comments[..|comments| - 1]);
      var c := comments[|comments| - 1];
      if c.id in m && !Preferred(c, m[c.id]) then m else m[c.id := c]
  }

  lemma KeptNext(comments: seq<Comment>, c: Comment)
    ensures Kept(comments + [c])
            == var m := Kept(comments); if c.id in m && !Preferred(c, m[c.id]) then m else m[c.id := c]
  {
    assert (comments + [c])[..|comments|] == comments;
  }

  ghost predicate Collected(comments: seq<Comment>, byId: map<Id, Comment>, duplicates: set<Id>) {
    && (forall id :: id in byId ==> byId[id].id == id && Best(comments, byId[id]))
    && (forall c :: c in comments ==> c.id in byId)
    && (forall id :: id in duplicates <==> Repeated(comments, id))
  }

  /** The sorted records of a map, each once. */
  ghost predicate Lists(result: seq<Comment>, byId: map<Id, Comment>) {
    Sorted(result) && OneEach(result) && forall c :: c in result <==> c.id in byId && byId[c.id] == c
  }

  method CanonicalComments(comments: seq<Comment>) returns (result: seq<Comment>, warnings: seq<Id>)
    ensures IsCanonical(comments, result, warnings) && Lists(result, Kept(comments))
  {
    hide Preferred, Before, Kept;
    var byId, duplicates := Collect(comments);
    result := [];
    var left := byId.Keys;
    while left != {}
      invariant left <= byId.Keys
      invariant Sorted(result) && OneEach(result)
      invariant forall c :: c in result <==> c.id in byId && c.id !in left && c == byId[c.id]
    {
      var id :| id in left;
      result := InsertSorted(result, byId[id]);
      left := left - {id};
    }
    warnings := SortIds(duplicates);
    forall c | c in comments
      ensures exists r :: r in result && r.id == c.id
    {
      assert byId[c.id] in result;
    }
  }

  method Collect(comments: seq<Comment>) returns (byId: map<Id, Comment>, duplicates: set<Id>)
    ensures byId == Kept(comments) && Collected(comments, byId, duplicates)
  {
    byId, duplicates := map[], {};
    assert comments[..0] == [] && Doubles([], duplicates) && Kept([]) == byId;
    hide Doubles, Preferred, Kept;
    var n := 0;
    while n < |comments|
      invariant 0 <= n <= |comments| && byId == Kept(comments[..n]) && Doubles(comments[..n], duplicates)
    {
      var c := comments[n];
      KeptNext(comments[..n], c);
      DoublesNext(comments[..n], c, duplicates);
      if c.id in byId {
        duplicates := duplicates + {c.id};
        if Preferred(c, byId[c.id]) { byId := byId[c.id := c]; }
      } else {
        byId := byId[c.id := c];
      }
      assert comments[..n + 1] == comments[..n] + [c];
      n := n + 1;
    }
    assert comments[..n] == comments;
    KeptIsCollected(comments, duplicates);
  }

  ghost predicate Doubles(comments: seq<Comment>, duplicates: set<Id>) {
    forall id :: id in duplicates <==> Repeated(comments, id)
  }

  lemma KeptIsCollected(comments: seq<Comment>, duplicates: set<Id>)
    requires Doubles(comments, duplicates)
    ensures Collected(comments, Kept(comments), duplicates)
  {
    hide Kept, Best, Repeated;
    KeptIsBest(comments);
  }

  lemma DoublesNext(comments: seq<Comment>, c: Comment, duplicates: set<Id>)
    requires Doubles(comments, duplicates)
    ensures Doubles(comments + [c], if c.id in Kept(comments) then duplicates + {c.id} else duplicates)
  {
    KeptIsBest(comments);
    hide Preferred, Kept, Repeated;
    if c.id in Kept(comments) { AsBest(comments, Kept(comments)[c.id]); }
    forall id
      ensures Repeated(comments + [c], id) <==> Repeated(comments, id) || (id == c.id && id in Kept(comments))
    {
      RepeatedNext(comments, c, id);
    }
  }

  lemma RepeatedNext(comments: seq<Comment>, c: Comment, id: Id)
    ensures Repeated(comments + [c], id) <==> Repeated(comments, id) || (id == c.id && exists e :: e in comments && e.id == id)
  {
    var more := comments + [c];
    if Repeated(more, id) {
      var i, j :| 0 <= i < j < |more| && more[i].id == id && more[j].id == id;
      if j == |comments| { assert comments[i] in comments; } else { assert comments[i].id == id && comments[j].id == id; }
    }
    if Repeated(comments, id) {
      var i, j :| 0 <= i < j < |comments| && comments[i].id == id && comments[j].id == id;
      assert more[i].id == id && more[j].id == id;
    }
    if id == c.id && exists e :: e in comments && e.id == id {
      var i :| 0 <= i < |comments| && comments[i].id == id;
      assert more[i].id == id && more[|comments|].id == id;
    }
  }

  lemma BestNext(comments: seq<Comment>, c: Comment, b: Comment)
    requires Best(comments, b)
    ensures if c.id == b.id && Preferred(c, b) then Best(comments + [c], c) else Best(comments + [c], b)
  {
    if c.id == b.id && Preferred(c, b) {
      PreferredTotal(c, c);
      forall e | e in comments && e.id == c.id
        ensures !Preferred(e, c)
      {
        if Preferred(e, c) {
          PreferredTotal(e, c);
          PreferredTransitive(c, e, b);
        }
      }
    }
  }

  lemma AsBest(comments: seq<Comment>, b: Comment)
    requires Best(comments, b)
    ensures b in comments
  {
  }

  ghost predicate OneEach(s: seq<Comment>) {
    forall i, j :: 0 <= i < j < |s| ==> s[i].id != s[j].id
  }

  /** One step of the sort: the place among those already sorted. */
  method InsertSorted(s: seq<Comment>, c: Comment) returns (r: seq<Comment>)
    requires Sorted(s) && OneEach(s) && forall x :: x in s ==> x.id != c.id
    ensures Sorted(r) && OneEach(r) && forall x :: x in r <==> x in s || x == c
  {
    hide Sorted, OneEach;
    var i := 0;
    while i < |s| && Before(s[i], c)
      invariant 0 <= i <= |s| && forall j :: 0 <= j < i ==> Before(s[j], c)
    {
      i := i + 1;
    }
    if i < |s| { assert s[i] in s; }
    Spliced(s, i, c);
    return s[..i] + [c] + s[i..];
  }

  lemma Spliced(s: seq<Comment>, i: nat, c: Comment)
    requires Sorted(s) && OneEach(s) && i <= |s| && forall x :: x in s ==> x.id != c.id
    requires (forall j :: 0 <= j < i ==> Before(s[j], c)) && (i < |s| ==> Before(c, s[i]))
    ensures var r := s[..i] + [c] + s[i..]; Sorted(r) && OneEach(r) && forall x :: x in r <==> x in s || x == c
  {
    var r := s[..i] + [c] + s[i..];
    assert s == s[..i] + s[i..];
    forall j | 0 <= j < |s|
      ensures s[j].id != c.id && (j >= i ==> Before(c, s[j]))
    {
      assert s[j] in s;
      assert j > i ==> Before(s[i], s[j]);
    }
    hide Before;
    forall a, b | 0 <= a < b < |r|
      ensures Before(r[a], r[b]) && r[a].id != r[b].id
    {
      var p, q := if a < i then a else a - 1, if b < i then b else b - 1;
      assert a != i ==> r[a] == s[p];
      assert b != i ==> r[b] == s[q];
    }
    assert r[i] == c;
  }

  method SortIds(ids: set<Id>) returns (r: seq<Id>)
    ensures Ascending(r) && forall id :: id in r <==> id in ids
  {
    r := [];
    var left := ids;
    while left != {}
      invariant left <= ids && Ascending(r) && forall id :: id in r <==> id in ids && id !in left
    {
      hide Ascending;
      var id :| id in left;
      r := InsertId(r, id);
      left := left - {id};
    }
  }

  method InsertId(s: seq<Id>, id: Id) returns (r: seq<Id>)
    requires Ascending(s) && id !in s
    ensures Ascending(r) && forall x :: x in r <==> x in s || x == id
  {
    var i := 0;
    while i < |s| && s[i] < id
      invariant 0 <= i <= |s| && forall j :: 0 <= j < i ==> s[j] < id
    {
      i := i + 1;
    }
    assert s == s[..i] + s[i..];
    return s[..i] + [id] + s[i..];
  }

  // ---------------------------------------------------------------- independence of order

  /** The best records of an identity, which agree on times, body and address, agree on the author too. */
  ghost predicate AuthorsAgree(comments: seq<Comment>) {
    forall c, e :: Best(comments, c) && Best(comments, e) && c.id == e.id ==> c.author == e.author
  }

  lemma NoneLeft<T>(a: seq<T>, b: seq<T>)
    requires forall x :: x in b ==> x in a
    ensures b != [] ==> a != []
  {
    if b != [] { assert b[0] in a; }
  }

  lemma {:induction false} SortedUnique(a: seq<Comment>, b: seq<Comment>)
    requires Sorted(a) && Sorted(b) && forall c :: c in a <==> c in b
    ensures a == b
    decreases |a|
  {
    if a == [] {
      NoneLeft(a, b);
    } else {
      assert a[0] in b && b != [];
      assert b[0] in a;
      var i :| 0 <= i < |a| && a[i] == b[0];
      var j :| 0 <= j < |b| && b[j] == a[0];
      assert i == 0 && a[0] == b[0];
      forall c
        ensures c in a[1..] <==> c in b[1..]
      {
        TailMember(a, c);
        TailMember(b, c);
      }
      SortedUnique(a[1..], b[1..]);
      assert a == [a[0]] + a[1..] && b == [b[0]] + b[1..];
    }
  }

  lemma TailMember(s: seq<Comment>, c: Comment)
    requires Sorted(s) && s != []
    ensures c in s[1..] <==> c in s && c != s[0]
  {
  }

  lemma TailId(s: seq<Id>, x: Id)
    requires Ascending(s) && s != []
    ensures x in s[1..] <==> x in s && x != s[0]
  {
  }

  lemma {:induction false} AscendingUnique(a: seq<Id>, b: seq<Id>)
    requires Ascending(a) && Ascending(b) && forall x :: x in a <==> x in b
    ensures a == b
    decreases |a|
  {
    if a == [] {
      NoneLeft(a, b);
    } else {
      assert a[0] in b && b[0] in a;
      var i :| 0 <= i < |a| && a[i] == b[0];
      var j :| 0 <= j < |b| && b[j] == a[0];
      assert i == 0 && a[0] == b[0];
      forall x
        ensures x in a[1..] <==> x in b[1..]
      {
        TailId(a, x);
        TailId(b, x);
      }
      AscendingUnique(a[1..], b[1..]);
      assert a == [a[0]] + a[1..] && b == [b[0]] + b[1..];
    }
  }

  lemma BestUnique(comments: seq<Comment>, c: Comment, e: Comment)
    requires Best(comments, c) && Best(comments, e) && c.id == e.id && AuthorsAgree(comments)
    ensures c == e
  {
    PreferredTotal(c, e);
  }

  /** A repeated identity is one that occurs more than once, wherever. */
  lemma SameRepeats(a: seq<Comment>, b: seq<Comment>, id: Id)
    requires multiset(a) == multiset(b) && Repeated(a, id)
    ensures Repeated(b, id)
  {
    var i, j :| 0 <= i < j < |a| && a[i].id == id && a[j].id == id;
    if a[i] == a[j] {
      assert multiset(a)[a[i]] >= 2 by { TwoOf(a, i, j); }
      TwoIn(b, a[i]);
    } else {
      assert a[i] in multiset(a) && a[j] in multiset(a);
      assert a[i] in b && a[j] in b;
      var k :| 0 <= k < |b| && b[k] == a[i];
      var l :| 0 <= l < |b| && b[l] == a[j];
      assert k < l || l < k;
    }
  }

  lemma TwoOf(a: seq<Comment>, i: nat, j: nat)
    requires i < j < |a| && a[i] == a[j]
    ensures multiset(a)[a[i]] >= 2
  {
    assert a == a[..j] + a[j..];
    assert a[..j][i] == a[i] && a[j..][0] == a[i];
    assert multiset(a) == multiset(a[..j]) + multiset(a[j..]);
    assert a[i] in a[..j] && a[i] in a[j..];
  }

  lemma {:induction false} TwoIn(b: seq<Comment>, c: Comment)
    requires multiset(b)[c] >= 2
    ensures Repeated(b, c.id)
    decreases |b|
  {
    var n := |b| - 1;
    assert b == b[..n] + [b[n]];
    if b[n] == c {
      assert multiset(b) == multiset(b[..n]) + multiset{c};
      assert c in multiset(b[..n]);
      assert c in b[..n];
      var i :| 0 <= i < n && b[i] == c;
      assert b[i].id == c.id && b[n].id == c.id;
    } else {
      assert multiset(b) == multiset(b[..n]) + multiset{b[n]};
      TwoIn(b[..n], c);
      var i, j :| 0 <= i < j < n && b[..n][i].id == c.id && b[..n][j].id == c.id;
      assert b[i].id == c.id && b[j].id == c.id;
    }
  }

  /** Any order of the same records yields the same comments and the same warnings. */
  lemma OrderIndependent(a: seq<Comment>, b: seq<Comment>, r: seq<Comment>, w: seq<Id>, s: seq<Comment>, x: seq<Id>)
    requires multiset(a) == multiset(b) && AuthorsAgree(a)
    requires IsCanonical(a, r, w) && IsCanonical(b, s, x)
    ensures r == s && w == x
  {
    hide Preferred, Sorted, Ascending, OneEach, Best, Repeated, AuthorsAgree;
    forall c
      ensures c in a <==> c in b
    {
      assert c in multiset(a) <==> c in multiset(b);
    }
    forall c | c in r
      ensures c in s
    {
      SameBest(a, b, r, s, c, w, x);
    }
    AgreeElsewhere(a, b);
    forall c | c in s
      ensures c in r
    {
      SameBest(b, a, s, r, c, x, w);
    }
    SortedUnique(r, s);
    SameWarnings(a, b, w, x);
  }

  /** The warnings never depend on the order, whatever the authors. */
  lemma SameWarnings(a: seq<Comment>, b: seq<Comment>, w: seq<Id>, x: seq<Id>)
    requires multiset(a) == multiset(b) && Ascending(w) && Ascending(x)
    requires (forall id :: id in w <==> Repeated(a, id)) && (forall id :: id in x <==> Repeated(b, id))
    ensures w == x
  {
    hide Ascending, Repeated;
    forall id
      ensures id in w <==> id in x
    {
      if Repeated(a, id) { SameRepeats(a, b, id); }
      if Repeated(b, id) { SameRepeats(b, a, id); }
    }
    AscendingUnique(w, x);
  }

  lemma SameBest(a: seq<Comment>, b: seq<Comment>, r: seq<Comment>, s: seq<Comment>, c: Comment, w: seq<Id>, x: seq<Id>)
    requires (forall e :: e in a <==> e in b) && AuthorsAgree(a)
    requires IsCanonical(a, r, w) && IsCanonical(b, s, x) && c in r
    ensures c in s
  {
    hide Sorted, Ascending, Repeated, OneEach, Best, AuthorsAgree;
    AsBest(a, c);
    var e :| e in s && e.id == c.id;
    BestElsewhere(a, b, e);
    BestUnique(a, c, e);
  }

  lemma AgreeElsewhere(a: seq<Comment>, b: seq<Comment>)
    requires (forall x :: x in a <==> x in b) && AuthorsAgree(a)
    ensures AuthorsAgree(b)
  {
    hide Preferred;
    forall c, e | Best(b, c) && Best(b, e) && c.id == e.id
      ensures c.author == e.author
    {
      BestElsewhere(a, b, c);
      BestElsewhere(a, b, e);
    }
  }

  lemma BestElsewhere(a: seq<Comment>, b: seq<Comment>, e: Comment)
    requires (forall x :: x in a <==> x in b) && Best(b, e)
    ensures Best(a, e)
  {
  }

  // ---------------------------------------------------------------- exactly when the order does not matter

  lemma {:induction false} KeptIsBest(comments: seq<Comment>)
    ensures forall id :: id in Kept(comments) ==> Kept(comments)[id].id == id && Best(comments, Kept(comments)[id])
    ensures forall c :: c in comments ==> c.id in Kept(comments)
    decreases |comments|
  {
    if comments != [] {
      var n := |comments| - 1;
      var rest, c, m := comments[..n], comments[n], Kept(comments[..n]);
      KeptIsBest(rest);
      assert comments == rest + [c];
      PreferredTotal(c, c);
      hide Preferred;
      forall id | id in m
        ensures if c.id == id && Preferred(c, m[id]) then Best(comments, c) else Best(comments, m[id])
      {
        BestNext(rest, c, m[id]);
      }
      if c.id !in m { assert Best(comments, c); }
    }
  }

  /** A best record that comes first is kept, whatever follows. */
  lemma {:induction false} FirstIsKept(c: Comment, rest: seq<Comment>)
    requires forall e :: e in rest && e.id == c.id ==> !Preferred(e, c)
    ensures c.id in Kept([c] + rest) && Kept([c] + rest)[c.id] == c
    decreases |rest|
  {
    hide Preferred;
    if rest == [] {
      KeptNext([], c);
      assert [] + [c] == [c] + rest;
    } else {
      var n := |rest| - 1;
      FirstIsKept(c, rest[..n]);
      assert [c] + rest == ([c] + rest[..n]) + [rest[n]];
      KeptNext([c] + rest[..n], rest[n]);
      assert rest[n] in rest;
    }
  }

  /** An order of the records in which a given best one is kept. */
  lemma Promote(comments: seq<Comment>, c: Comment) returns (order: seq<Comment>)
    requires Best(comments, c)
    ensures multiset(order) == multiset(comments) && c.id in Kept(order) && Kept(order)[c.id] == c
  {
    var i :| 0 <= i < |comments| && comments[i] == c;
    var rest := comments[..i] + comments[i + 1..];
    assert comments == comments[..i] + [c] + comments[i + 1..];
    forall e | e in rest
      ensures e in comments
    {
    }
    FirstIsKept(c, rest);
    order := [c] + rest;
  }

  lemma SameMembers(a: seq<Comment>, b: seq<Comment>)
    requires multiset(a) == multiset(b)
    ensures forall c :: c in a <==> c in b
  {
    forall c
      ensures c in a <==> c in b
    {
      assert c in multiset(a) <==> c in multiset(b);
    }
  }

  lemma SameKept(a: seq<Comment>, b: seq<Comment>)
    requires multiset(a) == multiset(b) && AuthorsAgree(a)
    ensures Kept(a) == Kept(b)
  {
    SameMembers(a, b);
    KeptIsBest(a);
    KeptIsBest(b);
    hide Preferred, Kept;
    forall id | id in Kept(a) || id in Kept(b)
      ensures id in Kept(a) && id in Kept(b) && Kept(a)[id] == Kept(b)[id]
    {
      if id in Kept(a) { AsBest(a, Kept(a)[id]); } else { AsBest(b, Kept(b)[id]); }
      BestElsewhere(a, b, Kept(b)[id]);
      BestUnique(a, Kept(a)[id], Kept(b)[id]);
    }
  }

  lemma ListedOnBoth(a: seq<Comment>, b: seq<Comment>, r: seq<Comment>, id: Id)
    requires Lists(r, Kept(a)) && Lists(r, Kept(b)) && id in Kept(a)
    ensures id in Kept(b) && Kept(b)[id] == Kept(a)[id]
  {
    KeptIsBest(a);
    hide Preferred, Best, Kept, Sorted, OneEach;
    assert Kept(a)[id] in r;
  }

  /** Two outputs are equal exactly when the same records were kept. */
  lemma ListsEqualIff(a: seq<Comment>, b: seq<Comment>, r: seq<Comment>, s: seq<Comment>)
    requires Lists(r, Kept(a)) && Lists(s, Kept(b))
    ensures r == s <==> Kept(a) == Kept(b)
  {
    hide Kept, Sorted, OneEach;
    if Kept(a) == Kept(b) { SortedUnique(r, s); }
    if r == s {
      forall id
        ensures id in Kept(a) <==> id in Kept(b)
        ensures id in Kept(a) ==> Kept(b)[id] == Kept(a)[id]
      {
        if id in Kept(a) { ListedOnBoth(a, b, r, id); }
        if id in Kept(b) { ListedOnBoth(b, a, r, id); }
      }
    }
  }

  /**
   Every order of the records gives the same comments exactly when any two best records of an identity agree on the
   author: those are equal in times, body and address, and only the order decides which of them is kept.
   */
  lemma OrderMattersIff(a: seq<Comment>)
    ensures AuthorsAgree(a) <==> forall b :: multiset(b) == multiset(a) ==> Kept(b) == Kept(a)
  {
    hide Kept;
    if AuthorsAgree(a) {
      forall b | multiset(b) == multiset(a)
        ensures Kept(b) == Kept(a)
      {
        SameKept(a, b);
      }
    } else {
      var c, e :| Best(a, c) && Best(a, e) && c.id == e.id && c.author != e.author;
      var b := Promote(a, c);
      var d := Promote(a, e);
      assert Kept(b) != Kept(d);
    }
  }

  /** Two records that differ only in the author: the one that comes first is kept. */
  lemma AuthorsMatter(c: Comment, author: Id)
    requires author != c.author
    ensures var e := c.(author := author);
            && multiset([c, e]) == multiset([e, c])
            && Kept([c, e]) == map[c.id := c] && Kept([e, c]) == map[c.id := e] && Kept([c, e]) != Kept([e, c])
  {
    var e := c.(author := author);
    PreferredTotal(c, e);
    OneKept(c, e);
    OneKept(e, c);
    assert Kept([c, e])[c.id] != Kept([e, c])[c.id];
  }

  lemma OneKept(c: Comment, e: Comment)
    requires c.id == e.id && !Preferred(e, c)
    ensures Kept([c, e]) == map[c.id := c]
  {
    KeptNext([], c);
    KeptNext([c], e);
    assert [] + [c] == [c] && [c] + [e] == [c, e];
  }
}

/**
 The extension's durable claim ledger (extension/src/ledger.js): one stored map of entries that every operation
 reads, changes and saves inside one exclusive section, so each operation is one step.
 */
module ClaimLedger {
  import opened Prelude

  datatype EntryState = Reserved | Sent | FailedPreSend | Unsure

  datatype Entry = Entry(
    claim: Id, command: Id, origin: Id, state: EntryState, diagnostic: string, ackDiagnostic: string,
    createdAt: nat, updatedAt: nat, acked: bool)

  type Entries = map<Id, Entry>

  /** The part of the entry the source allows to be forgotten: a terminal outcome the backend has answered. */
  predicate Settled(e: Entry) {
    e.state != Reserved && e.acked
  }

  function Clip(s: string): string {
    if |s| <= 80 then s else s[..80]
  }

  // ---------------------------------------------------------------- one exclusive section each

  /** `None` is the thrown identity or origin error; the flag says whether this call created the entry. */
  function ReserveIn(m: Entries, claim: Id, command: Id, origin: Id, now: nat): Option<(Entries, bool)> {
    if claim == BLANK || command == BLANK || origin == BLANK then None
    else if claim in m then Some((m, false))
    else Some((m[claim := Entry(claim, command, origin, Reserved, "", "", now, now, false)], true))
  }

  function MarkIn(m: Entries, claim: Id, state: EntryState, diagnostic: string, now: nat): Option<Entries> {
    if state == Reserved || claim !in m then None
    else Some(m[claim := m[claim].(state := state, diagnostic := Clip(diagnostic), updatedAt := now)])
  }

  function AcknowledgeIn(m: Entries, claim: Id, ackDiagnostic: string, now: nat): Entries {
    if claim !in m then m
    else
      var e := m[claim];
      m[claim := e.(acked := true, updatedAt := now,
                    ackDiagnostic := if ackDiagnostic == "" then e.ackDiagnostic else Clip(ackDiagnostic))]
  }

  function RecoverEntry(e: Entry, now: nat): Entry {
    if e.state == Reserved then e.(state := Unsure, diagnostic := "runtime_restart_after_claim", updatedAt := now) else e
  }

  function RecoverIn(m: Entries, now: nat): Entries {
    map k | k in m :: RecoverEntry(m[k], now)
  }

  /** A stored text is the given one, cut off after 80 characters. */
  ghost predicate CutTo(stored: string, given: string) {
    stored <= given && |stored| == (if |given| <= 80 then |given| else 80)
  }

  /** Every entry but this one is as it was. */
  ghost predicate OnlyEntry(m: Entries, n: Entries, claim: Id) {
    n.Keys == m.Keys + {claim} && forall k :: k in m && k != claim ==> n[k] == m[k]
  }

  lemma ReserveIff(m: Entries, claim: Id, command: Id, origin: Id, now: nat)
    ensures var r := ReserveIn(m, claim, command, origin, now);
            && (r.None? <==> BLANK in {claim, command, origin})
            && (r.Some? && claim in m ==> r.value == (m, false))
            && (r.Some? && claim !in m ==>
                  var n := r.value.0;
                  && r.value.1 && OnlyEntry(m, n, claim)
                  && (var e := n[claim];
                      && e.claim == claim && e.command == command && e.origin == origin && e.state == Reserved && !e.acked
                      && e.diagnostic == "" && e.ackDiagnostic == "" && e.createdAt == now && e.updatedAt == now))
  {
  }

  lemma MarkIff(m: Entries, claim: Id, state: EntryState, diagnostic: string, now: nat)
    ensures var r := MarkIn(m, claim, state, diagnostic, now);
            && (r.None? <==> state == Reserved || claim !in m)
            && (r.Some? ==>
                  var n := r.value;
                  && n.Keys == m.Keys && OnlyEntry(m, n, claim)
                  && n[claim] == m[claim].(state := n[claim].state, diagnostic := n[claim].diagnostic, updatedAt := n[claim].updatedAt)
                  && n[claim].state == state && CutTo(n[claim].diagnostic, diagnostic) && n[claim].updatedAt == now)
  {
  }

  lemma AcknowledgeIff(m: Entries, claim: Id, ackDiagnostic: string, now: nat)
    ensures var n := AcknowledgeIn(m, claim, ackDiagnostic, now);
            && (claim !in m ==> n == m)
            && (claim in m ==>
                  && n.Keys == m.Keys && OnlyEntry(m, n, claim)
                  && n[claim] == m[claim].(acked := true, ackDiagnostic := n[claim].ackDiagnostic, updatedAt := now)
                  && (if ackDiagnostic == "" then n[claim].ackDiagnostic == m[claim].ackDiagnostic
                      else CutTo(n[claim].ackDiagnostic, ackDiagnostic)))
  {
  }

  lemma RecoverIff(m: Entries, now: nat, k: Id)
    requires k in m
    ensures var n := RecoverIn(m, now);
            && n.Keys == m.Keys
            && (m[k].state != Reserved ==> n[k] == m[k])
            && (m[k].state == Reserved ==>
                  n[k] == m[k].(state := Unsure, diagnostic := n[k].diagnostic, updatedAt := now)
                  && n[k].diagnostic == "runtime_restart_after_claim")
  {
  }

  function SettledKeys(m: Entries): set<Id> {
    set k | k in m && Settled(m[k])
  }

  function Least(a: nat, b: nat): nat {
    if a < b then a else b
  }

  /** Pruning forgets the oldest settled entries, exactly as many as exceed the limit, and nothing else. */
  ghost predicate PrunedTo(m: Entries, m': Entries, limit: nat) {
    && m'.Keys <= m.Keys
    && (forall k :: k in m' ==> m'[k] == m[k])
    && (forall k :: k in m && k !in m' ==> Settled(m[k]))
    && |m.Keys - m'.Keys| == Least(if |m| > limit then |m| - limit else 0, |SettledKeys(m)|)
    && (forall k, j :: k in m && k !in m' && j in m' && Settled(m[j]) ==> m[k].updatedAt <= m[j].updatedAt)
  }

  /** Whatever the limit, an entry that is unfinished or unacknowledged survives pruning unchanged. */
  lemma PruneKeepsUnsettled(m: Entries, m': Entries, limit: nat, k: Id)
    requires PrunedTo(m, m', limit) && k in m && (m[k].state == Reserved || !m[k].acked)
    ensures k in m' && m'[k] == m[k]
  {
  }

  /** The ledger gets down to its limit whenever the settled entries allow it, and otherwise drops all of those. */
  lemma PruneReachesLimit(m: Entries, m': Entries, limit: nat)
    requires PrunedTo(m, m', limit)
    ensures |m'| <= limit || SettledKeys(m') == {}
    ensures |m| <= limit ==> m' == m
  {
    var gone := m.Keys - m'.Keys;
    assert m.Keys == m'.Keys + gone;
    assert |m.Keys| == |m'.Keys| + |gone|;
    if |m| <= limit {
      assert gone == {};
      assert m'.Keys == m.Keys;
    } else if |m'| > limit {
      assert gone <= SettledKeys(m);
      SameSize(gone, SettledKeys(m));
      assert SettledKeys(m') == {};
    }
  }

  lemma SameSize(a: set<Id>, b: set<Id>)
    requires a <= b && |a| == |b|
    ensures a == b
  {
    assert |b - a| == |b| - |a|;
  }

  // ---------------------------------------------------------------- the stored ledger

  /** Two different stored keys, the first no younger. */
  ghost predicate Older(m: Entries, a: Id, b: Id) {
    a in m && b in m && a != b && m[a].updatedAt <= m[b].updatedAt
  }

  ghost predicate OldestFirst(keys: seq<Id>, m: Entries) {
    && (forall i :: 0 <= i < |keys| ==> keys[i] in m)
    && (forall i, j :: 0 <= i < j < |keys| ==> Older(m, keys[i], keys[j]))
  }

  /** Inserts a key behind every key at most as young: the stable order of the source's sort. */
  method InsertByAge(keys: seq<Id>, m: Entries, k: Id) returns (r: seq<Id>)
    requires OldestFirst(keys, m) && k in m && k !in keys
    ensures OldestFirst(r, m) && |r| == |keys| + 1
    ensures forall x :: x in r <==> x in keys || x == k
  {
    var i := |keys|;
    while i > 0 && m[keys[i - 1]].updatedAt > m[k].updatedAt
      invariant 0 <= i <= |keys|
      invariant i < |keys| ==> m[k].updatedAt < m[keys[i]].updatedAt
    {
      i := i - 1;
    }
    Spliced(keys, i, k, m);
    SplicedMembers(keys, i, k);
    r := keys[..i] + [k] + keys[i..];
  }

  /** Putting a key between the no-younger and the younger ones keeps the order. */
  lemma Spliced(keys: seq<Id>, i: nat, k: Id, m: Entries)
    requires OldestFirst(keys, m) && k in m && k !in keys && i <= |keys|
    requires i > 0 ==> m[keys[i - 1]].updatedAt <= m[k].updatedAt
    requires i < |keys| ==> m[k].updatedAt <= m[keys[i]].updatedAt
    ensures OldestFirst(keys[..i] + [k] + keys[i..], m)
  {
    var r := keys[..i] + [k] + keys[i..];
    forall j | 0 <= j < |keys|
      ensures if j < i then Older(m, keys[j], k) else Older(m, k, keys[j])
    {
      assert keys[j] in keys;
      assert j < i - 1 ==> Older(m, keys[j], keys[i - 1]);
      assert j > i ==> Older(m, keys[i], keys[j]);
    }
    hide Older;
    forall a, b | 0 <= a < b < |r|
      ensures Older(m, r[a], r[b])
    {
      var p, q := if a < i then a else a - 1, if b < i then b else b - 1;
      assert a != i ==> r[a] == keys[p];
      assert b != i ==> r[b] == keys[q];
    }
    assert r[i] == k;
  }

  lemma SplicedMembers(keys: seq<Id>, i: nat, k: Id)
    requires i <= |keys|
    ensures forall x :: x in keys[..i] + [k] + keys[i..] <==> x in keys || x == k
  {
    assert keys == keys[..i] + keys[i..];
  }

  class ClaimLedger {
    const maxEntries: nat
    var entries: Entries

    constructor (maxEntries: nat)
      ensures entries == map[] && this.maxEntries == maxEntries
    {
      this.maxEntries := maxEntries;
      entries := map[];
    }

    /** A claim identifier is reserved at most once; a second reservation reports the entry already there. */
    method Reserve(claim: Id, command: Id, origin: Id, now: nat) returns (r: Option<(bool, Entry)>)
      modifies this
      ensures r.None? <==> claim == BLANK || command == BLANK || origin == BLANK
      ensures r.None? ==> entries == old(entries)
      ensures r.Some? ==> ReserveIn(old(entries), claim, command, origin, now) == Some((entries, r.value.0))
      ensures r.Some? ==> claim in entries && r.value.1 == entries[claim] && (r.value.0 <==> claim !in old(entries))
      ensures r.Some? && r.value.0 ==> r.value.1.state == Reserved && !r.value.1.acked
    {
      if claim == BLANK || command == BLANK || origin == BLANK { return None; }
      if claim in entries { return Some((false, entries[claim])); }
      var e := Entry(claim, command, origin, Reserved, "", "", now, now, false);
      entries := entries[claim := e];
      return Some((true, e));
    }

    method Mark(claim: Id, state: EntryState, diagnostic: string, now: nat) returns (r: Option<Entry>)
      modifies this
      ensures r.None? <==> state == Reserved || claim !in old(entries)
      ensures r.None? ==> entries == old(entries)
      ensures r.Some? ==> MarkIn(old(entries), claim, state, diagnostic, now) == Some(entries) && r.value == entries[claim]
      ensures r.Some? ==> r.value.state == state && r.value.acked == old(entries)[claim].acked
    {
      if state == Reserved || claim !in entries { return None; }
      var e := entries[claim].(state := state, diagnostic := Clip(diagnostic), updatedAt := now);
      entries := entries[claim := e];
      return Some(e);
    }

    method Acknowledge(claim: Id, ackDiagnostic: string, now: nat) returns (r: Option<Entry>)
      modifies this
      ensures entries == AcknowledgeIn(old(entries), claim, ackDiagnostic, now)
      ensures r.Some? <==> claim in old(entries)
      ensures r.Some? ==> r.value == entries[claim] && r.value.acked && r.value.state == old(entries)[claim].state
    {
      if claim !in entries { return None; }
      var e := entries[claim];
      e := e.(acked := true, updatedAt := now,
              ackDiagnostic := if ackDiagnostic == "" then e.ackDiagnostic else Clip(ackDiagnostic));
      entries := entries[claim := e];
      return Some(e);
    }

    method RecoverReserved(now: nat)
      modifies this
      ensures entries == RecoverIn(old(entries), now)
      ensures forall k :: k in entries ==> entries[k].state != Reserved
    {
      var was := entries;
      var todo := was.Keys;
      while todo != {}
        invariant todo <= was.Keys == entries.Keys
        invariant forall k :: k in todo ==> entries[k] == was[k]
        invariant forall k :: k in was && k !in todo ==> entries[k] == RecoverEntry(was[k], now)
        decreases |todo|
      {
        var k :| k in todo;
        entries := entries[k := RecoverEntry(entries[k], now)];
        todo := todo - {k};
      }
    }

    method Prune()
      modifies this
      ensures PrunedTo(old(entries), entries, maxEntries)
    {
      hide PrunedTo, OldestFirst, SettledKeys, Taken;
      var removable := SortedSettled(entries);
      TakenIsPruned(entries, removable, maxEntries);
      var excess := if |entries| > maxEntries then |entries| - maxEntries else 0;
      entries := Without(entries, removable, Least(excess, |removable|));
    }
  }

  /** The settled keys, oldest first. */
  method SortedSettled(m: Entries) returns (removable: seq<Id>)
    ensures OldestFirst(removable, m)
    ensures forall k :: k in removable <==> k in SettledKeys(m)
  {
    removable := [];
    var todo := m.Keys;
    while todo != {}
      invariant todo <= m.Keys && OldestFirst(removable, m)
      invariant forall k :: k in removable <==> k in SettledKeys(m) && k !in todo
      decreases |todo|
    {
      var k :| k in todo;
      if Settled(m[k]) {
        removable := InsertByAge(removable, m, k);
      }
      todo := todo - {k};
    }
  }

  /** The keys among the first `n`. */
  ghost function Taken(keys: seq<Id>, n: nat): set<Id>
    requires n <= |keys|
  {
    set i | 0 <= i < n :: keys[i]
  }

  lemma TakenNext(m: Entries, keys: seq<Id>, n: nat)
    requires OldestFirst(keys, m) && n < |keys|
    ensures Taken(keys, n + 1) == Taken(keys, n) + {keys[n]} && keys[n] !in Taken(keys, n)
  {
    forall x
      ensures x in Taken(keys, n + 1) <==> x in Taken(keys, n) || x == keys[n]
    {
    }
  }

  lemma {:induction false} TakenCount(m: Entries, keys: seq<Id>, n: nat)
    requires OldestFirst(keys, m) && n <= |keys|
    ensures |Taken(keys, n)| == n
    ensures n < |keys| ==> Taken(keys, n + 1) == Taken(keys, n) + {keys[n]} && keys[n] !in Taken(keys, n)
  {
    if n == 0 {
      assert Taken(keys, 0) == {};
    } else {
      TakenCount(m, keys, n - 1);
    }
    hide Taken, OldestFirst;
    if n < |keys| { TakenNext(m, keys, n); }
  }

  /** Sorting neither loses nor repeats a settled key. */
  lemma AllTaken(m: Entries, keys: seq<Id>)
    requires OldestFirst(keys, m) && forall k :: k in keys <==> k in SettledKeys(m)
    ensures |keys| == |SettledKeys(m)|
  {
    TakenCount(m, keys, |keys|);
    assert Taken(keys, |keys|) == SettledKeys(m);
  }

  lemma TakenOldest(m: Entries, keys: seq<Id>, n: nat, k: Id, j: Id)
    requires OldestFirst(keys, m) && n <= |keys|
    requires k in Taken(keys, n) && j in keys && j !in Taken(keys, n)
    ensures m[k].updatedAt <= m[j].updatedAt
  {
    var a :| 0 <= a < n && keys[a] == k;
    var b :| 0 <= b < |keys| && keys[b] == j;
  }

  /** Dropping the `n` oldest settled keys is pruning. */
  lemma TakenIsPruned(m: Entries, keys: seq<Id>, limit: nat)
    requires OldestFirst(keys, m) && forall k :: k in keys <==> k in SettledKeys(m)
    ensures var n := Least(if |m| > limit then |m| - limit else 0, |keys|);
            PrunedTo(m, m - Taken(keys, n), limit)
  {
    var n := Least(if |m| > limit then |m| - limit else 0, |keys|);
    var r := m - Taken(keys, n);
    AllTaken(m, keys);
    TakenCount(m, keys, n);
    assert Taken(keys, n) <= m.Keys;
    assert m.Keys - r.Keys == Taken(keys, n);
    forall k | k in Taken(keys, n)
      ensures Settled(m[k])
    {
      assert k in keys;
    }
    forall k, j | k in m && k !in r && j in r && Settled(m[j])
      ensures m[k].updatedAt <= m[j].updatedAt
    {
      assert j in SettledKeys(m);
      TakenOldest(m, keys, n, k, j);
    }
  }

  /** Deletes the first `n` keys one by one. */
  method Without(m: Entries, keys: seq<Id>, n: nat) returns (r: Entries)
    requires n <= |keys|
    ensures r == m - Taken(keys, n)
  {
    r := m;
    var i := 0;
    while i < n
      invariant 0 <= i <= n
      invariant r == m - Taken(keys, i)
    {
      r := r - {keys[i]};
      assert Taken(keys, i + 1) == Taken(keys, i) + {keys[i]};
      i := i + 1;
    }
  }
}

/**
 Process-local browser presence and durable lane bindings (backend/internal/browserbinding, qa_binding.go).

 Presence is a map from worker to its live sessions, each with a random token; a binding row says which worker and
 target serve a lane. Targets are taken after normalisation.
 */
module BrowserBinding {
  import opened Prelude

  datatype Session = Session(lastSeen: nat, target: Option<Id>, token: Token, conflict: bool)

  type BySession = map<Id, Session>
  type Sessions = map<Id, BySession>

  datatype Binding = Binding(id: Id, version: nat, worker: Id, target: Id, enabled: bool)

  /** Rows of browser_lane_bindings by project and lane. */
  type Bindings = map<(nat, Id), Binding>

  /** An absent target never matches, not even another absent one. */
  predicate SameTarget(a: Option<Id>, b: Option<Id>) {
    a.Some? && a == b
  }

  // ---------------------------------------------------------------- presence

  predicate Lapsed(v: Session, now: nat, ttl: nat) {
    now > v.lastSeen && now - v.lastSeen > ttl
  }

  predicate AnyConflict(ss: BySession) {
    exists x :: x in ss && ss[x].conflict
  }

  /** A conflict that begins replaces every token of the worker; a conflict that lasts or ends replaces none. */
  function MarkConflict(worker: Id, ss: BySession, stamp: nat): BySession {
    var conflict := |ss| > 1;
    if conflict && !AnyConflict(ss)
    then map x | x in ss :: ss[x].(token := Token(stamp, worker, x), conflict := true)
    else map x | x in ss :: ss[x].(conflict := conflict)
  }

  function Live(ss: BySession, now: nat, ttl: nat): BySession {
    map x | x in ss && !Lapsed(ss[x], now, ttl) :: ss[x]
  }

  function Pruned(sessions: Sessions, now: nat, ttl: nat, stamp: nat): Sessions {
    map w | w in sessions && Live(sessions[w], now, ttl) != map[] :: MarkConflict(w, Live(sessions[w], now, ttl), stamp)
  }

  function SessionsOf(sessions: Sessions, worker: Id): BySession {
    if worker in sessions then sessions[worker] else map[]
  }

  /** What a registration or heartbeat writes for its own session. */
  function Seen(ss: BySession, worker: Id, session: Id, target: Option<Id>, now: nat, stamp: nat): BySession {
    if session in ss then
      var v := ss[session];
      ss[session := v.(lastSeen := now, target := target,
                       token := if SameTarget(v.target, target) then v.token else Token(stamp, worker, session))]
    else ss[session := Session(now, target, Token(stamp, worker, session), false)]
  }

  /** A session keeps its token exactly while it is known and shows the same target; an absent target is never the same. */
  lemma SeenIff(ss: BySession, worker: Id, session: Id, target: Option<Id>, now: nat, stamp: nat)
    ensures var seen := Seen(ss, worker, session, target, now, stamp);
            && seen.Keys == ss.Keys + {session} && (forall x :: x in ss && x != session ==> seen[x] == ss[x])
            && seen[session].lastSeen == now && seen[session].target == target
            && (seen[session].conflict <==> session in ss && ss[session].conflict)
            && seen[session].token == (if session in ss && ss[session].target.Some? && target.Some? && ss[session].target.value == target.value
                                       then ss[session].token else Token(stamp, worker, session))
  {
  }

  /** Registration: prune everyone, record the session, mark conflicts. Draws `stamp + 1 .. stamp + 3`. */
  function Registered(sessions: Sessions, worker: Id, session: Id, target: Option<Id>, now: nat, ttl: nat, stamp: nat): Sessions {
    var p := Pruned(sessions, now, ttl, stamp + 1);
    p[worker := MarkConflict(worker, Seen(SessionsOf(p, worker), worker, session, target, now, stamp + 2), stamp + 3)]
  }

  datatype Readiness = Disabled | Conflicted | Stale | Unavailable | Ready(session: Id, token: Token)

  /** What a binding projects to once presence has been pruned. */
  function Project(sessions: Sessions, b: Binding): Readiness {
    if !b.enabled then Disabled
    else
      var ss := SessionsOf(sessions, b.worker);
      if |ss| > 1 then Conflicted
      else if ss == map[] then Stale
      else
        var x := Only(ss);
        if ss[x].conflict then Conflicted
        else if !SameTarget(ss[x].target, Some(b.target)) then Unavailable
        else Ready(x, ss[x].token)
  }

  /** The key of a one-element map. */
  function Only(ss: BySession): (x: Id)
    requires |ss| == 1
    ensures ss.Keys == {x}
  {
    OneKey(ss);
    var x :| x in ss;
    x
  }

  lemma OneKey(ss: BySession)
    requires |ss| == 1
    ensures exists x :: ss.Keys == {x}
    ensures forall x, y :: x in ss && y in ss ==> x == y
  {
    var x :| x in ss;
    assert |ss.Keys| == |ss|;
    assert |ss.Keys - {x}| == 0;
    assert ss.Keys == {x};
  }

  // ---------------------------------------------------------------- binding rows

  /** No other enabled row serves the worker and target. */
  predicate TargetFree(bs: Bindings, key: (nat, Id), worker: Id, target: Id) {
    forall k :: k in bs && k != key ==> !(bs[k].enabled && bs[k].worker == worker && bs[k].target == target)
  }

  /** The write of Put; `None` is the version or target conflict. */
  function PutRow(bs: Bindings, key: (nat, Id), worker: Id, target: Id, expected: Option<nat>, nextId: Id): Option<Bindings> {
    if key !in bs then
      if expected.Some? && expected.value != 0 then None
      else if !TargetFree(bs, key, worker, target) then None
      else Some(bs[key := Binding(nextId, 1, worker, target, true)])
    else
      if expected != Some(bs[key].version) then None
      else if !TargetFree(bs, key, worker, target) then None
      else Some(bs[key := Binding(bs[key].id, bs[key].version + 1, worker, target, true)])
  }

  function DisableRow(bs: Bindings, key: (nat, Id), expected: nat): Option<Bindings> {
    if key !in bs || bs[key].version != expected then None
    else Some(bs[key := bs[key].(enabled := false, version := expected + 1)])
  }

  /** The guarded update of QA retirement: only the captured identity, at the captured version, while enabled. */
  function RetireRow(bs: Bindings, id: Id, version: nat): Bindings {
    map k | k in bs :: if bs[k].id == id && bs[k].version == version && bs[k].enabled
                       then bs[k].(enabled := false, version := version + 1) else bs[k]
  }

  /** Identities are unique and below the next fresh one, versions are positive, enabled targets are served once. */
  ghost predicate RowsOk(bs: Bindings, nextId: Id) {
    && nextId > 0
    && (forall k :: k in bs ==> 0 < bs[k].id < nextId && bs[k].version > 0)
    && (forall k, j :: k in bs && j in bs && k != j ==>
          && bs[k].id != bs[j].id
          && !(bs[k].enabled && bs[j].enabled && bs[k].worker == bs[j].worker && bs[k].target == bs[j].target))
  }

  /** Rows are never dropped or renamed, and a row that changed has a higher version. */
  ghost predicate RowsMove(bs: Bindings, bs': Bindings) {
    forall k :: k in bs ==> k in bs' && bs'[k].id == bs[k].id && bs[k].version <= bs'[k].version
                            && (bs'[k].version == bs[k].version ==> bs'[k] == bs[k])
  }

  lemma PutRowSafe(bs: Bindings, key: (nat, Id), worker: Id, target: Id, expected: Option<nat>, nextId: Id)
    requires RowsOk(bs, nextId)
    ensures var r := PutRow(bs, key, worker, target, expected, nextId);
            r.Some? ==> RowsOk(r.value, nextId + 1) && RowsMove(bs, r.value)
  {
  }

  lemma DisableRowSafe(bs: Bindings, key: (nat, Id), expected: nat, nextId: Id)
    requires RowsOk(bs, nextId)
    ensures var r := DisableRow(bs, key, expected); r.Some? ==> RowsOk(r.value, nextId) && RowsMove(bs, r.value)
  {
  }

  /** Retirement never touches a replacement: any row of another identity or version stays exactly as it is. */
  lemma RetireRowSafe(bs: Bindings, id: Id, version: nat, nextId: Id)
    requires RowsOk(bs, nextId)
    ensures var r := RetireRow(bs, id, version);
            && RowsOk(r, nextId) && RowsMove(bs, r) && r.Keys == bs.Keys
            && (forall k :: k in bs && (bs[k].id != id || bs[k].version != version) ==> r[k] == bs[k])
            && (forall k :: k in bs && bs[k].id == id && bs[k].version == version ==> !r[k].enabled)
  {
  }

  lemma RowsMoveTransitive(a: Bindings, b: Bindings, c: Bindings)
    requires RowsMove(a, b) && RowsMove(b, c)
    ensures RowsMove(a, c)
  {
  }

  // ---------------------------------------------------------------- the service

  /** Live sessions and the last token draw: process memory. */
  datatype Presence = Presence(sessions: Sessions, stamp: nat)

  /** Binding rows and the next identity: the database. */
  datatype Lanes = Lanes(rows: Bindings, nextId: Id)

  datatype World = World(presence: Presence, lanes: Lanes)

  const EMPTY := World(Presence(map[], 0), Lanes(map[], 1))

  datatype Event =
    | Register(worker: Id, session: Id, observed: Option<Id>, now: nat)
    | Check(now: nat)                              // ListWorkers, Get, and the presence checks of Put and Disable
    | Put(key: (nat, Id), worker: Id, target: Id, expected: Option<nat>)
    | Disable(key: (nat, Id), version: nat)
    | Retire(id: Id, version: nat)
    | Restart                                      // the backend process starts again: presence is lost, rows are not

  function Watch(p: Presence, e: Event, ttl: nat): Presence {
    match e
    case Register(worker, session, target, now) =>
      Presence(Registered(p.sessions, worker, session, target, now, ttl, p.stamp), p.stamp + 3)
    case Check(now) => Presence(Pruned(p.sessions, now, ttl, p.stamp + 1), p.stamp + 1)
    case Restart => p.(sessions := map[])
    case _ => p
  }

  function Write(l: Lanes, e: Event): Lanes {
    match e
    case Put(key, worker, target, expected) =>
      (match PutRow(l.rows, key, worker, target, expected, l.nextId)
       case None => l
       case Some(bs) => Lanes(bs, l.nextId + 1))
    case Disable(key, expected) =>
      (match DisableRow(l.rows, key, expected)
       case None => l
       case Some(bs) => l.(rows := bs))
    case Retire(id, version) => l.(rows := RetireRow(l.rows, id, version))
    case _ => l
  }

  function Step(w: World, e: Event, ttl: nat): World {
    World(Watch(w.presence, e, ttl), Write(w.lanes, e))
  }

  /** A restart forgets all presence, and nothing else does; a retirement changes exactly the enabled rows it captured. */
  lemma StepDoes(w: World, e: Event, ttl: nat)
    ensures var u := Step(w, e, ttl);
            && (e.Restart? ==> u.presence.sessions == map[] && u.lanes == w.lanes)
            && (e.Register? || e.Check? ==> u.lanes == w.lanes)
            && (e.Put? || e.Disable? || e.Retire? ==> u.presence == w.presence)
            && (e.Retire? ==>
                  && u.lanes.rows.Keys == w.lanes.rows.Keys && u.lanes.nextId == w.lanes.nextId
                  && forall k :: k in w.lanes.rows ==>
                       var b := w.lanes.rows[k];
                       u.lanes.rows[k] == if b.enabled && b.id == e.id && b.version == e.version
                                          then b.(enabled := false, version := b.version + 1) else b)
  {
  }

  /** All of a worker's sessions are marked when there are several; every token names the session it was drawn for. */
  ghost predicate WorkerOk(w: Id, ss: BySession, stamp: nat) {
    && ss != map[]
    && (forall x :: x in ss ==>
          && ss[x].conflict == (|ss| > 1) && ss[x].token.Token? && 0 < ss[x].token.stamp <= stamp
          && ss[x].token.worker == w && ss[x].token.session == x)
  }

  ghost predicate PresenceOk(sessions: Sessions, stamp: nat) {
    forall w :: w in sessions ==> WorkerOk(w, sessions[w], stamp)
  }

  ghost predicate Ok(w: World) {
    PresenceOk(w.presence.sessions, w.presence.stamp) && RowsOk(w.lanes.rows, w.lanes.nextId)
  }

  /** The worker has exactly one session, without conflict, showing the target under the token. */
  ghost predicate Holds(sessions: Sessions, worker: Id, session: Id, target: Id, token: Token) {
    && worker in sessions && sessions[worker].Keys == {session}
    && sessions[worker][session].token == token && sessions[worker][session].target == Some(target)
    && !sessions[worker][session].conflict
  }

  /** The session the token was drawn for no longer carries it. */
  ghost predicate Gone(sessions: Sessions, token: Token) {
    token.Token? && token.worker in sessions && token.session in sessions[token.worker] ==>
      sessions[token.worker][token.session].token != token
  }

  /** In a consistent presence a token that left its session is nowhere. */
  lemma GoneEverywhere(sessions: Sessions, stamp: nat, token: Token)
    requires PresenceOk(sessions, stamp)
    ensures Gone(sessions, token) <==> forall w, x :: w in sessions && x in sessions[w] ==> sessions[w][x].token != token
  {
    forall w, x | Gone(sessions, token) && w in sessions && x in sessions[w]
      ensures sessions[w][x].token != token
    {
      assert WorkerOk(w, sessions[w], stamp);
    }
  }

  // ---------------------------------------------------------------- what tokens prove

  lemma MarkConflictFacts(worker: Id, ss: BySession, stamp: nat)
    ensures var m := MarkConflict(worker, ss, stamp);
            && m.Keys == ss.Keys && |m| == |ss|
            && (forall x :: x in ss ==>
                  && m[x].conflict == (|ss| > 1) && m[x].target == ss[x].target && m[x].lastSeen == ss[x].lastSeen
                  && m[x].token == if |ss| > 1 && !AnyConflict(ss) then Token(stamp, worker, x) else ss[x].token)
  {
    var m := MarkConflict(worker, ss, stamp);
    assert m.Keys == ss.Keys;
    assert |m.Keys| == |m| && |ss.Keys| == |ss|;
  }

  lemma Smaller(a: BySession, b: BySession)
    requires a.Keys <= b.Keys
    ensures |a| <= |b|
  {
    assert b.Keys == a.Keys + (b.Keys - a.Keys);
    assert |a.Keys| == |a| && |b.Keys| == |b|;
  }

  /** Pruning a consistent worker draws no token at all: the survivors of a conflict are already marked. */
  lemma PruneWorker(w: Id, ss: BySession, now: nat, ttl: nat, stamp: nat, drawn: nat)
    requires WorkerOk(w, ss, drawn)
    ensures var p := MarkConflict(w, Live(ss, now, ttl), stamp);
            && (Live(ss, now, ttl) != map[] ==> WorkerOk(w, p, drawn))
            && (forall x :: x in p <==> x in ss && !Lapsed(ss[x], now, ttl))
            && (forall x :: x in p ==> p[x] == ss[x].(conflict := |p| > 1))
  {
    var live := Live(ss, now, ttl);
    MarkConflictFacts(w, live, stamp);
    Smaller(live, ss);
    if |live| > 1 {
      assert live != map[];
      var x :| x in live;
      assert live[x].conflict;
    }
  }

  lemma PruneKeepsTokens(sessions: Sessions, now: nat, ttl: nat, stamp: nat)
    requires PresenceOk(sessions, stamp)
    ensures PresenceOk(Pruned(sessions, now, ttl, stamp + 1), stamp)
    ensures PresenceOk(Pruned(sessions, now, ttl, stamp + 1), stamp + 1)
  {
    var p := Pruned(sessions, now, ttl, stamp + 1);
    forall w | w in p
      ensures WorkerOk(w, p[w], stamp) && WorkerOk(w, p[w], stamp + 1)
    {
      PruneWorker(w, sessions[w], now, ttl, stamp + 1, stamp);
    }
  }

  lemma SeenFacts(ss: BySession, worker: Id, session: Id, target: Option<Id>, now: nat, stamp: nat)
    requires ss == map[] || WorkerOk(worker, ss, stamp)
    ensures var s := Seen(ss, worker, session, target, now, stamp + 2);
            && s.Keys == ss.Keys + {session}
            && (forall x :: x in ss && x != session ==> s[x] == ss[x])
            && s[session].target == target && s[session].lastSeen == now
            && (forall x :: x in s ==> s[x].token.Token? && 0 < s[x].token.stamp <= stamp + 2
                                       && s[x].token.worker == worker && s[x].token.session == x)
  {
  }

  /** What a registration leaves of its own worker: consistent again, with nothing but the three draws added. */
  lemma RegisterWorker(ss: BySession, worker: Id, session: Id, target: Option<Id>, now: nat, stamp: nat)
    requires ss == map[] || WorkerOk(worker, ss, stamp)
    ensures WorkerOk(worker, MarkConflict(worker, Seen(ss, worker, session, target, now, stamp + 2), stamp + 3), stamp + 3)
  {
    var s := Seen(ss, worker, session, target, now, stamp + 2);
    var r := MarkConflict(worker, s, stamp + 3);
    SeenFacts(ss, worker, session, target, now, stamp);
    MarkConflictFacts(worker, s, stamp + 3);
    assert session in r;
  }

  lemma RegisterFacts(sessions: Sessions, worker: Id, session: Id, target: Option<Id>, now: nat, ttl: nat, stamp: nat)
    requires PresenceOk(sessions, stamp)
    ensures PresenceOk(Registered(sessions, worker, session, target, now, ttl, stamp), stamp + 3)
  {
    var p := Pruned(sessions, now, ttl, stamp + 1);
    PruneKeepsTokens(sessions, now, ttl, stamp);
    RegisterWorker(SessionsOf(p, worker), worker, session, target, now, stamp);
    var mine := MarkConflict(worker, Seen(SessionsOf(p, worker), worker, session, target, now, stamp + 2), stamp + 3);
    assert Registered(sessions, worker, session, target, now, ttl, stamp) == p[worker := mine];
    Insert(p, worker, mine, stamp);
  }

  lemma Insert(p: Sessions, worker: Id, mine: BySession, stamp: nat)
    requires PresenceOk(p, stamp) && WorkerOk(worker, mine, stamp + 3)
    ensures PresenceOk(p[worker := mine], stamp + 3)
  {
  }

  lemma WatchKeepsOk(p: Presence, e: Event, ttl: nat)
    requires PresenceOk(p.sessions, p.stamp)
    ensures var q := Watch(p, e, ttl); PresenceOk(q.sessions, q.stamp) && p.stamp <= q.stamp
  {
    hide Pruned, PresenceOk;
    match e
    case Register(worker, session, target, now) => RegisterFacts(p.sessions, worker, session, target, now, ttl, p.stamp);
    case Check(now) => PruneKeepsTokens(p.sessions, now, ttl, p.stamp);
    case Restart => NoPresence(p.stamp);
    case _ =>
  }

  lemma NoPresence(stamp: nat)
    ensures PresenceOk(map[], stamp)
  {
  }

  lemma WriteKeepsOk(l: Lanes, e: Event)
    requires RowsOk(l.rows, l.nextId)
    ensures var m := Write(l, e); RowsOk(m.rows, m.nextId) && RowsMove(l.rows, m.rows)
  {
    match e
    case Put(key, worker, target, expected) => PutRowSafe(l.rows, key, worker, target, expected, l.nextId);
    case Disable(key, expected) => DisableRowSafe(l.rows, key, expected, l.nextId);
    case Retire(id, version) => RetireRowSafe(l.rows, id, version, l.nextId);
    case _ =>
  }

  /**
   Every step keeps presence and rows consistent: no target served twice on one worker across all projects and lanes,
   and no row changed without a higher version.
   */
  lemma StepKeepsOk(w: World, e: Event, ttl: nat)
    requires Ok(w)
    ensures Ok(Step(w, e, ttl)) && RowsMove(w.lanes.rows, Step(w, e, ttl).lanes.rows)
  {
    WatchKeepsOk(w.presence, e, ttl);
    WriteKeepsOk(w.lanes, e);
  }

  lemma GonePruned(sessions: Sessions, now: nat, ttl: nat, stamp: nat, drawn: nat, token: Token)
    requires PresenceOk(sessions, drawn) && Gone(sessions, token)
    ensures Gone(Pruned(sessions, now, ttl, stamp), token)
  {
    if token.Token? && token.worker in sessions {
      PruneWorker(token.worker, sessions[token.worker], now, ttl, stamp, drawn);
    }
  }

  /** What a registration leaves of its own worker, over pruned presence. */
  function Arrived(p: Sessions, e: Event, stamp: nat): BySession
    requires e.Register?
  {
    MarkConflict(e.worker, Seen(SessionsOf(p, e.worker), e.worker, e.session, e.observed, e.now, stamp + 2), stamp + 3)
  }

  /** A registration over presence the token is gone from does not bring it back. */
  lemma GoneAfterArrival(p: Sessions, e: Event, stamp: nat, token: Token)
    requires e.Register? && Gone(p, token) && token.Token? && token.stamp <= stamp
    ensures Gone(p[e.worker := Arrived(p, e, stamp)], token)
  {
    MarkConflictFacts(e.worker, Seen(SessionsOf(p, e.worker), e.worker, e.session, e.observed, e.now, stamp + 2), stamp + 3);
  }

  /** A token that is gone never comes back. */
  lemma GoneForever(p: Presence, e: Event, ttl: nat, token: Token)
    requires PresenceOk(p.sessions, p.stamp) && Gone(p.sessions, token) && token.Token? && token.stamp <= p.stamp
    ensures Gone(Watch(p, e, ttl).sessions, token)
  {
    hide Pruned, MarkConflict, Seen, SessionsOf, PresenceOk;
    match e
    case Register(worker, session, target, now) =>
      GonePruned(p.sessions, now, ttl, p.stamp + 1, p.stamp, token);
      GoneAfterArrival(Pruned(p.sessions, now, ttl, p.stamp + 1), e, p.stamp, token);
    case Check(now) => GonePruned(p.sessions, now, ttl, p.stamp + 1, p.stamp, token);
    case _ =>
  }

  lemma OneSession(ss: BySession, x: Id)
    requires ss.Keys == {x}
    ensures |ss| == 1
  {
    assert |ss.Keys| == |ss|;
  }

  lemma TwoSessions(ss: BySession, x: Id, y: Id)
    requires x in ss && y in ss && x != y
    ensures |ss| > 1
  {
    assert {x, y} <= ss.Keys;
    Smaller(map k | k in {x, y} :: ss[k], ss);
    assert (map k | k in {x, y} :: ss[k]).Keys == {x, y};
  }

  /** The time a step checks presence at. */
  function Instant(e: Event): Option<nat> {
    match e
    case Register(_, _, _, now) => Some(now)
    case Check(now) => Some(now)
    case _ => None
  }

  /** The session is still inside its time to live when the step checks presence. */
  ghost predicate Fresh(sessions: Sessions, worker: Id, session: Id, e: Event, ttl: nat) {
    (e.Register? || e.Check?) && worker in sessions && session in sessions[worker] ==>
      !Lapsed(sessions[worker][session], e.now, ttl)
  }

  lemma CheckHoldsOrGone(sessions: Sessions, now: nat, ttl: nat, stamp: nat, drawn: nat, worker: Id, session: Id, target: Id, token: Token)
    requires PresenceOk(sessions, drawn) && Holds(sessions, worker, session, target, token)
    ensures var p := Pruned(sessions, now, ttl, stamp);
            if Lapsed(sessions[worker][session], now, ttl) then worker !in p && Gone(p, token)
            else Holds(p, worker, session, target, token)
  {
    var ss, p := sessions[worker], Pruned(sessions, now, ttl, stamp);
    assert WorkerOk(worker, ss, drawn);
    PruneWorker(worker, ss, now, ttl, stamp, drawn);
    var live := Live(ss, now, ttl);
    if Lapsed(ss[session], now, ttl) {
      assert live == map[];
    } else {
      assert live.Keys == {session};
      assert session in live;
      assert p[worker].Keys == {session};
      OneSession(p[worker], session);
    }
  }

  /** The only session of a worker hears from its own installation, or a second session arrives. */
  lemma AloneOrConflict(ss: BySession, worker: Id, from: Id, observed: Option<Id>, now: nat, stamp: nat, session: Id, target: Id)
    requires WorkerOk(worker, ss, stamp) && ss.Keys == {session} && ss[session].target == Some(target)
    ensures var r := MarkConflict(worker, Seen(ss, worker, from, observed, now, stamp + 2), stamp + 3);
            && session in r
            && (if from == session && observed == Some(target)
                then r.Keys == {session} && r[session].token == ss[session].token && r[session].target == observed
                  && !r[session].conflict
                else r[session].token.stamp > stamp)
  {
    if session == from {
      SeenAlone(ss, worker, observed, now, stamp, session, target);
    } else {
      SeenBeside(ss, worker, from, observed, now, stamp, session);
    }
  }

  lemma SeenAlone(ss: BySession, worker: Id, observed: Option<Id>, now: nat, stamp: nat, session: Id, target: Id)
    requires WorkerOk(worker, ss, stamp) && ss.Keys == {session} && ss[session].target == Some(target)
    ensures var r := MarkConflict(worker, Seen(ss, worker, session, observed, now, stamp + 2), stamp + 3);
            && r.Keys == {session} && r[session].target == observed && !r[session].conflict
            && (if observed == Some(target) then r[session].token == ss[session].token else r[session].token.stamp > stamp)
  {
    var s := Seen(ss, worker, session, observed, now, stamp + 2);
    assert s.Keys == {session};
    OneSession(s, session);
  }

  lemma SeenBeside(ss: BySession, worker: Id, from: Id, observed: Option<Id>, now: nat, stamp: nat, session: Id)
    requires WorkerOk(worker, ss, stamp) && ss.Keys == {session} && from != session
    ensures var r := MarkConflict(worker, Seen(ss, worker, from, observed, now, stamp + 2), stamp + 3);
            session in r && r[session].token.stamp > stamp
  {
    var s := Seen(ss, worker, from, observed, now, stamp + 2);
    OneSession(ss, session);
    assert s.Keys == {session, from} && !s[session].conflict && !s[from].conflict;
    hide Seen;
    TwoSessions(s, session, from);
  }

  lemma ArrivalHoldsOrGone(p: Sessions, e: Event, stamp: nat, worker: Id, session: Id, target: Id, token: Token)
    requires e.Register? && Holds(p, worker, session, target, token) && WorkerOk(worker, p[worker], stamp)
    ensures var r := p[e.worker := Arrived(p, e, stamp)];
            Holds(r, worker, session, target, token) || Gone(r, token)
  {
    if worker == e.worker {
      AloneOrConflict(p[worker], worker, e.session, e.observed, e.now, stamp, session, target);
    }
  }

  lemma RegisterHoldsOrGone(p: Presence, e: Event, ttl: nat, worker: Id, session: Id, target: Id, token: Token)
    requires PresenceOk(p.sessions, p.stamp) && e.Register? && Holds(p.sessions, worker, session, target, token)
    ensures var r := Watch(p, e, ttl).sessions;
            (Holds(r, worker, session, target, token) && Fresh(p.sessions, worker, session, e, ttl)) || Gone(r, token)
  {
    hide Pruned;
    var q := Pruned(p.sessions, e.now, ttl, p.stamp + 1);
    assert WorkerOk(worker, p.sessions[worker], p.stamp);
    CheckHoldsOrGone(p.sessions, e.now, ttl, p.stamp + 1, p.stamp, worker, session, target, token);
    if Lapsed(p.sessions[worker][session], e.now, ttl) {
      GoneAfterArrival(q, e, p.stamp, token);
    } else {
      PruneKeepsTokens(p.sessions, e.now, ttl, p.stamp);
      ArrivalHoldsOrGone(q, e, p.stamp, worker, session, target, token);
    }
  }

  /**
   What a token proves, one step at a time: either the worker still has just that session, unconflicted, showing that
   target under that token, and was inside its time to live when the step looked; or the token is gone.
   */
  lemma HoldsOrGone(p: Presence, e: Event, ttl: nat, worker: Id, session: Id, target: Id, token: Token)
    requires PresenceOk(p.sessions, p.stamp) && Holds(p.sessions, worker, session, target, token)
    ensures var r := Watch(p, e, ttl).sessions;
            (Holds(r, worker, session, target, token) && Fresh(p.sessions, worker, session, e, ttl)) || Gone(r, token)
  {
    match e
    case Register(_, _, _, _) => RegisterHoldsOrGone(p, e, ttl, worker, session, target, token);
    case Check(now) => CheckHoldsOrGone(p.sessions, now, ttl, p.stamp + 1, p.stamp, worker, session, target, token);
    case _ =>
  }

  // ---------------------------------------------------------------- the service

  datatype Refusal = Conflict | NotFound

  class BrowserBindingService {
    const ttl: nat
    var sessions: Sessions
    var stamp: nat
    var bindings: Bindings
    var nextId: Id

    ghost function Now(): Presence
      reads this
    {
      Presence(sessions, stamp)
    }

    ghost function Stored(): Lanes
      reads this
    {
      Lanes(bindings, nextId)
    }

    ghost predicate Valid()
      reads this
    {
      PresenceOk(sessions, stamp) && RowsOk(bindings, nextId)
    }

    constructor (ttl: nat)
      ensures World(Now(), Stored()) == EMPTY && Valid()
      ensures this.ttl == if ttl == 0 then 30 else ttl
    {
      this.ttl := if ttl == 0 then 30 else ttl;
      sessions, stamp, bindings, nextId := map[], 0, map[], 1;
    }

    method MarkConflictLocked(worker: Id)
      requires worker in sessions
      modifies this`sessions
      ensures sessions == old(sessions)[worker := MarkConflict(worker, old(sessions)[worker], stamp)]
    {
      var ss := sessions[worker];
      var conflict := |ss| > 1;
      var wasConflict := false;
      var left := ss.Keys;
      while left != {}
        invariant left <= ss.Keys
        invariant wasConflict <==> exists x :: x in ss && x !in left && ss[x].conflict
      {
        var x :| x in left;
        wasConflict := wasConflict || ss[x].conflict;
        left := left - {x};
      }
      assert wasConflict == AnyConflict(ss);
      var renew := conflict && !wasConflict;
      var out := ss;
      left := ss.Keys;
      while left != {}
        invariant left <= ss.Keys == out.Keys
        invariant forall x :: x in left ==> out[x] == ss[x]
        invariant forall x :: x in ss && x !in left ==>
                    out[x] == ss[x].(token := if renew then Token(stamp, worker, x) else ss[x].token, conflict := conflict)
      {
        var x :| x in left;
        out := out[x := ss[x].(token := if renew then Token(stamp, worker, x) else ss[x].token, conflict := conflict)];
        left := left - {x};
      }
      assert out == MarkConflict(worker, ss, stamp);
      sessions := sessions[worker := out];
    }

    /** Drops every lapsed session, then every empty worker, and marks the conflicts of the others. */
    method PruneLocked(now: nat)
      modifies this`sessions, this`stamp
      ensures stamp == old(stamp) + 1
      ensures sessions == Pruned(old(sessions), now, ttl, stamp)
    {
      hide Live, MarkConflict, Pruned;
      stamp := stamp + 1;
      ghost var was := sessions;
      var left := sessions.Keys;
      while left != {}
        invariant stamp == old(stamp) + 1
        invariant left <= was.Keys && left <= sessions.Keys
        invariant forall w :: w in left ==> sessions[w] == was[w]
        invariant sessions.Keys <= was.Keys
        invariant forall w :: w in was && w !in left ==> (w in sessions <==> w in Pruned(was, now, ttl, stamp))
        invariant forall w :: w in sessions && w !in left ==> sessions[w] == Pruned(was, now, ttl, stamp)[w]
      {
        var worker :| worker in left;
        PrunedAt(was, now, ttl, stamp, worker);
        var ss := DropLapsed(sessions[worker], now);
        if |ss| == 0 {
          sessions := sessions - {worker};
        } else {
          sessions := sessions[worker := ss];
          MarkConflictLocked(worker);
        }
        left := left - {worker};
      }
      PrunedKeys(was, now, ttl, stamp);
    }

    method DropLapsed(sessionsOf: BySession, now: nat) returns (kept: BySession)
      ensures kept == Live(sessionsOf, now, ttl)
    {
      kept := sessionsOf;
      var left := sessionsOf.Keys;
      while left != {}
        invariant left <= sessionsOf.Keys
        invariant forall x :: x in kept <==> x in sessionsOf && (x in left || !Lapsed(sessionsOf[x], now, ttl))
        invariant forall x :: x in kept ==> kept[x] == sessionsOf[x]
      {
        var x :| x in left;
        if now > sessionsOf[x].lastSeen && now - sessionsOf[x].lastSeen > ttl {
          kept := kept - {x};
        }
        left := left - {x};
      }
    }

    /** Registration and heartbeat. */
    method RegisterSession(worker: Id, session: Id, target: Option<Id>, now: nat) returns (known: bool)
      requires Valid()
      modifies this`sessions, this`stamp
      ensures Valid()
      ensures known == (worker != BLANK && session != BLANK)
      ensures Now() == if known then Watch(old(Now()), Register(worker, session, target, now), ttl) else old(Now())
    {
      hide Pruned, PresenceOk, MarkConflict, Seen, SessionsOf, RowsOk, SameTarget;
      if worker == BLANK || session == BLANK { return false; }
      RegisterFacts(sessions, worker, session, target, now, ttl, stamp);
      PruneLocked(now);
      ghost var p := sessions;
      Observe(worker, session, target, now);
      stamp := stamp + 1;
      MarkConflictLocked(worker);
      Overwrite(p, worker, Seen(SessionsOf(p, worker), worker, session, target, now, stamp - 1), sessions[worker]);
      return true;
    }

    /** Records one observation; the token survives only an unchanged target. */
    method Observe(worker: Id, session: Id, target: Option<Id>, now: nat)
      modifies this`sessions, this`stamp
      ensures stamp == old(stamp) + 1
      ensures sessions == old(sessions)[worker := Seen(SessionsOf(old(sessions), worker), worker, session, target, now, stamp)]
    {
      stamp := stamp + 1;
      var mine := if worker in sessions then sessions[worker] else map[];
      if session in mine {
        var current := mine[session];
        var token := if SameTarget(current.target, target) then current.token else Token(stamp, worker, session);
        mine := mine[session := current.(lastSeen := now, target := target, token := token)];
      } else {
        mine := mine[session := Session(now, target, Token(stamp, worker, session), false)];
      }
      sessions := sessions[worker := mine];
    }

    method RequireFreshTarget(worker: Id, target: Id, now: nat) returns (current: bool)
      requires Valid()
      modifies this`sessions, this`stamp
      ensures Valid() && Now() == Watch(old(Now()), Check(now), ttl)
      ensures current <==> Serving(sessions, worker, target)
    {
      hide Pruned, PresenceOk;
      PruneKeepsTokens(sessions, now, ttl, stamp);
      PruneLocked(now);
      var ss := if worker in sessions then sessions[worker] else map[];
      ServingMeans(sessions, worker, target);
      if |ss| != 1 { return false; }
      var x := Only(ss);
      return !ss[x].conflict && SameTarget(ss[x].target, Some(target));
    }

    method EnsureTargetFree(key: (nat, Id), worker: Id, target: Id) returns (free: bool)
      ensures free == TargetFree(bindings, key, worker, target)
    {
      free := true;
      var left := bindings.Keys;
      while left != {}
        invariant left <= bindings.Keys
        invariant free <==> forall k :: k in bindings && k !in left && k != key ==>
                    !(bindings[k].enabled && bindings[k].worker == worker && bindings[k].target == target)
      {
        var k :| k in left;
        if k != key && bindings[k].enabled && bindings[k].worker == worker && bindings[k].target == target { free := false; }
        left := left - {k};
      }
    }

    /** The transaction of Put on the rows: insert at version one, or replace at the next version. */
    method WriteRow(key: (nat, Id), worker: Id, target: Id, expected: Option<nat>) returns (written: bool)
      requires RowsOk(bindings, nextId)
      modifies this`bindings, this`nextId
      ensures RowsOk(bindings, nextId) && RowsMove(old(bindings), bindings)
      ensures written == PutRow(old(bindings), key, worker, target, expected, old(nextId)).Some?
      ensures Stored() == Write(old(Stored()), Put(key, worker, target, expected))
      ensures written ==> key in bindings && bindings[key].worker == worker && bindings[key].target == target && bindings[key].enabled
    {
      hide RowsOk, TargetFree;
      PutRowSafe(bindings, key, worker, target, expected, nextId);
      var row: Binding;
      if key !in bindings {
        if expected.Some? && expected.value != 0 { return false; }
        row := Binding(nextId, 1, worker, target, true);
      } else {
        if expected.None? || expected.value != bindings[key].version { return false; }
        row := Binding(bindings[key].id, bindings[key].version + 1, worker, target, true);
      }
      var free := EnsureTargetFree(key, worker, target);
      if !free { return false; }
      bindings, nextId := bindings[key := row], nextId + 1;
      return true;
    }

    /** Put: the presence check, then one transaction on the rows, then the projection of the written row. */
    method PutBinding(key: (nat, Id), worker: Id, target: Id, expected: Option<nat>, now: nat, later: nat) returns (written: bool)
      requires Valid()
      modifies this
      ensures Valid() && RowsMove(old(bindings), bindings)
      ensures var checked := Watch(old(Now()), Check(now), ttl);
              && written == (Serving(checked.sessions, worker, target)
                             && PutRow(old(bindings), key, worker, target, expected, old(nextId)).Some?)
              && Now() == (if written then Watch(checked, Check(later), ttl) else checked)
      ensures Stored() == if written then Write(old(Stored()), Put(key, worker, target, expected)) else old(Stored())
    {
      hide Pruned, PresenceOk, PutRow, RowsOk;
      var current := RequireFreshTarget(worker, target, now);
      if !current { return false; }
      written := WriteRow(key, worker, target, expected);
      if written {
        PruneKeepsTokens(sessions, later, ttl, stamp);
        PruneLocked(later);
      }
    }

    method DisableBinding(key: (nat, Id), version: nat, now: nat) returns (r: Option<Refusal>)
      requires Valid()
      modifies this
      ensures Valid() && RowsMove(old(bindings), bindings)
      ensures r == if key !in old(bindings) then Some(NotFound)
                   else if old(bindings)[key].version != version then Some(Conflict) else None
      ensures Stored() == Write(old(Stored()), Disable(key, version))
      ensures Now() == if r.Some? then old(Now()) else Watch(old(Now()), Check(now), ttl)
    {
      hide Pruned, PresenceOk;
      DisableRowSafe(bindings, key, version, nextId);
      if key !in bindings { return Some(NotFound); }
      if version != bindings[key].version { return Some(Conflict); }
      bindings := bindings[key := bindings[key].(enabled := false, version := version + 1)];
      PruneKeepsTokens(sessions, now, ttl, stamp);
      PruneLocked(now);
      return None;
    }

    /** RetireAcceptedTerminalQA: one guarded update for each captured identity and version. */
    method RetireCaptured(captured: seq<(Id, nat)>)
      requires RowsOk(bindings, nextId)
      modifies this`bindings
      ensures RowsOk(bindings, nextId) && RowsMove(old(bindings), bindings)
      ensures Retired(old(bindings), bindings, captured)
    {
      var i := 0;
      while i < |captured|
        invariant 0 <= i <= |captured|
        invariant RowsOk(bindings, nextId) && RowsMove(old(bindings), bindings)
        invariant Retired(old(bindings), bindings, captured[..i])
      {
        var (id, version) := captured[i];
        RetireOne(old(bindings), bindings, captured[..i], id, version, nextId);
        assert captured[..i + 1] == captured[..i] + [(id, version)];
        bindings := RetireRow(bindings, id, version);
        i := i + 1;
      }
    }
  }

  lemma PrunedAt(sessions: Sessions, now: nat, ttl: nat, stamp: nat, w: Id)
    requires w in sessions
    ensures w in Pruned(sessions, now, ttl, stamp) <==> |Live(sessions[w], now, ttl)| > 0
    ensures w in Pruned(sessions, now, ttl, stamp) ==>
              Pruned(sessions, now, ttl, stamp)[w] == MarkConflict(w, Live(sessions[w], now, ttl), stamp)
  {
    hide Live, MarkConflict;
  }

  lemma PrunedKeys(sessions: Sessions, now: nat, ttl: nat, stamp: nat)
    ensures Pruned(sessions, now, ttl, stamp).Keys <= sessions.Keys
  {
    hide Live, MarkConflict;
  }

  lemma Overwrite(p: Sessions, worker: Id, a: BySession, b: BySession)
    ensures p[worker := a][worker := b] == p[worker := b]
  {
  }

  /** The worker has a single unconflicted session showing the target. */
  ghost predicate Serving(sessions: Sessions, worker: Id, target: Id) {
    exists x, token :: Holds(sessions, worker, x, target, token)
  }

  lemma ServingMeans(sessions: Sessions, worker: Id, target: Id)
    ensures var ss := SessionsOf(sessions, worker);
            Serving(sessions, worker, target) <==>
            |ss| == 1 && !ss[Only(ss)].conflict && ss[Only(ss)].target == Some(target)
  {
    var ss := SessionsOf(sessions, worker);
    if Serving(sessions, worker, target) {
      var x, token :| Holds(sessions, worker, x, target, token);
      OneSession(ss, x);
    }
    if |ss| == 1 && !ss[Only(ss)].conflict && ss[Only(ss)].target == Some(target) {
      assert Holds(sessions, worker, Only(ss), target, ss[Only(ss)].token);
    }
  }

  /** Exactly the enabled rows still at a captured identity and version were disabled; every other row is untouched. */
  ghost predicate Retired(was: Bindings, kept: Bindings, captured: seq<(Id, nat)>) {
    && kept.Keys == was.Keys
    && (forall k :: k in was ==>
          kept[k] == if was[k].enabled && (was[k].id, was[k].version) in captured
                   then was[k].(enabled := false, version := was[k].version + 1) else was[k])
  }

  lemma RetireOne(was: Bindings, kept: Bindings, captured: seq<(Id, nat)>, id: Id, version: nat, nextId: Id)
    requires RowsOk(kept, nextId) && RowsMove(was, kept) && Retired(was, kept, captured)
    ensures var r := RetireRow(kept, id, version);
            RowsOk(r, nextId) && RowsMove(was, r) && Retired(was, r, captured + [(id, version)])
  {
    RetireRowSafe(kept, id, version, nextId);
    RowsMoveTransitive(was, kept, RetireRow(kept, id, version));
  }
}

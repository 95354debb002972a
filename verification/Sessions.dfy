/** server/session_manager.cpp: which endpoint owns which player id. */
module Sessions {
  import opened Constants
  import opened Types

  /** Times are steady-clock nanoseconds, which are signed. */
  datatype Session = Session(playerId: u16, endpoint: Endpoint, lastInputTime: int)

  datatype Table = Table(sessions: map<Endpoint, Session>, ids: map<u16, Endpoint>)

  /** The two maps are inverse to each other and ids lie in 1..MAX_PLAYERS. */
  ghost predicate Mutual(t: Table) {
    && (forall ep :: ep in t.sessions ==>
          var s := t.sessions[ep];
          s.endpoint == ep && s.playerId in t.ids && t.ids[s.playerId] == ep)
    && (forall id :: id in t.ids ==>
          1 <= id <= MAX_PLAYERS && t.ids[id] in t.sessions && t.sessions[t.ids[id]].playerId == id)
  }

  /** The least id from `from` on that is not taken, or 0. */
  function LeastFree(ids: map<u16, Endpoint>, from: u16): (id: u16)
    requires 1 <= from <= MAX_PLAYERS + 1
    ensures id == 0 || (from <= id <= MAX_PLAYERS && id !in ids)
    ensures forall i: u16 :: from <= i <= MAX_PLAYERS && (id == 0 || i < id) ==> i in ids
    decreases MAX_PLAYERS + 1 - from
  {
    if from > MAX_PLAYERS then 0 else if from !in ids then from else LeastFree(ids, from + 1)
  }

  function Touched(t: Table, ep: Endpoint, now: int): Table {
    if ep in t.sessions
    then t.(sessions := t.sessions[ep := t.sessions[ep].(lastInputTime := now)])
    else t
  }

  function IdFor(t: Table, ep: Endpoint): Option<u16> {
    if ep in t.sessions then Some(t.sessions[ep].playerId)
    else
      var id := LeastFree(t.ids, 1);
      if id == 0 then None else Some(id)
  }

  function Registered(t: Table, ep: Endpoint, now: int): Table {
    if ep in t.sessions then Touched(t, ep, now)
    else
      match IdFor(t, ep)
      case None => t
      case Some(id) => Table(t.sessions[ep := Session(id, ep, now)], t.ids[id := ep])
  }

  function Removed(t: Table, ep: Endpoint): Table {
    if ep in t.sessions
    then Table(t.sessions - {ep}, t.ids - {t.sessions[ep].playerId})
    else t
  }

  /** More than three seconds since the last join or verified input. */
  predicate TimedOut(s: Session, now: int) {
    now - s.lastInputTime > CLIENT_TIMEOUT_NS
  }

  function Expired(t: Table, now: int): set<Endpoint> {
    set ep | ep in t.sessions && TimedOut(t.sessions[ep], now)
  }

  function ExpiredIds(t: Table, now: int): set<u16> {
    set ep | ep in t.sessions && TimedOut(t.sessions[ep], now) :: t.sessions[ep].playerId
  }

  function Reaped(t: Table, now: int): Table {
    Table(t.sessions - Expired(t, now), t.ids - ExpiredIds(t, now))
  }

  class SessionManager {
    var sessions: map<Endpoint, Session>
    var idToEndpoint: map<u16, Endpoint>

    function View(): Table
      reads this
    {
      Table(sessions, idToEndpoint)
    }

    constructor ()
      ensures View() == Table(map[], map[]) && Mutual(View())
    {
      sessions, idToEndpoint := map[], map[];
    }

    method NextFreeId() returns (id: u16)
      ensures id == LeastFree(idToEndpoint, 1)
    {
      id := 1;
      while id <= MAX_PLAYERS
        invariant 1 <= id <= MAX_PLAYERS + 1
        invariant LeastFree(idToEndpoint, 1) == LeastFree(idToEndpoint, id)
      {
        if id !in idToEndpoint { return id; }
        id := id + 1;
      }
      return 0;
    }

    method RegisterOrGet(ep: Endpoint, now: int) returns (r: Option<u16>)
      requires Mutual(View())
      modifies this
      ensures Mutual(View())
      ensures View() == Registered(old(View()), ep, now)
      ensures r == IdFor(old(View()), ep)
    {
      if ep in sessions {
        sessions := sessions[ep := sessions[ep].(lastInputTime := now)];
        return Some(sessions[ep].playerId);
      }
      var id := NextFreeId();
      if id == 0 { return None; }
      sessions := sessions[ep := Session(id, ep, now)];
      idToEndpoint := idToEndpoint[id := ep];
      return Some(id);
    }

    method VerifyInput(ep: Endpoint, claimedId: u16) returns (owned: bool)
      requires Mutual(View())
      ensures owned <==> claimedId in idToEndpoint && idToEndpoint[claimedId] == ep
    {
      owned := ep in sessions && sessions[ep].playerId == claimedId;
    }

    method Touch(ep: Endpoint, now: int)
      requires Mutual(View())
      modifies this
      ensures Mutual(View())
      ensures View() == Touched(old(View()), ep, now)
    {
      if ep in sessions {
        sessions := sessions[ep := sessions[ep].(lastInputTime := now)];
      }
    }

    method RemoveByEndpoint(ep: Endpoint) returns (removed: bool)
      requires Mutual(View())
      modifies this
      ensures Mutual(View())
      ensures View() == Removed(old(View()), ep)
      ensures removed <==> ep in old(sessions)
    {
      removed := ep in sessions;
      if removed {
        idToEndpoint := idToEndpoint - {sessions[ep].playerId};
        sessions := sessions - {ep};
      }
    }

    /** Erases while iterating, and reports every reaped id once. */
    method ReapTimeouts(now: int) returns (removed: seq<u16>)
      requires Mutual(View())
      modifies this
      ensures Mutual(View())
      ensures View() == Reaped(old(View()), now)
      ensures forall id :: id in removed <==> id in ExpiredIds(old(View()), now)
      ensures forall i, j :: 0 <= i < j < |removed| ==> removed[i] != removed[j]
    {
      ghost var was := View();
      removed := [];
      var todo := sessions.Keys;
      while todo != {}
        invariant ReapedSoFar(was, View(), now, todo, removed)
        decreases |todo|
      {
        var ep :| ep in todo;
        var s := sessions[ep];
        ReapStep(was, View(), now, todo, removed, ep);
        if TimedOut(s, now) {
          removed := removed + [s.playerId];
          idToEndpoint := idToEndpoint - {s.playerId};
          sessions := sessions - {ep};
        }
        todo := todo - {ep};
      }
      ReapDone(was, View(), now, removed);
    }

    method AllEndpoints() returns (out: seq<Endpoint>)
      ensures |out| == |sessions|
      ensures forall ep :: ep in out <==> ep in sessions
      ensures forall i, j :: 0 <= i < j < |out| ==> out[i] != out[j]
    {
      out := [];
      var todo := sessions.Keys;
      while todo != {}
        invariant todo <= sessions.Keys && |out| + |todo| == |sessions|
        invariant forall ep :: ep in out <==> ep in sessions && ep !in todo
        invariant forall i, j :: 0 <= i < j < |out| ==> out[i] != out[j]
        decreases |todo|
      {
        var ep :| ep in todo;
        todo := todo - {ep};
        out := out + [ep];
      }
    }
  }

  lemma ReapedMutual(t: Table, now: int)
    requires Mutual(t)
    ensures Mutual(Reaped(t, now))
  {
    var r := Reaped(t, now);
    forall id | id in r.ids ensures r.ids[id] in r.sessions && r.sessions[r.ids[id]].playerId == id {
      assert t.sessions[t.ids[id]].playerId == id;
    }
    forall ep | ep in r.sessions ensures r.sessions[ep].playerId in r.ids && r.ids[r.sessions[ep].playerId] == ep {
      assert t.ids[t.sessions[ep].playerId] == ep;
    }
  }

  /** The reaper's loop: `todo` is still to be looked at, `removed` has been reported. */
  ghost predicate ReapedSoFar(was: Table, t: Table, now: int, todo: set<Endpoint>, removed: seq<u16>) {
    && Mutual(was) && Mutual(t)
    && todo <= t.sessions.Keys
    && (forall ep :: ep in t.sessions <==> ep in was.sessions && (ep in todo || !TimedOut(was.sessions[ep], now)))
    && (forall ep :: ep in t.sessions ==> t.sessions[ep] == was.sessions[ep])
    && (forall id :: id in removed <==> id in was.ids && was.ids[id] !in t.sessions)
    && (forall i, j :: 0 <= i < j < |removed| ==> removed[i] != removed[j])
  }

  lemma ReapStep(was: Table, t: Table, now: int, todo: set<Endpoint>, removed: seq<u16>, ep: Endpoint)
    requires ReapedSoFar(was, t, now, todo, removed) && ep in todo
    ensures var s := t.sessions[ep];
            if TimedOut(s, now)
            then ReapedSoFar(was, Removed(t, ep), now, todo - {ep}, removed + [s.playerId])
            else ReapedSoFar(was, t, now, todo - {ep}, removed)
  {
  }

  lemma ReapDone(was: Table, t: Table, now: int, removed: seq<u16>)
    requires ReapedSoFar(was, t, now, {}, removed)
    ensures t == Reaped(was, now)
    ensures forall id :: id in removed <==> id in ExpiredIds(was, now)
  {
  }

  lemma RemovedMutual(t: Table, ep: Endpoint)
    requires Mutual(t) && ep in t.sessions
    ensures var rest := Removed(t, ep);
            && Mutual(rest)
            && rest.sessions.Keys == t.sessions.Keys - {ep}
            && rest.ids.Keys == t.ids.Keys - {t.sessions[ep].playerId}
  {
  }

  lemma {:induction false} SameSize(t: Table)
    requires Mutual(t)
    ensures |t.sessions| == |t.ids|
    decreases |t.sessions|
  {
    if t.sessions.Keys == {} {
      assert forall id :: id !in t.ids;
      assert t.ids.Keys == {};
    } else {
      var ep :| ep in t.sessions;
      var rest := Removed(t, ep);
      RemovedMutual(t, ep);
      assert |rest.sessions.Keys| == |t.sessions.Keys| - 1 && |rest.ids.Keys| == |t.ids.Keys| - 1;
      SameSize(rest);
    }
  }

  lemma {:induction false} SubsetSize<T>(small: set<T>, large: set<T>)
    requires small <= large
    ensures |small| <= |large|
    ensures |small| == |large| ==> small == large
  {
    if x :| x in small {
      SubsetSize(small - {x}, large - {x});
    }
  }

  /** The ids 1..n. */
  function Ids(n: u16): (ids: set<u16>)
    ensures |ids| == n && forall i :: i in ids <==> 1 <= i <= n
  {
    if n == 0 then {} else Ids(n - 1) + {n}
  }

  lemma FullIff(t: Table)
    requires Mutual(t)
    ensures |t.ids| <= MAX_PLAYERS
    ensures LeastFree(t.ids, 1) == 0 <==> |t.ids| == MAX_PLAYERS
  {
    var id := LeastFree(t.ids, 1);
    var all := Ids(MAX_PLAYERS);
    SubsetSize(t.ids.Keys, all);
    if id == 0 {
      assert t.ids.Keys == all;
    } else {
      RoomFor(t.ids.Keys, all, id);
    }
  }

  lemma RoomFor<T>(small: set<T>, large: set<T>, x: T)
    requires small <= large && x in large && x !in small
    ensures |small| < |large|
  {
    SubsetSize(small, large - {x});
  }

  /** A newcomer is refused exactly when eight sessions are live; otherwise it gets the least unused id. */
  lemma AdmissionExact(t: Table, ep: Endpoint)
    requires Mutual(t) && ep !in t.sessions
    ensures |t.sessions| <= MAX_PLAYERS
    ensures IdFor(t, ep) == None <==> |t.sessions| == MAX_PLAYERS
    ensures IdFor(t, ep).Some? ==>
              var id := IdFor(t, ep).value;
              1 <= id <= MAX_PLAYERS && id !in t.ids && forall i: u16 :: 1 <= i < id ==> i in t.ids
  {
    SameSize(t);
    FullIff(t);
  }

  lemma AtMostEight(t: Table)
    requires Mutual(t)
    ensures |t.sessions| == |t.ids| <= MAX_PLAYERS
  {
    SameSize(t);
    FullIff(t);
  }
}

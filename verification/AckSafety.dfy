/** What it means that acks are safe, and how to reach a system state step by step. */
module Stage {
  import opened Constants
  import opened Types
  import opened Wire
  import opened WireTheorems
  import opened World
  import opened Sessions
  import opened ServerSpec
  import opened Isolation
  import opened Protocol
  import opened Broadcasting
  import GameServer

  /** Every snapshot on its way to a playing client holds the record of the id the client was given, and
      acknowledges for it only numbers the client has sent. */
  ghost predicate AcksSafe(s: System) {
    forall d :: d in s.down && d.peer in s.nodes && s.nodes[d.peer].phase == Playing ==> AckSafe(s.nodes[d.peer], d)
  }

  ghost predicate AckSafe(n: Node, d: Datagram) {
    DecodeSnapshot(d.bytes).Some? ==> OwnAcksBelow(DecodeSnapshot(d.bytes).value.players, n.c.pid, Sent(n))
  }

  // ----- a tick is always possible

  lemma {:induction false} Listing<T>(s: set<T>) returns (xs: seq<T>)
    ensures |xs| == |s| && forall x :: x in xs <==> x in s
    ensures forall i, j :: 0 <= i < j < |xs| ==> xs[i] != xs[j]
  {
    if x :| x in s {
      var rest := Listing(s - {x});
      xs := rest + [x];
    } else {
      xs := [];
    }
  }

  lemma PlayersListed(players: map<u16, ServerPlayer>)
    requires KeyedById(players)
    ensures exists order :: Enumerates(order, players)
  {
    var ids := Listing(players.Keys);
    var order := seq(|ids|, i requires 0 <= i < |ids| => (assert ids[i] in ids; players[ids[i]].state));
    forall i | 0 <= i < |ids| ensures ids[i] in players && order[i].id == ids[i] {
      assert ids[i] in ids;
    }
    forall id | id in players ensures players[id].state in order {
      var i :| 0 <= i < |ids| && ids[i] == id;
      assert order[i] == players[id].state;
    }
    assert Enumerates(order, players);
  }

  lemma SnapshotSendable(bits: real -> u32, s: ServerState, order: seq<PlayerState>)
    requires Sends(s) && Enumerates(order, s.players)
    ensures exists sent :: TickSent(bits, s, sent)
  {
    var recipients := Listing(s.table.sessions.Keys);
    var sent := ToEach(recipients, EncodeSnapshot(ToSnapshot(bits, s.tick, order)));
    GameServer.EachSessionOnce(bits, s, order, recipients, sent);
    assert TickSent(bits, s, sent);
  }

  /** Whatever state the server is in after a tick, there is something it can have sent. */
  lemma SomethingSent(bits: real -> u32, s: ServerState)
    requires Agree(s)
    ensures exists sent :: TickSent(bits, s, sent)
  {
    if Sends(s) {
      PlayersListed(s.players);
      var order :| Enumerates(order, s.players);
      SnapshotSendable(bits, s, order);
    } else {
      assert TickSent(bits, s, []);
    }
  }

  // ----- a scene

  const ALICE := Endpoint(1, 1)
  const BOB := Endpoint(2, 2)
  const LATER: int := CLIENT_TIMEOUT_NS + 1

  /** Alice is a client; Bob is anybody else. */
  const SCENE := System(BOOT, map[ALICE := NEWCOMER], multiset{}, multiset{}, map[])

  const BOBS_INPUT := InputPacket(1, 5, 1, 0)

  ghost predicate Reaches(p: Platform, t: System) {
    exists actions :: Execution(p, SCENE, actions) && After(p, SCENE, actions) == t
  }

  lemma ReachesScene(p: Platform)
    ensures Reaches(p, SCENE)
  {
    assert Execution(p, SCENE, []) && After(p, SCENE, []) == SCENE;
  }

  lemma ReachesNext(p: Platform, t: System, a: Action)
    requires Reaches(p, t) && Enabled(p, t, a)
    ensures Reaches(p, Next(p, t, a))
  {
    var actions :| Execution(p, SCENE, actions) && After(p, SCENE, actions) == t;
    var longer := actions + [a];
    assert longer[..|actions|] == actions;
    forall i | 0 <= i < |longer| ensures Enabled(p, After(p, SCENE, longer[..i]), longer[i]) {
      if i < |actions| { assert longer[..i] == actions[..i]; }
    }
    assert Execution(p, SCENE, longer) && After(p, SCENE, longer) == Next(p, t, a);
  }

  const ALICES_JOIN := Datagram(ALICE, JOIN)

  /** Alice plays as `pid` and has sent no input. */
  ghost predicate AliceWaits(s: System, pid: u16) {
    && ALICE in s.nodes && BOB !in s.nodes
    && s.nodes[ALICE].phase == Playing && s.nodes[ALICE].c.pid == pid && Sent(s.nodes[ALICE]) == 0
  }

  /** A client can be misled. */
  ghost predicate Misled(p: Platform) {
    exists t :: Reaches(p, t) && !AcksSafe(t)
  }

  lemma MisledBy(p: Platform, t: System, d: Datagram)
    requires Reaches(p, t) && ALICE in t.nodes && t.nodes[ALICE].phase == Playing
    requires d in t.down && d.peer == ALICE && !AckSafe(t.nodes[ALICE], d)
    ensures Misled(p)
  {
    assert !AcksSafe(t);
  }

  const JOINING := NEWCOMER.(phase := Joining)

  lemma JoinSent(p: Platform, s: System) returns (t: System)
    requires Reaches(p, s) && s.nodes == map[ALICE := NEWCOMER]
    ensures Reaches(p, t) && t.nodes == map[ALICE := JOINING]
    ensures t == s.(nodes := t.nodes, up := s.up + multiset{ALICES_JOIN})
  {
    assert ALICE in s.nodes && s.nodes[ALICE] == NEWCOMER;
    ReachesNext(p, s, SendJoin(ALICE));
    t := NextJoin(s, ALICE);
  }

  /** A join that reaches the server. */
  lemma JoinArrives(p: Platform, s: System, e: Endpoint, now: int) returns (t: System)
    requires Reaches(p, s) && Datagram(e, JOIN) in s.up && IdFor(s.server.table, e).Some?
    ensures Reaches(p, t) && t.server == OnJoin(s.server, e, now) && t.nodes == s.nodes
    ensures t.up == s.up - multiset{Datagram(e, JOIN)}
    ensures Datagram(e, EncodeJoinAccept(AcceptOf(IdFor(s.server.table, e).value))) in t.down
  {
    JoinReads();
    ReachesNext(p, s, ToServer(Datagram(e, JOIN), now));
    t := Next(p, s, ToServer(Datagram(e, JOIN), now));
  }

  function AcceptOf(id: u16): JoinAccept {
    JoinAccept(id, ARENA_WIDTH_WORD, ARENA_HEIGHT_WORD)
  }

  /** An accept that reaches Alice, from wherever it came. */
  lemma AcceptTaken(p: Platform, s: System, b: Bytes) returns (t: System)
    requires Reaches(p, s) && s.nodes == map[ALICE := JOINING] && Datagram(ALICE, b) in s.down
    requires DecodeJoinAccept(b).Some? && DecodeJoinAccept(b).value.playerId != 0
    ensures Reaches(p, t) && t.server == s.server && t.up == s.up
    ensures AliceWaits(t, DecodeJoinAccept(b).value.playerId)
  {
    var d := Datagram(ALICE, b);
    ReachesNext(p, s, ToClient(d, 0, true));
    t := NextToClient(p, s, d, 0, true);
  }

  lemma AcceptArrives(p: Platform, s: System, id: u16) returns (t: System)
    requires Reaches(p, s) && s.nodes == map[ALICE := JOINING] && id != 0
    requires Datagram(ALICE, EncodeJoinAccept(AcceptOf(id))) in s.down
    ensures Reaches(p, t) && t.server == s.server && t.up == s.up && AliceWaits(t, id)
  {
    AcceptReads(AcceptOf(id));
    t := AcceptTaken(p, s, EncodeJoinAccept(AcceptOf(id)));
  }

  lemma TickPasses(p: Platform, s: System) returns (t: System, sent: seq<Datagram>)
    requires Reaches(p, s) && Agree(s.server)
    ensures Reaches(p, t) && t.server == OnTick(p.ops, s.server, LATER) && t.nodes == s.nodes && t.up == s.up
    ensures Agree(t.server) && TickSent(p.bits, t.server, sent) && forall d :: d in sent ==> d in t.down
  {
    var server := OnTick(p.ops, s.server, LATER);
    TickAgrees(p.ops, s.server, LATER);
    SomethingSent(p.bits, server);
    sent :| TickSent(p.bits, server, sent);
    t := TickTaken(p, s, sent);
  }

  lemma TickTaken(p: Platform, s: System, sent: seq<Datagram>) returns (t: System)
    requires Reaches(p, s) && TickSent(p.bits, OnTick(p.ops, s.server, LATER), sent)
    ensures Reaches(p, t) && t.server == OnTick(p.ops, s.server, LATER) && t.nodes == s.nodes && t.up == s.up
    ensures forall d :: d in sent ==> d in t.down
  {
    ReachesNext(p, s, ServerTick(LATER, sent));
    t := NextTick(p.ops, s, LATER, sent);
  }

  /** Endpoints outside the system say what they like. */
  lemma StrangerSays(p: Platform, s: System, e: Endpoint, b: Bytes) returns (t: System)
    requires Reaches(p, s) && e !in s.nodes
    ensures Reaches(p, t) && t == s.(up := s.up + multiset{Datagram(e, b)})
  {
    ReachesNext(p, s, Foreign(Datagram(e, b)));
    t := Next(p, s, Foreign(Datagram(e, b)));
  }

  lemma BobsInputCounts(s: ServerState)
    requires s.table == Table(map[BOB := Session(1, BOB, LATER)], map[1 := BOB]) && s.players == map[1 := Fresh(1)]
    ensures var t := OnInput(s, BOB, BOBS_INPUT, LATER);
            && t.table == s.table && t.tick == s.tick
            && t.players == map[1 := Offer(Fresh(1), InputCmd(5, 1, 0))]
  {
    assert s.table.sessions[BOB] == Session(1, BOB, LATER);
    assert Touched(s.table, BOB, LATER).sessions == s.table.sessions;
  }

  /** Alice is back under another id, and player 1 is Bob's, with input 5 acknowledged. */
  ghost predicate Overtaken(s: ServerState, ticks: u32) {
    && s.tick == ticks
    && ViewOf(s, ALICE).Live? && ViewOf(s, ALICE).lastHeard == LATER
    && ViewOf(s, BOB).Live? && ViewOf(s, BOB).lastHeard == LATER && ViewOf(s, BOB).id == 1
    && ViewOf(s, BOB).player.state.lastProcessedInputSeq == 5
  }

  lemma SecondFree(ids: map<u16, Endpoint>)
    requires ids.Keys == {1}
    ensures LeastFree(ids, 1) == 2
  {
    assert LeastFree(ids, 1) == LeastFree(ids, 2);
  }

  lemma AliceComesSecond(s: ServerState)
    requires Agree(s) && s.table == Table(map[BOB := Session(1, BOB, LATER)], map[1 := BOB])
    requires s.players.Keys == {1} && s.players[1].state.lastProcessedInputSeq == 5
    ensures IdFor(s.table, ALICE) == Some(2)
    ensures Overtaken(OnJoin(s, ALICE, LATER), s.tick) && Agree(OnJoin(s, ALICE, LATER))
  {
    SecondFree(s.table.ids);
    JoinAgrees(s, ALICE, LATER);
  }

  /** A session heard at `LATER` survives a tick at `LATER`, and keeps its id and its ack. */
  lemma TickSpares(ops: VectorOps, s: ServerState, e: Endpoint)
    requires Agree(s) && ViewOf(s, e).Live? && ViewOf(s, e).lastHeard == LATER
    ensures var v, r := ViewOf(s, e), ViewOf(OnTick(ops, s, LATER), e);
            && r.Live? && r.lastHeard == LATER && r.id == v.id
            && r.player.state.lastProcessedInputSeq == v.player.state.lastProcessedInputSeq
  {
    TickIsolated(ops, s, e, LATER);
    ServerMovesAsClient(ops, ViewOf(s, e).player);
  }

  lemma TickLeavesOvertaken(ops: VectorOps, s: ServerState, ticks: u32)
    requires Agree(s) && Overtaken(s, ticks) && ticks + 1 < TWO32
    ensures Overtaken(OnTick(ops, s, LATER), ticks + 1)
  {
    TickSpares(ops, s, ALICE);
    TickSpares(ops, s, BOB);
    GameServer.TickCounts(ops, s, LATER);
  }

  lemma RecordMisleads(bits: real -> u32, s: ServerState, order: seq<PlayerState>, n: Node, d: Datagram)
    requires Agree(s) && Overtaken(s, 3) && Enumerates(order, s.players) && n.c.pid == 1 && Sent(n) == 0
    requires d.bytes == EncodeSnapshot(ToSnapshot(bits, s.tick, order))
    ensures !AckSafe(n, d)
  {
    SnapshotReads(bits, s, order);
    assert s.players[1] == ViewOf(s, BOB).player;
    var i :| 0 <= i < |order| && order[i] == s.players[1].state;
    var records := ToSnapshot(bits, s.tick, order).players;
    assert records[i].id == 1 && records[i].lastSeq == 5;
  }

  /** The snapshot of the third tick tells Alice that input 5 of player 1 has been processed. */
  lemma SnapshotMisleads(bits: real -> u32, s: ServerState, sent: seq<Datagram>, n: Node)
    requires Agree(s) && Overtaken(s, 3) && TickSent(bits, s, sent) && n.c.pid == 1 && Sent(n) == 0
    ensures exists d :: d in sent && d.peer == ALICE && !AckSafe(n, d)
  {
    LivePlayers(s);
    assert Sends(s) && ALICE in s.table.sessions;
    var order :| Enumerates(order, s.players) && SnapshotToAll(bits, s, order, sent);
    var j :| 0 <= j < |sent| && sent[j].peer == ALICE;
    RecordMisleads(bits, s, order, n, sent[j]);
    assert sent[j] in sent;
  }

  lemma InputArrives(p: Platform, s: System) returns (t: System)
    requires Reaches(p, s) && Datagram(BOB, EncodeInput(BOBS_INPUT)) in s.up
    ensures Reaches(p, t) && t.nodes == s.nodes && t.server == OnInput(s.server, BOB, BOBS_INPUT, LATER)
    ensures t.up == s.up - multiset{Datagram(BOB, EncodeInput(BOBS_INPUT))}
  {
    var d := Datagram(BOB, EncodeInput(BOBS_INPUT));
    InputInverse(d.bytes, BOBS_INPUT);
    NotBoth(d.bytes);
    ReachesNext(p, s, ToServer(d, LATER));
    t := Next(p, s, ToServer(d, LATER));
  }

  lemma MisledOvertaken(p: Platform, t: System, sent: seq<Datagram>)
    requires Reaches(p, t) && Agree(t.server) && AliceWaits(t, 1) && Overtaken(t.server, 3)
    requires TickSent(p.bits, t.server, sent) && forall d :: d in sent ==> d in t.down
    ensures Misled(p)
  {
    SnapshotMisleads(p.bits, t.server, sent, t.nodes[ALICE]);
    var d :| d in sent && d.peer == ALICE && !AckSafe(t.nodes[ALICE], d);
    MisledBy(p, t, d);
  }

  /** From here on Alice only has to wait for the snapshot. */
  lemma OvertakenMisleads(p: Platform, s: System, ticks: u32)
    requires Reaches(p, s) && Agree(s.server) && AliceWaits(s, 1) && Overtaken(s.server, ticks) && ticks < 3
    ensures Misled(p)
    decreases 3 - ticks
  {
    TickLeavesOvertaken(p.ops, s.server, ticks);
    var t, sent := TickPasses(p, s);
    if ticks == 2 { MisledOvertaken(p, t, sent); } else { OvertakenMisleads(p, t, ticks + 1); }
  }

  lemma InvIsSafe(s: System)
    requires Inv(s)
    ensures AcksSafe(s)
  {
    forall d | d in s.down && d.peer in s.nodes && s.nodes[d.peer].phase == Playing
      ensures AckSafe(s.nodes[d.peer], d)
    {
      var n := s.nodes[d.peer];
      assert ClientInv(s, d.peer);
      if DecodeSnapshot(d.bytes).Some? { BlankReads(DecodeSnapshot(d.bytes).value.players, n.c.pid, Sent(n)); }
    }
  }
}

/** A join request that arrives twice. */
module Duplication {
  import opened Types
  import opened Wire
  import opened World
  import opened Sessions
  import opened ServerSpec
  import opened Protocol
  import opened Stage
  import GameServer

  function AliceJoined(): ServerState { OnJoin(BOOT, ALICE, 0) }

  function AliceGone(ops: VectorOps): ServerState { OnTick(ops, AliceJoined(), LATER) }

  function BobJoined(ops: VectorOps): ServerState { OnJoin(AliceGone(ops), BOB, LATER) }

  function BobPlays(ops: VectorOps): ServerState { OnInput(BobJoined(ops), BOB, BOBS_INPUT, LATER) }

  function AliceBack(ops: VectorOps): ServerState { OnJoin(BobPlays(ops), ALICE, LATER) }

  lemma JoinRepeated(p: Platform, s: System) returns (t: System)
    requires Reaches(p, s) && ALICES_JOIN in s.up && p.mayRepeat(JOIN)
    ensures Reaches(p, t) && t == s.(up := s.up + multiset{ALICES_JOIN})
  {
    ReachesNext(p, s, RepeatUp(ALICES_JOIN));
    t := Next(p, s, RepeatUp(ALICES_JOIN));
  }

  lemma JoinTwice(p: Platform) returns (t: System)
    requires p.mayRepeat(JOIN)
    ensures Reaches(p, t) && t.server == BOOT && t.nodes == map[ALICE := JOINING]
    ensures t.up == multiset{ALICES_JOIN, ALICES_JOIN} && t.down == multiset{} && t.given == map[]
  {
    ReachesScene(p);
    t := JoinSent(p, SCENE);
    t := JoinRepeated(p, t);
  }

  /** The first copy is answered, and Alice plays. */
  lemma AlicePlays(p: Platform) returns (t: System)
    requires p.mayRepeat(JOIN)
    ensures Reaches(p, t) && t.server == AliceJoined() && AliceWaits(t, 1) && ALICES_JOIN in t.up
  {
    t := JoinTwice(p);
    assert IdFor(t.server.table, ALICE) == Some(1);
    t := JoinArrives(p, t, ALICE, 0);
    t := AcceptArrives(p, t, 1);
  }

  ghost predicate OnlyAlice(s: ServerState) {
    Agree(s) && s.table.sessions == map[ALICE := Session(1, ALICE, 0)] && s.tick == 0
  }

  lemma AliceIsFirst()
    ensures OnlyAlice(AliceJoined())
  {
    JoinAgrees(BOOT, ALICE, 0);
  }

  lemma OnlyAliceReaped(ops: VectorOps, s: ServerState)
    requires OnlyAlice(s)
    ensures var t := OnTick(ops, s, LATER);
            t.table == Table(map[], map[]) && t.players == map[] && t.tick == 1 && Agree(t)
  {
    assert Expired(s.table, LATER) == s.table.sessions.Keys;
    AllReaped(ops, s);
    GameServer.TickCounts(ops, s, LATER);
    TickAgrees(ops, s, LATER);
  }

  lemma AliceTimesOut(ops: VectorOps)
    ensures AliceGone(ops).table == Table(map[], map[]) && AliceGone(ops).players == map[]
    ensures AliceGone(ops).tick == 1 && Agree(AliceGone(ops))
  {
    AliceIsFirst();
    OnlyAliceReaped(ops, AliceJoined());
  }

  lemma AllReaped(ops: VectorOps, s: ServerState)
    requires Agree(s) && Expired(s.table, LATER) == s.table.sessions.Keys
    ensures OnTick(ops, s, LATER).table == Table(map[], map[]) && OnTick(ops, s, LATER).players == map[]
  {
    TickAgrees(ops, s, LATER);
    var t := OnTick(ops, s, LATER);
    assert t.table.sessions == map[];
    assert t.table.ids.Keys == {} && t.players.Keys == {};
  }

  lemma BobJoins(ops: VectorOps)
    ensures BobJoined(ops).table == Table(map[BOB := Session(1, BOB, LATER)], map[1 := BOB])
    ensures BobJoined(ops).players == map[1 := Fresh(1)]
    ensures BobJoined(ops).tick == 1 && Agree(BobJoined(ops))
  {
    AliceTimesOut(ops);
    JoinAgrees(AliceGone(ops), BOB, LATER);
  }

  lemma BobTakesOver(ops: VectorOps)
    ensures BobPlays(ops).table == Table(map[BOB := Session(1, BOB, LATER)], map[1 := BOB])
    ensures BobPlays(ops).players == map[1 := Offer(Fresh(1), InputCmd(5, 1, 0))]
    ensures BobPlays(ops).tick == 1 && Agree(BobPlays(ops))
  {
    BobJoins(ops);
    InputAgrees(BobJoined(ops), BOB, BOBS_INPUT, LATER);
    BobsInputCounts(BobJoined(ops));
  }

  lemma AliceReturns(ops: VectorOps)
    ensures IdFor(BobPlays(ops).table, ALICE) == Some(2)
    ensures Overtaken(AliceBack(ops), 1) && Agree(AliceBack(ops))
  {
    BobTakesOver(ops);
    AliceComesSecond(BobPlays(ops));
  }

  lemma AliceLost(p: Platform) returns (t: System)
    requires p.mayRepeat(JOIN)
    ensures Reaches(p, t) && AliceWaits(t, 1) && t.server == AliceGone(p.ops) && ALICES_JOIN in t.up
  {
    t := AlicePlays(p);
    AliceIsFirst();
    var sent;
    t, sent := TickPasses(p, t);
  }

  lemma BobOvertakes(p: Platform) returns (t: System)
    requires p.mayRepeat(JOIN)
    ensures Reaches(p, t) && AliceWaits(t, 1) && t.server == BobPlays(p.ops) && ALICES_JOIN in t.up
  {
    t := AliceLost(p);
    AliceTimesOut(p.ops);
    t := StrangerSays(p, t, BOB, JOIN);
    assert IdFor(t.server.table, BOB) == Some(1);
    t := JoinArrives(p, t, BOB, LATER);
    t := StrangerSays(p, t, BOB, EncodeInput(BOBS_INPUT));
    t := InputArrives(p, t);
  }

  /** With join requests repeated an execution misleads a client: Alice, admitted as player 1, is reaped; Bob
      becomes player 1 and sends input 5; the second copy of Alice's request gets her session back as player
      2; and the next snapshot acknowledges input 5 to her, who still is player 1 and has sent nothing. */
  lemma RepeatedJoinMisleads(p: Platform)
    requires p.mayRepeat(JOIN)
    ensures exists actions :: Execution(p, SCENE, actions) && !AcksSafe(After(p, SCENE, actions))
  {
    var t := BobOvertakes(p);
    AliceReturns(p.ops);
    t := JoinArrives(p, t, ALICE, LATER);
    OvertakenMisleads(p, t, 1);
  }
}

/** Datagrams that reach a client from somebody else than the server. */
module Strangers {
  import opened Constants
  import opened Types
  import opened Wire
  import opened World
  import opened Sessions
  import opened ServerSpec
  import opened Isolation
  import opened Protocol
  import opened Stage
  import GameServer

  lemma StraySent(p: Platform, s: System, b: Bytes) returns (t: System)
    requires Reaches(p, s) && ALICE in s.nodes && p.mayStray(b)
    ensures Reaches(p, t) && t == s.(down := s.down + multiset{Datagram(ALICE, b)})
  {
    ReachesNext(p, s, Stray(Datagram(ALICE, b)));
    t := Next(p, s, Stray(Datagram(ALICE, b)));
  }

  // ----- a snapshot

  /** The players 1..n are taken by strangers. */
  ghost predicate Crowded(t: Table, n: nat) {
    && n <= MAX_PLAYERS && (forall i: u16 :: i in t.ids <==> 1 <= i <= n)
    && forall ep :: ep in t.sessions ==> ep.ip == 2 && ep.port <= n
  }

  lemma LeastAfter(ids: map<u16, Endpoint>, n: nat)
    requires n < MAX_PLAYERS && forall i: u16 :: i in ids <==> 1 <= i <= n
    ensures LeastFree(ids, 1) == n + 1
  {
    var free := LeastFree(ids, 1);
    assert free != 0 by { assert n + 1 !in ids; }
  }

  lemma NextInCrowd(t: Table, n: nat, e: Endpoint)
    requires Crowded(t, n) && n < MAX_PLAYERS && e !in t.sessions
    ensures IdFor(t, e) == Some(n + 1)
  {
    LeastAfter(t.ids, n);
  }

  lemma CrowdGrows(t: Table, n: nat, e: Endpoint)
    requires Crowded(t, n) && n < MAX_PLAYERS && e == Endpoint(2, n + 1)
    ensures Crowded(Table(t.sessions[e := Session(n + 1, e, 0)], t.ids[n + 1 := e]), n + 1)
  {
  }

  lemma NewcomerShape(s: ServerState, e: Endpoint, id: u16)
    requires e !in s.table.sessions && IdFor(s.table, e) == Some(id)
    ensures OnJoin(s, e, 0).table == Table(s.table.sessions[e := Session(id, e, 0)], s.table.ids[id := e])
  {
  }

  lemma StrangerJoins(p: Platform, s: System, e: Endpoint) returns (t: System)
    requires Reaches(p, s) && e !in s.nodes && IdFor(s.server.table, e).Some?
    ensures Reaches(p, t) && t.nodes == s.nodes && t.server == OnJoin(s.server, e, 0)
  {
    t := StrangerSays(p, s, e, JOIN);
    t := JoinArrives(p, t, e, 0);
  }

  lemma NobodyYet()
    ensures Crowded(BOOT.table, 0)
  {
  }

  lemma OneMoreStranger(p: Platform, s: System, n: nat) returns (t: System)
    requires Reaches(p, s) && s.nodes == map[ALICE := NEWCOMER] && Crowded(s.server.table, n) && n < MAX_PLAYERS
    ensures Reaches(p, t) && t.nodes == map[ALICE := NEWCOMER] && Crowded(t.server.table, n + 1)
  {
    var e := Endpoint(2, n + 1);
    NextInCrowd(s.server.table, n, e);
    CrowdGrows(s.server.table, n, e);
    NewcomerShape(s.server, e, n + 1);
    t := StrangerJoins(p, s, e);
  }

  lemma {:induction false} Crowd(p: Platform, n: nat) returns (t: System)
    requires n < MAX_PLAYERS
    ensures Reaches(p, t) && t.nodes == map[ALICE := NEWCOMER] && Crowded(t.server.table, n)
  {
    if n == 0 {
      ReachesScene(p);
      NobodyYet();
      t := SCENE;
    } else {
      t := Crowd(p, n - 1);
      t := OneMoreStranger(p, t, n - 1);
    }
  }

  lemma RoomForAlice(t: Table, n: nat)
    requires Crowded(t, n) && n < MAX_PLAYERS
    ensures IdFor(t, ALICE) == Some(n + 1)
  {
    assert ALICE !in t.sessions by { assert ALICE.ip != 2; }
    NextInCrowd(t, n, ALICE);
  }

  lemma AliceAfterCrowd(p: Platform, s: System, n: nat) returns (t: System)
    requires Reaches(p, s) && s.nodes == map[ALICE := NEWCOMER] && Crowded(s.server.table, n) && n < MAX_PLAYERS
    ensures Reaches(p, t) && AliceWaits(t, n + 1)
  {
    RoomForAlice(s.server.table, n);
    t := AliceServed(p, s, n + 1);
  }

  lemma AliceServed(p: Platform, s: System, id: u16) returns (t: System)
    requires Reaches(p, s) && s.nodes == map[ALICE := NEWCOMER] && IdFor(s.server.table, ALICE) == Some(id) && id != 0
    ensures Reaches(p, t) && AliceWaits(t, id)
  {
    t := JoinSent(p, s);
    t := JoinArrives(p, t, ALICE, 0);
    t := AcceptArrives(p, t, id);
  }

  /** Any of the eight ids can become Alice's. */
  lemma AliceGets(p: Platform, id: u16) returns (t: System)
    requires 1 <= id <= MAX_PLAYERS
    ensures Reaches(p, t) && AliceWaits(t, id)
  {
    var n: nat := id - 1;
    t := Crowd(p, n);
    t := AliceAfterCrowd(p, t, n);
  }

  /** A stranger's snapshot that lacks one of the ids, or acknowledges something for it, misleads its owner. */
  lemma StraySnapshotMisleads(p: Platform, b: Bytes)
    requires p.mayStray(b) && DecodeSnapshot(b).Some? && !Blank(DecodeSnapshot(b).value.players)
    ensures Misled(p)
  {
    var id: u16 :| 1 <= id <= MAX_PLAYERS && !OwnAcksBelow(DecodeSnapshot(b).value.players, id, 0);
    var t := AliceGets(p, id);
    t := StraySent(p, t, b);
    MisledBy(p, t, Datagram(ALICE, b));
  }

  // ----- an accept

  lemma AliceSecond(s: ServerState)
    requires s == OnInput(OnJoin(BOOT, BOB, LATER), BOB, BOBS_INPUT, LATER)
    ensures Agree(s) && s.tick == 0 && IdFor(s.table, ALICE) == Some(2)
    ensures Overtaken(OnJoin(s, ALICE, LATER), 0) && Agree(OnJoin(s, ALICE, LATER))
  {
    var joined := OnJoin(BOOT, BOB, LATER);
    JoinAgrees(BOOT, BOB, LATER);
    InputAgrees(joined, BOB, BOBS_INPUT, LATER);
    BobsInputCounts(joined);
    AliceComesSecond(s);
  }

  /** Bob is player 1 and has sent input 5, Alice is player 2 but has not been told. */
  lemma BobFirst(p: Platform) returns (t: System)
    ensures Reaches(p, t) && t.nodes == map[ALICE := JOINING]
    ensures Agree(t.server) && Overtaken(t.server, 0)
  {
    ReachesScene(p);
    t := StrangerSays(p, SCENE, BOB, JOIN);
    assert IdFor(t.server.table, BOB) == Some(1);
    t := JoinArrives(p, t, BOB, LATER);
    t := StrangerSays(p, t, BOB, EncodeInput(BOBS_INPUT));
    t := InputArrives(p, t);
    AliceSecond(t.server);
    t := JoinSent(p, t);
    t := JoinArrives(p, t, ALICE, LATER);
  }

  /** The only player is Alice's, and it is player 1. */
  ghost predicate Alone(s: ServerState, ticks: u32) {
    && s.tick == ticks && s.players.Keys <= {1}
    && ViewOf(s, ALICE).Live? && ViewOf(s, ALICE).lastHeard == LATER
  }

  lemma AliceFirstServed(s: ServerState)
    requires s == OnJoin(BOOT, ALICE, LATER)
    ensures IdFor(BOOT.table, ALICE) == Some(1) && Agree(s) && Alone(s, 0)
  {
    JoinAgrees(BOOT, ALICE, LATER);
  }

  lemma AliceFirst(p: Platform) returns (t: System)
    ensures Reaches(p, t) && t.nodes == map[ALICE := JOINING]
    ensures Agree(t.server) && Alone(t.server, 0)
  {
    ReachesScene(p);
    t := JoinSent(p, SCENE);
    AliceFirstServed(OnJoin(BOOT, ALICE, LATER));
    t := JoinArrives(p, t, ALICE, LATER);
  }

  lemma TickLeavesAlone(ops: VectorOps, s: ServerState, ticks: u32)
    requires Agree(s) && Alone(s, ticks) && ticks + 1 < TWO32
    ensures Alone(OnTick(ops, s, LATER), ticks + 1)
  {
    TickSpares(ops, s, ALICE);
    GameServer.TickCounts(ops, s, LATER);
    assert OnTick(ops, s, LATER).players.Keys <= s.players.Keys;
  }

  lemma RecordMissing(bits: real -> u32, s: ServerState, order: seq<PlayerState>, n: Node, d: Datagram)
    requires Agree(s) && Alone(s, 3) && Enumerates(order, s.players) && n.c.pid != 1
    requires d.bytes == EncodeSnapshot(ToSnapshot(bits, s.tick, order))
    ensures !AckSafe(n, d)
  {
    SnapshotReads(bits, s, order);
    var records := ToSnapshot(bits, s.tick, order).players;
    forall i | 0 <= i < |records| ensures records[i].id == 1 {
      assert order[i].id in s.players;
    }
  }

  lemma SnapshotLacks(bits: real -> u32, s: ServerState, sent: seq<Datagram>, n: Node)
    requires Agree(s) && Alone(s, 3) && TickSent(bits, s, sent) && n.c.pid != 1
    ensures exists d :: d in sent && d.peer == ALICE && !AckSafe(n, d)
  {
    LivePlayers(s);
    assert Sends(s) && ALICE in s.table.sessions;
    var order :| Enumerates(order, s.players) && SnapshotToAll(bits, s, order, sent);
    var j :| 0 <= j < |sent| && sent[j].peer == ALICE;
    RecordMissing(bits, s, order, n, sent[j]);
    assert sent[j] in sent;
  }

  lemma MisledAlone(p: Platform, t: System, sent: seq<Datagram>, pid: u16)
    requires Reaches(p, t) && Agree(t.server) && AliceWaits(t, pid) && pid != 1 && Alone(t.server, 3)
    requires TickSent(p.bits, t.server, sent) && forall d :: d in sent ==> d in t.down
    ensures Misled(p)
  {
    SnapshotLacks(p.bits, t.server, sent, t.nodes[ALICE]);
    var d :| d in sent && d.peer == ALICE && !AckSafe(t.nodes[ALICE], d);
    MisledBy(p, t, d);
  }

  lemma AloneMisleads(p: Platform, s: System, pid: u16, ticks: u32)
    requires Reaches(p, s) && Agree(s.server) && AliceWaits(s, pid) && pid != 1 && Alone(s.server, ticks) && ticks < 3
    ensures Misled(p)
    decreases 3 - ticks
  {
    TickLeavesAlone(p.ops, s.server, ticks);
    var t, sent := TickPasses(p, s);
    if ticks == 2 { MisledAlone(p, t, sent, pid); } else { AloneMisleads(p, t, pid, ticks + 1); }
  }

  /** A stranger's accept misleads whoever waits for one: named player 1, Alice takes Bob's acks for hers; named
      anything else, she finds no record of hers. */
  lemma StrayAcceptMisleads(p: Platform, b: Bytes)
    requires p.mayStray(b) && DecodeJoinAccept(b).Some? && DecodeJoinAccept(b).value.playerId != 0
    ensures Misled(p)
  {
    var pid := DecodeJoinAccept(b).value.playerId;
    if pid == 1 {
      var t := BobFirst(p);
      t := StraySent(p, t, b);
      t := AcceptTaken(p, t, b);
      OvertakenMisleads(p, t, 0);
    } else {
      var t := AliceFirst(p);
      t := StraySent(p, t, b);
      t := AcceptTaken(p, t, b);
      AloneMisleads(p, t, pid, 0);
    }
  }
}

/** Exactly when acks are safe. */
module AckSafety {
  import opened Wire
  import opened Protocol
  import opened Stage
  import opened Duplication
  import opened Strangers

  /** Acks are safe in every execution exactly when no join request is delivered twice and nobody can send clients
      anything but harmless datagrams. */
  lemma AcksSafeIff(p: Platform)
    ensures (forall s, actions :: Start(s) && Execution(p, s, actions) ==> AcksSafe(After(p, s, actions)))
            <==> !p.mayRepeat(JOIN) && forall b :: p.mayStray(b) ==> Harmless(b)
  {
    if Benign(p) {
      forall s, actions | Start(s) && Execution(p, s, actions) ensures AcksSafe(After(p, s, actions)) {
        ExecutionKeepsInv(p, s, actions);
        InvIsSafe(After(p, s, actions));
      }
    } else {
      HostileMisleads(p);
      var t :| Reaches(p, t) && !AcksSafe(t);
      assert Start(SCENE);
    }
  }

  lemma HostileMisleads(p: Platform)
    requires !Benign(p)
    ensures Misled(p)
  {
    if p.mayRepeat(JOIN) {
      RepeatedJoinMisleads(p);
      var actions :| Execution(p, SCENE, actions) && !AcksSafe(After(p, SCENE, actions));
      assert Reaches(p, After(p, SCENE, actions));
    } else {
      var b :| p.mayStray(b) && !Harmless(b);
      if DecodeSnapshot(b).Some? && !Blank(DecodeSnapshot(b).value.players) {
        StraySnapshotMisleads(p, b);
      } else {
        StrayAcceptMisleads(p, b);
      }
    }
  }
}

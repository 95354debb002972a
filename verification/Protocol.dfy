/** The whole system: clients, server, and a network that loses, delays, reorders and repeats datagrams.
Everything in transit is bytes. */
module Protocol {
  import opened Constants
  import opened Types
  import opened Wire
  import opened WireTheorems
  import opened Motion
  import opened Prediction
  import opened World
  import opened InputRegister
  import opened Sessions
  import opened ServerSpec
  import opened Isolation
  import opened ClientSpec
  import GameServer

  /** What stands for the vector operations, for the two directions of the binary32 conversion, and for the
      surroundings: which datagrams to the server the network may deliver more than once, and which ones anybody
      at all may send to a client. Datagrams to a client may always be repeated. */
  datatype Platform = Platform(
    ops: VectorOps, bits: real -> u32, value: u32 -> real, mayRepeat: Bytes -> bool, mayStray: Bytes -> bool)

  datatype Phase = Idle | Joining | Playing | Left

  /** A client and the history of its inputs: which were retired by an ack, which were aged out, and every
      ack it has processed for itself. */
  datatype Node = Node(phase: Phase, c: ClientState, retired: set<u32>, aged: set<u32>, acks: set<u32>)

  /** `up` and `down` hold datagrams in transit, with the client's endpoint as peer. `given` remembers the
      id each endpoint was first admitted under. Endpoints outside `nodes` may send the server anything at all;
      a client does not look at who sent what it receives, so what they may send to clients is `mayStray`. */
  datatype System = System(
    server: ServerState, nodes: map<Endpoint, Node>,
    up: multiset<Datagram>, down: multiset<Datagram>, given: map<Endpoint, u16>)

  const JOIN: Bytes := EncodeJoinRequest(JoinRequest(PROTOCOL_VERSION))

  const NEWCOMER := Node(Idle, ClientState(0, [], CENTRE, map[], map[], map[]), {}, {}, {})

  function FromRecord(value: u32 -> real, r: PlayerRecord): PlayerState {
    PlayerState(r.id, Vec2(value(r.x), value(r.y)), Vec2(value(r.vx), value(r.vy)), r.lastSeq)
  }

  function FromSnapshot(value: u32 -> real, s: Snapshot): seq<PlayerState> {
    seq(|s.players|, i requires 0 <= i < |s.players| => FromRecord(value, s.players[i]))
  }

  /** What the main loop sends: the direction, the measured frame time, the two readings of the clock, and whether
      prediction is on. */
  datatype Key = Key(mx: i8, my: i8, dt: real, sendMs: u64, nowMs: u64, predict: bool)

  datatype Action =
    | SendJoin(e: Endpoint)
    | Foreign(d: Datagram)
    | LoseUp(d: Datagram)
    | LoseDown(d: Datagram)
    | RepeatUp(d: Datagram)
    | RepeatDown(d: Datagram)
    | Stray(d: Datagram)
    | ToServer(d: Datagram, now: int)
    | ServerTick(now: int, sent: seq<Datagram>)
    | ToClient(d: Datagram, recvMs: u64, predict: bool)
    | PlayerInput(e: Endpoint, key: Key)
    | Leave(e: Endpoint)
    | GiveUp(e: Endpoint)

  /** An endpoint sends one join request; input numbers have not wrapped. */
  ghost predicate Enabled(p: Platform, s: System, a: Action) {
    match a
    case SendJoin(e) => e in s.nodes && s.nodes[e].phase == Idle
    case Foreign(d) => d.peer !in s.nodes
    case LoseUp(d) => d in s.up
    case LoseDown(d) => d in s.down
    case RepeatUp(d) => d in s.up && p.mayRepeat(d.bytes)
    case RepeatDown(d) => d in s.down
    case Stray(d) => d.peer in s.nodes && p.mayStray(d.bytes)
    case ToServer(d, now) => d in s.up
    case ServerTick(now, sent) => TickSent(p.bits, OnTick(p.ops, s.server, now), sent)
    case ToClient(d, recvMs, predict) => d in s.down
    case PlayerInput(e, key) =>
      e in s.nodes && s.nodes[e].phase == Playing && |s.nodes[e].c.log| + 2 < TWO32
    case Leave(e) => e in s.nodes && s.nodes[e].phase == Playing
    case GiveUp(e) => e in s.nodes && s.nodes[e].phase == Joining
  }

  /** What a client does with a datagram, whoever sent it: waiting, it looks for an accept, and ends if that names
      player 0; playing, it looks for snapshots. */
  function Receive(p: Platform, n: Node, b: Bytes, recvMs: u64, predict: bool): Node {
    if n.phase == Joining then
      match DecodeJoinAccept(b)
      case None => n
      case Some(ja) =>
        n.(phase := if ja.playerId == 0 then Left else Playing, c := n.c.(pid := ja.playerId))
    else if n.phase == Playing then
      match DecodeSnapshot(b)
      case None => n
      case Some(ss) =>
        var players := FromSnapshot(p.value, ss);
        n.(c := AfterSnapshot(p.ops, n.c, players, recvMs, predict),
           retired := n.retired + RetiredBy(n.c, players),
           acks := match Own(n.c, players)
                   case None => n.acks
                   case Some(own) => n.acks + {own.lastProcessedInputSeq})
    else n
  }

  function InputBytes(n: Node, mx: i8, my: i8): Bytes {
    EncodeInput(InputPacket(n.c.pid, SeqAt(|n.c.log|), mx, my))
  }

  /** What the size bound ages out when the client sends its next input. */
  function AgedBy(p: Platform, n: Node, key: Key): set<u32> {
    var moved := Recorded(p.ops, n.c, key.mx, key.my, FrameTime(key.dt), key.predict);
    AgedOut(WithSample(moved, SeqAt(|n.c.log|), key.sendMs), key.nowMs)
  }

  function Press(p: Platform, n: Node, key: Key): Node {
    n.(c := AfterInput(p.ops, n.c, key.mx, key.my, key.dt, key.sendMs, key.nowMs, key.predict),
       aged := n.aged + AgedBy(p, n, key))
  }

  /** The history variable: the id an endpoint is first admitted under. */
  function Given(s: System, d: Datagram): map<Endpoint, u16> {
    if DecodeJoinRequest(d.bytes).Some? && IdFor(s.server.table, d.peer).Some? && d.peer !in s.given
    then s.given[d.peer := IdFor(s.server.table, d.peer).value]
    else s.given
  }

  function NextJoin(s: System, e: Endpoint): System
    requires e in s.nodes
  {
    s.(nodes := s.nodes[e := s.nodes[e].(phase := Joining)], up := s.up + multiset{Datagram(e, JOIN)})
  }

  function NextToServer(s: System, d: Datagram, now: int): System {
    s.(server := OnDatagram(s.server, d.peer, d.bytes, now),
       up := s.up - multiset{d},
       down := s.down + multiset(Replies(s.server, d.peer, d.bytes)),
       given := Given(s, d))
  }

  function NextTick(ops: VectorOps, s: System, now: int, sent: seq<Datagram>): System {
    s.(server := OnTick(ops, s.server, now), down := s.down + multiset(sent))
  }

  function NextToClient(p: Platform, s: System, d: Datagram, recvMs: u64, predict: bool): System {
    s.(down := s.down - multiset{d},
       nodes := if d.peer in s.nodes
                then s.nodes[d.peer := Receive(p, s.nodes[d.peer], d.bytes, recvMs, predict)]
                else s.nodes)
  }

  function NextInput(p: Platform, s: System, e: Endpoint, key: Key): System
    requires e in s.nodes
  {
    s.(nodes := s.nodes[e := Press(p, s.nodes[e], key)],
       up := s.up + multiset{Datagram(e, InputBytes(s.nodes[e], key.mx, key.my))})
  }

  function NextLeave(s: System, e: Endpoint): System
    requires e in s.nodes
  {
    s.(nodes := s.nodes[e := s.nodes[e].(phase := Left)],
       up := s.up + multiset{Datagram(e, EncodeDisconnect(DisconnectNotice(s.nodes[e].c.pid)))})
  }

  /** No accept in time: the client ends without another word. */
  function NextGiveUp(s: System, e: Endpoint): System
    requires e in s.nodes
  {
    s.(nodes := s.nodes[e := s.nodes[e].(phase := Left)])
  }

  function Next(p: Platform, s: System, a: Action): System {
    match a
    case SendJoin(e) => if e in s.nodes then NextJoin(s, e) else s
    case Foreign(d) => s.(up := s.up + multiset{d})
    case LoseUp(d) => s.(up := s.up - multiset{d})
    case LoseDown(d) => s.(down := s.down - multiset{d})
    case RepeatUp(d) => s.(up := s.up + multiset{d})
    case RepeatDown(d) => s.(down := s.down + multiset{d})
    case Stray(d) => s.(down := s.down + multiset{d})
    case ToServer(d, now) => NextToServer(s, d, now)
    case ServerTick(now, sent) => NextTick(p.ops, s, now, sent)
    case ToClient(d, recvMs, predict) => NextToClient(p, s, d, recvMs, predict)
    case PlayerInput(e, key) =>
      if e in s.nodes then NextInput(p, s, e, key) else s
    case Leave(e) => if e in s.nodes then NextLeave(s, e) else s
    case GiveUp(e) => if e in s.nodes then NextGiveUp(s, e) else s
  }

  ghost predicate Start(s: System) {
    && s.server == BOOT && s.up == multiset{} && s.down == multiset{} && s.given == map[]
    && forall e :: e in s.nodes ==> s.nodes[e] == NEWCOMER
  }

  function After(p: Platform, s: System, actions: seq<Action>): System {
    if actions == [] then s else Next(p, After(p, s, actions[..|actions| - 1]), actions[|actions| - 1])
  }

  ghost predicate Execution(p: Platform, s: System, actions: seq<Action>) {
    forall i :: 0 <= i < |actions| ==> Enabled(p, After(p, s, actions[..i]), actions[i])
  }

  // ----- the invariant, one client at a time

  /** How many inputs the client has sent: its numbers are 1..Sent(n). */
  function Sent(n: Node): nat {
    |n.c.log|
  }

  ghost predicate UpOk(n: Node, b: Bytes) {
    && (DecodeJoinRequest(b).Some? ==> b == JOIN)
    && (DecodeInput(b).Some? ==> DecodeInput(b).value.seqNo <= Sent(n))
  }

  /** At most one join request is in transit, and none before it is sent or after it has been admitted. */
  ghost predicate UpInv(e: Endpoint, n: Node, up: multiset<Datagram>, known: bool) {
    && (forall d :: d in up && d.peer == e ==> UpOk(n, d.bytes))
    && up[Datagram(e, JOIN)] <= if known || n.phase == Idle then 0 else 1
  }

  ghost predicate OwnAcksBelow(players: seq<PlayerRecord>, id: u16, sent: nat) {
    && (exists i :: 0 <= i < |players| && players[i].id == id)
    && (forall i :: 0 <= i < |players| && players[i].id == id ==> players[i].lastSeq <= sent)
  }

  /** A snapshot with a record for each of the eight ids, all without an ack: no client can be misled by it. */
  ghost predicate Blank(players: seq<PlayerRecord>) {
    forall id: u16 :: 1 <= id <= MAX_PLAYERS ==> OwnAcksBelow(players, id, 0)
  }

  /** An accept names the client's id, or makes it end; a snapshot holds the client's record, and its own ack is
      below the next number it will use. */
  ghost predicate DownOk(n: Node, known: bool, id: u16, b: Bytes) {
    && (DecodeJoinAccept(b).Some? ==>
          var ja := DecodeJoinAccept(b).value;
          ja.playerId == 0 || (known && ja.playerId == id))
    && (DecodeSnapshot(b).Some? ==>
          var players := DecodeSnapshot(b).value.players;
          Blank(players) || (known && OwnAcksBelow(players, id, Sent(n))))
  }

  ghost predicate DownInv(e: Endpoint, n: Node, down: multiset<Datagram>, known: bool, id: u16) {
    forall d :: d in down && d.peer == e ==> DownOk(n, known, id, d.bytes)
  }

  /** Harmless from anybody: neither an accept with an id nor a snapshot with an ack or without one of the ids. */
  ghost predicate Harmless(b: Bytes) {
    && (DecodeJoinAccept(b).Some? ==> DecodeJoinAccept(b).value.playerId == 0)
    && (DecodeSnapshot(b).Some? ==> Blank(DecodeSnapshot(b).value.players))
  }

  /** No join request arrives twice, and clients get nothing harmful from strangers. */
  ghost predicate Benign(p: Platform) {
    !p.mayRepeat(JOIN) && forall b :: p.mayStray(b) ==> Harmless(b)
  }

  ghost predicate ServerInv(n: Node, v: Solo, known: bool, id: u16) {
    v.Live? ==>
      known && v.id == id && v.player.state.id == id && Synced(v.player) && v.player.latestSeenSeq <= Sent(n)
  }

  /** Some ack the client has processed covers the number. */
  ghost predicate Acknowledged(acks: set<u32>, k: u32) {
    exists a :: a in acks && k <= a
  }

  /** Every number sent is exactly one of pending, retired and aged out; everything still pending is above every ack
      processed, and everything retired has been acknowledged. */
  ghost predicate Accounts(n: Node) {
    && Numbered(n.c.log) && Sent(n) + 1 < TWO32
    && n.c.pending.Keys !! n.retired && n.c.pending.Keys !! n.aged && n.retired !! n.aged
    && (forall k :: k in n.c.pending || k in n.retired || k in n.aged <==> 1 <= k <= Sent(n))
    && (forall a :: a in n.acks ==> a <= Sent(n))
    && (forall k :: k in n.retired ==> Acknowledged(n.acks, k))
    && (forall k, a :: k in n.c.pending && a in n.acks ==> a < k)
    && (n.c.pid in n.c.latest ==> n.c.latest[n.c.pid].lastProcessedInputSeq <= Sent(n))
    && (forall q :: q in n.c.latest ==> n.c.latest[q].id == q)
  }

  ghost predicate NodeInv(n: Node, known: bool, id: u16) {
    && Accounts(n)
    && (known ==> 1 <= id <= MAX_PLAYERS)
    && (n.phase == Playing ==> known && n.c.pid == id)
    && (n.phase in {Idle, Joining} ==> n.c.log == [] && n.c.latest == map[])
    && (n.phase == Idle ==> !known)
  }

  ghost predicate ClientOk(e: Endpoint, n: Node, v: Solo, up: multiset<Datagram>, down: multiset<Datagram>,
                           known: bool, id: u16)
  {
    UpInv(e, n, up, known) && DownInv(e, n, down, known, id) && ServerInv(n, v, known, id) && NodeInv(n, known, id)
  }

  function GivenId(s: System, e: Endpoint): u16 {
    if e in s.given then s.given[e] else 0
  }

  ghost predicate ClientInv(s: System, e: Endpoint) {
    e in s.nodes ==>
      ClientOk(e, s.nodes[e], ViewOf(s.server, e), s.up, s.down, e in s.given, GivenId(s, e))
  }

  ghost predicate Inv(s: System) {
    Agree(s.server) && forall e :: e in s.nodes ==> ClientInv(s, e)
  }

  // ----- the server's part

  lemma GoneStays(ops: VectorOps, s: ServerState, e: Endpoint, ev: Event)
    requires Agree(s) && ViewOf(s, e).Gone?
    requires ev.Arrival? && ev.from == e ==> DecodeJoinRequest(ev.bytes).None?
    ensures ViewOf(Step(ops, s, ev), e).Gone?
  {
    assert e !in s.table.sessions;
    match ev
    case TickAt(now) =>
      assert e !in Reaped(s.table, now).sessions;
    case Arrival(from, d, now) =>
      if from == e {
        assert OnDatagram(s, from, d, now) == s;
      } else {
        OthersUntouched(s, from, d, now, e);
      }
  }

  lemma SoloKeepsServerInv(ops: VectorOps, s: ServerState, e: Endpoint, n: Node, ev: Event, known: bool, id: u16)
    requires Agree(s) && ServerInv(n, ViewOf(s, e), known, id)
    requires ev.Arrival? && ev.from == e ==> DecodeJoinRequest(ev.bytes).None? && UpOk(n, ev.bytes)
    ensures ServerInv(n, ViewOf(Step(ops, s, ev), e), known, id)
  {
    if ViewOf(s, e).Live? {
      StepIsolated(ops, s, e, ev);
    } else {
      GoneStays(ops, s, e, ev);
    }
  }

  // ----- what each action does to one client's invariant

  lemma ToServerFromOther(p: Platform, s: System, d: Datagram, now: int, e: Endpoint)
    requires Inv(s) && d in s.up && e in s.nodes && e != d.peer
    ensures ClientInv(NextToServer(s, d, now), e)
  {
    var t := NextToServer(s, d, now);
    var known := e in s.given;
    SoloKeepsServerInv(p.ops, s.server, e, s.nodes[e], Arrival(d.peer, d.bytes, now), known, GivenId(s, e));
    assert t.up[Datagram(e, JOIN)] == s.up[Datagram(e, JOIN)];
    forall x | x in t.down && x.peer == e ensures x in s.down {}
    forall x | x in t.up ensures x in s.up {}
  }

  /** The join request in transit was the only one, and the client had not been admitted before. */
  lemma JoinConsumed(e: Endpoint, n: Node, up: multiset<Datagram>, known: bool)
    requires UpInv(e, n, up, known) && Datagram(e, JOIN) in up
    ensures !known && n.phase != Idle && UpInv(e, n, up - multiset{Datagram(e, JOIN)}, true)
  {
    var rest := up - multiset{Datagram(e, JOIN)};
    assert rest[Datagram(e, JOIN)] == 0;
    forall d | d in rest ensures d in up {}
  }

  /** The accept that answers a first join is the first thing on its way to the client. */
  lemma AcceptIsFirst(s: ServerState, e: Endpoint, b: Bytes, n: Node, down: multiset<Datagram>)
    requires DecodeJoinRequest(b).Some? && DownInv(e, n, down, false, 0) && IdFor(s.table, e).Some?
    ensures DownInv(e, n, down + multiset(Replies(s, e, b)), true, IdFor(s.table, e).value)
  {
    var ja := JoinAccept(IdFor(s.table, e).value, ARENA_WIDTH_WORD, ARENA_HEIGHT_WORD);
    AcceptReads(ja);
    assert Replies(s, e, b) == [Datagram(e, EncodeJoinAccept(ja))];
    forall d | d in down && d.peer == e ensures DownOk(n, true, ja.playerId, d.bytes) {
      assert DownOk(n, false, 0, d.bytes);
    }
    DownAdds(e, n, down, Replies(s, e, b), true, ja.playerId);
  }

  lemma ToServerJoin(p: Platform, s: System, d: Datagram, now: int)
    requires Inv(s) && d in s.up && d.peer in s.nodes && DecodeJoinRequest(d.bytes).Some?
    ensures ClientInv(NextToServer(s, d, now), d.peer)
  {
    var e := d.peer;
    var n := s.nodes[e];
    assert ClientInv(s, e);
    assert UpOk(n, d.bytes) && d == Datagram(e, JOIN);
    JoinConsumed(e, n, s.up, e in s.given);
    assert ViewOf(s.server, e).Gone?;
    JoinStartsFresh(p.ops, s.server, e, d.bytes, now);
    if IdFor(s.server.table, e).Some? {
      AcceptIsFirst(s.server, e, d.bytes, n, s.down);
    }
  }

  lemma AcceptReads(ja: JoinAccept)
    ensures DecodeJoinAccept(EncodeJoinAccept(ja)) == Some(ja)
    ensures DecodeSnapshot(EncodeJoinAccept(ja)).None?
  {
  }

  lemma ToServerOwn(p: Platform, s: System, d: Datagram, now: int)
    requires Inv(s) && d in s.up && d.peer in s.nodes && DecodeJoinRequest(d.bytes).None?
    ensures ClientInv(NextToServer(s, d, now), d.peer)
  {
    var e := d.peer;
    var n := s.nodes[e];
    var t := NextToServer(s, d, now);
    var known := e in s.given;
    assert UpOk(n, d.bytes);
    SoloKeepsServerInv(p.ops, s.server, e, n, Arrival(e, d.bytes, now), known, GivenId(s, e));
    forall x | x in t.up ensures x in s.up {}
    assert t.up[Datagram(e, JOIN)] <= s.up[Datagram(e, JOIN)];
    assert t.down == s.down;
  }

  lemma SnapshotReads(bits: real -> u32, s: ServerState, order: seq<PlayerState>)
    requires Agree(s) && Enumerates(order, s.players)
    ensures var b := EncodeSnapshot(ToSnapshot(bits, s.tick, order));
            DecodeSnapshot(b) == Some(ToSnapshot(bits, s.tick, order)) && DecodeJoinAccept(b).None?
  {
    LivePlayers(s);
    SnapshotInverse(EncodeSnapshot(ToSnapshot(bits, s.tick, order)), ToSnapshot(bits, s.tick, order));
  }

  lemma SnapshotHoldsOwn(bits: real -> u32, s: ServerState, e: Endpoint, order: seq<PlayerState>, n: Node, id: u16)
    requires Agree(s) && Enumerates(order, s.players) && e in s.table.sessions
    requires ServerInv(n, ViewOf(s, e), true, id)
    ensures OwnAcksBelow(ToSnapshot(bits, s.tick, order).players, id, Sent(n))
  {
    var v := ViewOf(s, e);
    assert v.Live? && s.players[id] == v.player;
    var i :| 0 <= i < |order| && order[i] == s.players[id].state;
    var rs := ToSnapshot(bits, s.tick, order).players;
    assert rs[i].id == id;
    forall j | 0 <= j < |rs| && rs[j].id == id ensures rs[j].lastSeq <= Sent(n) {
      assert order[j].id == id;
    }
  }

  lemma SentOk(bits: real -> u32, server: ServerState, sent: seq<Datagram>, e: Endpoint, n: Node, known: bool, id: u16)
    requires Agree(server) && TickSent(bits, server, sent)
    requires ServerInv(n, ViewOf(server, e), known, id)
    ensures forall d :: d in sent && d.peer == e ==> DownOk(n, known, id, d.bytes)
  {
    if Sends(server) {
      var order :| Enumerates(order, server.players) && SnapshotToAll(bits, server, order, sent);
      SnapshotReads(bits, server, order);
      forall d | d in sent && d.peer == e ensures DownOk(n, known, id, d.bytes) {
        var i :| 0 <= i < |sent| && sent[i] == d;
        assert e in server.table.sessions && ViewOf(server, e).Live?;
        SnapshotHoldsOwn(bits, server, e, order, n, id);
      }
    }
  }

  lemma TickReaches(p: Platform, s: System, now: int, sent: seq<Datagram>, e: Endpoint)
    requires Inv(s) && TickSent(p.bits, OnTick(p.ops, s.server, now), sent) && e in s.nodes
    ensures ClientInv(NextTick(p.ops, s, now, sent), e)
  {
    var server := OnTick(p.ops, s.server, now);
    var n, known, id := s.nodes[e], e in s.given, GivenId(s, e);
    assert ClientInv(s, e);
    TickAgrees(p.ops, s.server, now);
    TickKeepsServerInv(p.ops, s.server, e, n, now, known, id);
    SentOk(p.bits, server, sent, e, n, known, id);
    DownAdds(e, n, s.down, sent, known, id);
  }

  lemma TickKeepsServerInv(ops: VectorOps, s: ServerState, e: Endpoint, n: Node, now: int, known: bool, id: u16)
    requires Agree(s) && ServerInv(n, ViewOf(s, e), known, id)
    ensures ServerInv(n, ViewOf(OnTick(ops, s, now), e), known, id)
  {
  }

  lemma DownAdds(e: Endpoint, n: Node, down: multiset<Datagram>, more: seq<Datagram>, known: bool, id: u16)
    requires DownInv(e, n, down, known, id)
    requires forall d :: d in more && d.peer == e ==> DownOk(n, known, id, d.bytes)
    ensures DownInv(e, n, down + multiset(more), known, id)
  {
  }

  // ----- the client's part

  /** The own record a client acts on was acked below its next number. */
  lemma {:induction false} LearntOwnBelow(latest: map<u16, PlayerState>, players: seq<PlayerState>, pid: u16, sent: nat)
    requires pid in latest ==> latest[pid].lastProcessedInputSeq <= sent
    requires forall i :: 0 <= i < |players| && players[i].id == pid ==> players[i].lastProcessedInputSeq <= sent
    requires forall q :: q in latest ==> latest[q].id == q
    ensures pid in Learn(latest, players) ==> Learn(latest, players)[pid].lastProcessedInputSeq <= sent
    ensures forall q :: q in Learn(latest, players) ==> Learn(latest, players)[q].id == q
  {
    if players != [] {
      var init := players[..|players| - 1];
      forall i | 0 <= i < |init| ensures init[i] == players[i] {}
      LearntOwnBelow(latest, init, pid, sent);
    }
  }

  lemma BlankReads(players: seq<PlayerRecord>, id: u16, sent: nat)
    requires 1 <= id <= MAX_PLAYERS && (Blank(players) || OwnAcksBelow(players, id, sent))
    ensures OwnAcksBelow(players, id, sent)
  {
    if Blank(players) { assert OwnAcksBelow(players, id, 0); }
  }

  /** Processing a snapshot retires only pending numbers, and leaves the accounts in order. */
  lemma SnapshotKeepsAccounts(p: Platform, n: Node, b: Bytes, recvMs: u64, predict: bool, known: bool, id: u16)
    requires NodeInv(n, known, id) && n.phase == Playing && DecodeSnapshot(b).Some? && DownOk(n, known, id, b)
    ensures Accounts(Receive(p, n, b, recvMs, predict))
  {
    var ss := DecodeSnapshot(b).value;
    var players := FromSnapshot(p.value, ss);
    var m := Receive(p, n, b, recvMs, predict);
    BlankReads(ss.players, id, Sent(n));
    forall i | 0 <= i < |players| && players[i].id == n.c.pid ensures players[i].lastProcessedInputSeq <= Sent(n) {
      assert ss.players[i].id == id;
    }
    LearntOwnBelow(n.c.latest, players, n.c.pid, Sent(n));
    assert m.c.log == n.c.log && m.c.latest == Learn(n.c.latest, players);
    assert m.c.pending.Keys == n.c.pending.Keys - RetiredBy(n.c, players);
    forall k | k in m.retired ensures Acknowledged(m.acks, k) {
      if k in n.retired {
        assert Acknowledged(n.acks, k);
      } else {
        assert Own(n.c, players).value.lastProcessedInputSeq in m.acks;
      }
    }
  }

  lemma ReceiveKeepsNode(p: Platform, n: Node, b: Bytes, recvMs: u64, predict: bool, known: bool, id: u16)
    requires NodeInv(n, known, id) && DownOk(n, known, id, b)
    ensures var m := Receive(p, n, b, recvMs, predict);
            NodeInv(m, known, id) && m.c.log == n.c.log && (m.phase == Idle ==> n.phase == Idle)
  {
    if n.phase == Playing && DecodeSnapshot(b).Some? {
      SnapshotKeepsAccounts(p, n, b, recvMs, predict, known, id);
    }
  }

  lemma ReceiveKeeps(p: Platform, s: System, d: Datagram, recvMs: u64, predict: bool)
    requires Inv(s) && d in s.down && d.peer in s.nodes
    ensures ClientInv(NextToClient(p, s, d, recvMs, predict), d.peer)
  {
    var e := d.peer;
    var n := s.nodes[e];
    var known, id := e in s.given, GivenId(s, e);
    assert ClientInv(s, e);
    assert DownOk(n, known, id, d.bytes);
    ReceiveKeepsNode(p, n, d.bytes, recvMs, predict, known, id);
    var m := Receive(p, n, d.bytes, recvMs, predict);
    DownGrows(e, n, m, s.down, known, id);
    assert forall x :: x in s.down - multiset{d} ==> x in s.down;
    assert forall x :: x in s.up && x.peer == e && UpOk(n, x.bytes) ==> UpOk(m, x.bytes);
  }

  lemma SampledShape(moved: ClientState, k: u32, sendMs: u64, nowMs: u64)
    ensures var m := Sampled(moved, k, sendMs, nowMs);
            var gone := AgedOut(WithSample(moved, k, sendMs), nowMs);
            && gone <= moved.pending.Keys + {k}
            && m.pending.Keys == moved.pending.Keys + {k} - gone
            && m == moved.(pending := m.pending)
  {
  }

  lemma RecordedShape(p: Platform, c: ClientState, mx: i8, my: i8, dt: real, predict: bool)
    requires Numbered(c.log) && |c.log| + 2 < TWO32
    ensures SeqAt(|c.log|) == |c.log| + 1
    ensures var m := Recorded(p.ops, c, mx, my, dt, predict);
            && |m.log| == |c.log| + 1 && Numbered(m.log)
            && m.latest == c.latest && m.pid == c.pid && m.pending == c.pending
  {
    SeqAtIsIndex(|c.log|);
  }

  /** Pressing a key uses the next number, adds it to pending, and moves `gone` from pending to aged out. */
  ghost predicate Pressed(n: Node, m: Node, gone: set<u32>) {
    var k := Sent(n) + 1;
    && Sent(m) == k && k + 1 < TWO32 && Numbered(m.c.log)
    && gone <= n.c.pending.Keys + {k}
    && m.c.pending.Keys == n.c.pending.Keys + {k} - gone
    && m.aged == n.aged + gone
    && m.retired == n.retired && m.acks == n.acks
    && m.c.latest == n.c.latest && m.c.pid == n.c.pid && m.phase == n.phase
  }

  lemma PressParts(p: Platform, n: Node, key: Key, moved: ClientState, k: u32)
    requires moved == Recorded(p.ops, n.c, key.mx, key.my, FrameTime(key.dt), key.predict) && k == SeqAt(|n.c.log|)
    ensures Press(p, n, key)
            == n.(c := Sampled(moved, k, key.sendMs, key.nowMs), aged := n.aged + AgedBy(p, n, key))
    ensures AgedBy(p, n, key) == AgedOut(WithSample(moved, k, key.sendMs), key.nowMs)
  {
  }

  lemma PressIsPressed(p: Platform, n: Node, key: Key)
    requires Numbered(n.c.log) && Sent(n) + 2 < TWO32
    ensures Pressed(n, Press(p, n, key), AgedBy(p, n, key))
    ensures SeqAt(Sent(n)) == Sent(n) + 1
  {
    var k := Sent(n) + 1;
    var moved := Recorded(p.ops, n.c, key.mx, key.my, FrameTime(key.dt), key.predict);
    RecordedShape(p, n.c, key.mx, key.my, FrameTime(key.dt), key.predict);
    PressParts(p, n, key, moved, k);
    SampledShape(moved, k, key.sendMs, key.nowMs);
  }

  lemma PressedKeepsAccounts(n: Node, m: Node, gone: set<u32>)
    requires Accounts(n) && Pressed(n, m, gone)
    ensures Accounts(m)
  {
  }

  lemma InputReads(n: Node, mx: i8, my: i8)
    ensures var b := InputBytes(n, mx, my);
            DecodeInput(b) == Some(InputPacket(n.c.pid, SeqAt(|n.c.log|), mx, my)) && DecodeJoinRequest(b).None?
  {
  }

  lemma PressKeeps(p: Platform, s: System, e: Endpoint, key: Key)
    requires Inv(s) && e in s.nodes && s.nodes[e].phase == Playing && Sent(s.nodes[e]) + 2 < TWO32
    ensures ClientInv(NextInput(p, s, e, key), e)
  {
    var n := s.nodes[e];
    assert ClientInv(s, e);
    var b := InputBytes(n, key.mx, key.my);
    var m := Press(p, n, key);
    PressIsPressed(p, n, key);
    PressedKeepsAccounts(n, m, AgedBy(p, n, key));
    InputReads(n, key.mx, key.my);
    JoinReads();
    UpAdds(e, n, m, s.up, b, true);
    DownGrows(e, n, m, s.down, true, s.given[e]);
  }

  /** A datagram that is not a join may be added if it is in order itself. */
  lemma UpAdds(e: Endpoint, n: Node, m: Node, up: multiset<Datagram>, b: Bytes, known: bool)
    requires UpInv(e, n, up, known) && UpOk(m, b) && b != JOIN
    requires Sent(n) <= Sent(m) && (m.phase == Idle ==> n.phase == Idle)
    ensures UpInv(e, m, up + multiset{Datagram(e, b)}, known)
  {
  }

  lemma DownGrows(e: Endpoint, n: Node, m: Node, down: multiset<Datagram>, known: bool, id: u16)
    requires DownInv(e, n, down, known, id) && Sent(n) <= Sent(m)
    ensures DownInv(e, m, down, known, id)
  {
  }

  lemma JoinReads()
    ensures DecodeJoinRequest(JOIN).Some? && DecodeInput(JOIN).None?
  {
  }

  lemma SendJoinKeeps(s: System, e: Endpoint)
    requires Inv(s) && e in s.nodes && s.nodes[e].phase == Idle
    ensures ClientInv(NextJoin(s, e), e)
  {
  }

  lemma LeaveKeeps(s: System, e: Endpoint)
    requires Inv(s) && e in s.nodes && s.nodes[e].phase == Playing
    ensures ClientInv(NextLeave(s, e), e)
  {
    var n := s.nodes[e];
    assert ClientInv(s, e);
    var m := n.(phase := Left);
    var b := EncodeDisconnect(DisconnectNotice(n.c.pid));
    JoinReads();
    assert DecodeJoinRequest(b).None? && DecodeInput(b).None?;
    var known := e in s.given;
    UpAdds(e, n, m, s.up, b, known);
    DownGrows(e, n, m, s.down, known, GivenId(s, e));
  }

  lemma ToServerKeeps(p: Platform, s: System, d: Datagram, now: int, e: Endpoint)
    requires Inv(s) && d in s.up && e in s.nodes
    ensures ClientInv(NextToServer(s, d, now), e)
  {
    if e != d.peer {
      ToServerFromOther(p, s, d, now, e);
    } else if DecodeJoinRequest(d.bytes).Some? {
      ToServerJoin(p, s, d, now);
    } else {
      ToServerOwn(p, s, d, now);
    }
  }

  lemma GiveUpKeeps(s: System, e: Endpoint)
    requires Inv(s) && e in s.nodes && s.nodes[e].phase == Joining
    ensures ClientInv(NextGiveUp(s, e), e)
  {
    var n := s.nodes[e];
    assert ClientInv(s, e);
    var m := n.(phase := Left);
    var known := e in s.given;
    DownGrows(e, n, m, s.down, known, GivenId(s, e));
    assert UpInv(e, m, s.up, known);
  }

  lemma OtherNode(s: System, t: System, e: Endpoint, f: Endpoint, b: Bytes)
    requires Inv(s) && e in s.nodes && f in s.nodes && e != f && t.nodes.Keys == s.nodes.Keys
    requires t.nodes[e] == s.nodes[e] && t.server == s.server && t.given == s.given
    requires t.up == s.up + multiset{Datagram(f, b)} && t.down == s.down
    ensures ClientInv(t, e)
  {
  }

  lemma OtherReceives(p: Platform, s: System, d: Datagram, recvMs: u64, predict: bool, e: Endpoint)
    requires Inv(s) && e in s.nodes && e != d.peer && d in s.down
    ensures ClientInv(NextToClient(p, s, d, recvMs, predict), e)
  {
  }

  /** Losing or repeating a datagram, and whatever strangers send; only a join may not be repeated, and a client must
      not be sent anything harmful. */
  lemma NetworkKeeps(s: System, t: System, e: Endpoint, d: Datagram)
    requires Inv(s) && e in s.nodes
    requires || t == s.(up := s.up - multiset{d}) || t == s.(down := s.down - multiset{d})
             || ((d.peer != e || (d in s.up && d.bytes != JOIN)) && t == s.(up := s.up + multiset{d}))
             || ((d in s.down || Harmless(d.bytes)) && t == s.(down := s.down + multiset{d}))
    ensures ClientInv(t, e)
  {
    assert ClientInv(s, e);
    assert Harmless(d.bytes) ==> DownOk(s.nodes[e], e in s.given, GivenId(s, e), d.bytes);
    assert t.up[Datagram(e, JOIN)] <= s.up[Datagram(e, JOIN)];
  }

  lemma OtherGivesUp(s: System, f: Endpoint, e: Endpoint)
    requires Inv(s) && e in s.nodes && f in s.nodes && e != f
    ensures ClientInv(NextGiveUp(s, f), e)
  {
    assert ClientInv(s, e);
  }

  lemma GivingUpKeeps(s: System, f: Endpoint, e: Endpoint)
    requires Inv(s) && f in s.nodes && s.nodes[f].phase == Joining && e in s.nodes
    ensures ClientInv(NextGiveUp(s, f), e)
  {
    if f == e { GiveUpKeeps(s, e); } else { OtherGivesUp(s, f, e); }
  }

  lemma LeavingKeeps(s: System, f: Endpoint, e: Endpoint)
    requires Inv(s) && f in s.nodes && s.nodes[f].phase == Playing && e in s.nodes
    ensures ClientInv(NextLeave(s, f), e)
  {
    if f == e {
      LeaveKeeps(s, e);
    } else {
      OtherNode(s, NextLeave(s, f), e, f, EncodeDisconnect(DisconnectNotice(s.nodes[f].c.pid)));
    }
  }

  lemma JoiningKeeps(s: System, f: Endpoint, e: Endpoint)
    requires Inv(s) && f in s.nodes && s.nodes[f].phase == Idle && e in s.nodes
    ensures ClientInv(NextJoin(s, f), e)
  {
    if f == e { SendJoinKeeps(s, e); } else { OtherNode(s, NextJoin(s, f), e, f, JOIN); }
  }

  lemma ToClientKeeps(p: Platform, s: System, d: Datagram, recvMs: u64, predict: bool, e: Endpoint)
    requires Inv(s) && d in s.down && e in s.nodes
    ensures ClientInv(NextToClient(p, s, d, recvMs, predict), e)
  {
    if d.peer == e { ReceiveKeeps(p, s, d, recvMs, predict); } else { OtherReceives(p, s, d, recvMs, predict, e); }
  }

  lemma InputKeeps(p: Platform, s: System, f: Endpoint, key: Key, e: Endpoint)
    requires Inv(s) && f in s.nodes && s.nodes[f].phase == Playing && Sent(s.nodes[f]) + 2 < TWO32 && e in s.nodes
    ensures ClientInv(NextInput(p, s, f, key), e)
  {
    if f == e {
      PressKeeps(p, s, e, key);
    } else {
      OtherNode(s, NextInput(p, s, f, key), e, f, InputBytes(s.nodes[f], key.mx, key.my));
    }
  }

  lemma ServerActs(p: Platform, s: System, a: Action, e: Endpoint)
    requires Inv(s) && Enabled(p, s, a) && e in s.nodes && (a.ToServer? || a.ServerTick?)
    ensures ClientInv(Next(p, s, a), e)
  {
    match a
    case ToServer(d, now) => ToServerKeeps(p, s, d, now, e);
    case ServerTick(now, sent) => TickReaches(p, s, now, sent, e);
  }

  lemma ClientPlays(p: Platform, s: System, a: Action, e: Endpoint)
    requires Inv(s) && Enabled(p, s, a) && e in s.nodes && (a.ToClient? || a.PlayerInput?)
    ensures ClientInv(Next(p, s, a), e)
  {
    match a
    case ToClient(d, recvMs, predict) => ToClientKeeps(p, s, d, recvMs, predict, e);
    case PlayerInput(f, key) => InputKeeps(p, s, f, key, e);
  }

  lemma ClientComesOrGoes(p: Platform, s: System, a: Action, e: Endpoint)
    requires Inv(s) && Enabled(p, s, a) && e in s.nodes && (a.SendJoin? || a.Leave? || a.GiveUp?)
    ensures ClientInv(Next(p, s, a), e)
  {
    match a
    case SendJoin(f) => JoiningKeeps(s, f, e);
    case Leave(f) => LeavingKeeps(s, f, e);
    case GiveUp(f) => GivingUpKeeps(s, f, e);
  }

  lemma NetworkLoses(p: Platform, s: System, a: Action, e: Endpoint)
    requires Inv(s) && Enabled(p, s, a) && e in s.nodes && (a.LoseUp? || a.LoseDown?)
    ensures ClientInv(Next(p, s, a), e)
  {
    NetworkKeeps(s, Next(p, s, a), e, a.d);
  }

  lemma NetworkAdds(p: Platform, s: System, a: Action, e: Endpoint)
    requires Inv(s) && Enabled(p, s, a) && e in s.nodes && Benign(p)
    requires a.Foreign? || a.RepeatUp? || a.RepeatDown? || a.Stray?
    ensures ClientInv(Next(p, s, a), e)
  {
    NetworkKeeps(s, Next(p, s, a), e, a.d);
  }

  lemma NextKeepsClient(p: Platform, s: System, a: Action, e: Endpoint)
    requires Inv(s) && Enabled(p, s, a) && e in s.nodes && Benign(p)
    ensures ClientInv(Next(p, s, a), e)
  {
    if a.LoseUp? || a.LoseDown? {
      NetworkLoses(p, s, a, e);
    } else if a.Foreign? || a.RepeatUp? || a.RepeatDown? || a.Stray? {
      NetworkAdds(p, s, a, e);
    } else if a.ToServer? || a.ServerTick? {
      ServerActs(p, s, a, e);
    } else if a.ToClient? || a.PlayerInput? {
      ClientPlays(p, s, a, e);
    } else {
      ClientComesOrGoes(p, s, a, e);
    }
  }

  lemma NextKeepsServer(p: Platform, s: System, a: Action)
    requires Agree(s.server)
    ensures Agree(Next(p, s, a).server)
  {
    if a.ToServer? {
      ArrivalAgrees(s.server, a.d.peer, a.d.bytes, a.now);
    } else if a.ServerTick? {
      TickAgrees(p.ops, s.server, a.now);
    } else {
      assert Next(p, s, a).server == s.server;
    }
  }

  lemma NextKeepsNodes(p: Platform, s: System, a: Action)
    ensures Next(p, s, a).nodes.Keys == s.nodes.Keys
  {
  }

  lemma NextKeepsInv(p: Platform, s: System, a: Action)
    requires Inv(s) && Enabled(p, s, a) && Benign(p)
    ensures Inv(Next(p, s, a))
  {
    NextKeepsServer(p, s, a);
    NextKeepsNodes(p, s, a);
    var t := Next(p, s, a);
    forall e | e in t.nodes ensures ClientInv(t, e) {
      NextKeepsClient(p, s, a, e);
    }
  }

  /** The invariant holds throughout every execution in benign surroundings. */
  lemma {:induction false} ExecutionKeepsInv(p: Platform, s: System, actions: seq<Action>)
    requires Start(s) && Execution(p, s, actions) && Benign(p)
    ensures Inv(After(p, s, actions))
  {
    if actions != [] {
      var init := actions[..|actions| - 1];
      forall i | 0 <= i < |init| ensures init[i] == actions[i] && init[..i] == actions[..i] {}
      ExecutionKeepsInv(p, s, init);
      assert Enabled(p, After(p, s, init), actions[|actions| - 1]);
      NextKeepsInv(p, After(p, s, init), actions[|actions| - 1]);
    }
  }

  // ----- what it means

  /** The coordinate survives the conversion to binary32 and back. */
  predicate Representable(p: Platform, r: real) {
    p.value(p.bits(r)) == r
  }

  /** What a client reads out of a broadcast is, player by player, the server's state, as far as its
      coordinates are binary32 numbers; ids and acks always are. */
  lemma SnapshotArrivesIntact(p: Platform, s: ServerState, order: seq<PlayerState>, rest: Bytes)
    requires Agree(s) && Enumerates(order, s.players)
    ensures var got := DecodeSnapshot(EncodeSnapshot(ToSnapshot(p.bits, s.tick, order)) + rest);
            && got.Some? && got.value.serverTick == s.tick && |got.value.players| == |order|
            && var players := FromSnapshot(p.value, got.value);
               forall i :: 0 <= i < |order| ==>
                 && players[i].id == order[i].id
                 && players[i].lastProcessedInputSeq == order[i].lastProcessedInputSeq
                 && (Representable(p, order[i].pos.x) && Representable(p, order[i].pos.y)
                     && Representable(p, order[i].vel.x) && Representable(p, order[i].vel.y) ==>
                       players[i] == order[i])
  {
    LivePlayers(s);
    var snap := ToSnapshot(p.bits, s.tick, order);
    SnapshotInverse(EncodeSnapshot(snap) + rest, snap);
    var players := FromSnapshot(p.value, snap);
    forall i | 0 <= i < |order| ensures players[i] == FromRecord(p.value, ToRecord(p.bits, order[i])) {}
  }

  /** Each coordinate travels as its own word. */
  lemma SnapshotWords(p: Platform, s: ServerState, order: seq<PlayerState>, rest: Bytes, i: nat)
    requires Agree(s) && Enumerates(order, s.players) && i < |order|
    ensures var got := DecodeSnapshot(EncodeSnapshot(ToSnapshot(p.bits, s.tick, order)) + rest);
            && got.Some? && i < |got.value.players|
            && var r, ps := got.value.players[i], order[i];
               && r.id == ps.id && r.lastSeq == ps.lastProcessedInputSeq
               && r.x == p.bits(ps.pos.x) && r.y == p.bits(ps.pos.y)
               && r.vx == p.bits(ps.vel.x) && r.vy == p.bits(ps.vel.y)
  {
    GameServer.BroadcastTotal(p.bits, s, order, rest);
  }

  /** ... and is read back into its own place. */
  lemma RecordsRead(p: Platform, ss: Snapshot, i: nat)
    requires i < |ss.players|
    ensures var r, ps := ss.players[i], FromSnapshot(p.value, ss)[i];
            && ps.id == r.id && ps.lastProcessedInputSeq == r.lastSeq
            && ps.pos.x == p.value(r.x) && ps.pos.y == p.value(r.y)
            && ps.vel.x == p.value(r.vx) && ps.vel.y == p.value(r.vy)
  {
  }

  /** Ack safety: in every execution in benign surroundings - across losses, delays, reordering, repeats, timeouts, id
      reuse and whatever strangers send the server - every snapshot on its way to a client holds the client's own
      record, and acknowledges for it a number below the client's next one; or it is blank. */
  lemma SnapshotsAckOwnInputs(p: Platform, s: System, actions: seq<Action>, d: Datagram)
    requires Start(s) && Execution(p, s, actions) && Benign(p)
    requires var t := After(p, s, actions); d in t.down && d.peer in t.nodes
    requires DecodeSnapshot(d.bytes).Some?
    ensures var t := After(p, s, actions);
            var n, players := t.nodes[d.peer], DecodeSnapshot(d.bytes).value.players;
            && (Blank(players) || (d.peer in t.given && OwnAcksBelow(players, t.given[d.peer], Sent(n))))
            && (n.phase == Playing ==>
                  d.peer in t.given && n.c.pid == t.given[d.peer] && OwnAcksBelow(players, n.c.pid, Sent(n)))
  {
    ExecutionKeepsInv(p, s, actions);
    var t := After(p, s, actions);
    assert ClientInv(t, d.peer);
    if t.nodes[d.peer].phase == Playing {
      BlankReads(DecodeSnapshot(d.bytes).value.players, t.nodes[d.peer].c.pid, Sent(t.nodes[d.peer]));
    }
  }

  /** In every execution each number a client has sent is exactly one of pending, retired by an ack and aged
      out; what is pending is newer than every ack processed so far, and what is retired is covered by one of them. */
  lemma EveryInputAccounted(p: Platform, s: System, actions: seq<Action>, e: Endpoint)
    requires Start(s) && Execution(p, s, actions) && Benign(p) && e in After(p, s, actions).nodes
    ensures var n := After(p, s, actions).nodes[e];
            && (forall k :: k in n.c.pending || k in n.retired || k in n.aged <==> 1 <= k <= Sent(n))
            && n.c.pending.Keys !! n.retired && n.c.pending.Keys !! n.aged && n.retired !! n.aged
            && (forall k, a :: k in n.c.pending && a in n.acks ==> a < k)
            && (forall k :: k in n.retired ==> exists a :: a in n.acks && k <= a)
  {
    ExecutionKeepsInv(p, s, actions);
    assert ClientInv(After(p, s, actions), e);
  }

  /** Each number is retired at most once: what a snapshot retires has not been retired or aged out before, and is
      exactly what was pending at or below the processed ack. */
  lemma RetiredOnce(p: Platform, s: System, actions: seq<Action>, d: Datagram)
    requires Start(s) && Execution(p, s, actions) && Benign(p)
    requires var t := After(p, s, actions);
             d in t.down && d.peer in t.nodes && t.nodes[d.peer].phase == Playing
    requires DecodeSnapshot(d.bytes).Some?
    ensures var n := After(p, s, actions).nodes[d.peer];
            var players := FromSnapshot(p.value, DecodeSnapshot(d.bytes).value);
            && Own(n.c, players).Some? && Own(n.c, players).value.lastProcessedInputSeq <= Sent(n)
            && RetiredBy(n.c, players) <= n.c.pending.Keys
            && RetiredBy(n.c, players) !! n.retired && RetiredBy(n.c, players) !! n.aged
            && (forall k :: k in RetiredBy(n.c, players)
                  <==> k in n.c.pending && k <= Own(n.c, players).value.lastProcessedInputSeq)
  {
    ExecutionKeepsInv(p, s, actions);
    var t := After(p, s, actions);
    assert ClientInv(t, d.peer);
    var n := t.nodes[d.peer];
    var records := DecodeSnapshot(d.bytes).value.players;
    var players := FromSnapshot(p.value, DecodeSnapshot(d.bytes).value);
    BlankReads(records, n.c.pid, Sent(n));
    forall i | 0 <= i < |players| && players[i].id == n.c.pid ensures players[i].lastProcessedInputSeq <= Sent(n) {
      assert records[i].id == n.c.pid;
    }
    LearntOwnBelow(n.c.latest, players, n.c.pid, Sent(n));
    var i :| 0 <= i < |records| && records[i].id == n.c.pid;
    LearnsAll(n.c.latest, players, i);
  }

  lemma {:induction false} LearnsAll(latest: map<u16, PlayerState>, players: seq<PlayerState>, i: nat)
    requires i < |players|
    ensures players[i].id in Learn(latest, players)
  {
    var init := players[..|players| - 1];
    if i < |init| { LearnsAll(latest, init, i); }
  }

  /** A client that leaves is gone from the server as soon as its notice arrives. */
  lemma LeavingEnds(p: Platform, s: System, actions: seq<Action>, e: Endpoint, now: int)
    requires Start(s) && Execution(p, s, actions) && Benign(p)
    requires e in After(p, s, actions).nodes && After(p, s, actions).nodes[e].phase == Playing
    ensures var t := After(p, s, actions);
            var d := Datagram(e, EncodeDisconnect(DisconnectNotice(t.nodes[e].c.pid)));
            && d in NextLeave(t, e).up
            && ViewOf(NextToServer(t, d, now).server, e).Gone?
  {
    ExecutionKeepsInv(p, s, actions);
    var t := After(p, s, actions);
    assert ClientInv(t, e);
    NoticeEnds(p.ops, t.server, e, t.nodes[e].c.pid, now);
  }

  lemma NoticeEnds(ops: VectorOps, s: ServerState, e: Endpoint, pid: u16, now: int)
    requires Agree(s) && (ViewOf(s, e).Live? ==> ViewOf(s, e).id == pid)
    ensures ViewOf(OnDatagram(s, e, EncodeDisconnect(DisconnectNotice(pid)), now), e).Gone?
  {
    var b := EncodeDisconnect(DisconnectNotice(pid));
    DisconnectInverse(b, DisconnectNotice(pid));
    NotBoth(b);
    if ViewOf(s, e).Live? {
      DisconnectIsolated(ops, s, e, e, b, now);
    } else {
      GoneStays(ops, s, e, Arrival(e, b, now));
    }
  }

  /** The input that `key` makes client `e` send is heard by the server as `e`'s own, with the number it was recorded
      under and its two directions, if it arrives next. */
  ghost predicate HeardAsOwn(p: Platform, s: System, e: Endpoint, key: Key, now: int)
    requires e in s.nodes && ViewOf(s.server, e).Live? && Sent(s.nodes[e]) + 2 < TWO32
  {
    var n, v := s.nodes[e], ViewOf(s.server, e);
    var d := Datagram(e, InputBytes(n, key.mx, key.my));
    var u := NextInput(p, s, e, key);
    && d in u.up
    && ViewOf(OnDatagram(u.server, e, d.bytes, now), e)
       == Live(v.id, now, Offer(v.player, InputCmd(Sent(n) + 1, key.mx, key.my)))
  }

  lemma OwnIsHeard(p: Platform, s: System, e: Endpoint, key: Key, now: int)
    requires Agree(s.server) && e in s.nodes && ViewOf(s.server, e).Live? && Sent(s.nodes[e]) + 2 < TWO32
    requires s.nodes[e].c.pid == ViewOf(s.server, e).id
    ensures HeardAsOwn(p, s, e, key, now)
  {
    var n := s.nodes[e];
    SeqAtIsIndex(Sent(n));
    InputHeard(p.ops, s.server, e, InputPacket(n.c.pid, Sent(n) + 1, key.mx, key.my), now);
  }

  /** In every execution a playing client whose session lives is heard. */
  lemma InputIsHeard(p: Platform, s: System, actions: seq<Action>, e: Endpoint, key: Key, now: int)
    requires Start(s) && Execution(p, s, actions) && Benign(p) && e in After(p, s, actions).nodes
    requires var t := After(p, s, actions);
             t.nodes[e].phase == Playing && Sent(t.nodes[e]) + 2 < TWO32 && ViewOf(t.server, e).Live?
    ensures HeardAsOwn(p, After(p, s, actions), e, key, now)
  {
    ExecutionKeepsInv(p, s, actions);
    var t := After(p, s, actions);
    InvKnows(t, e);
    OwnIsHeard(p, t, e, key, now);
  }

  lemma InvKnows(s: System, e: Endpoint)
    requires Inv(s) && e in s.nodes && s.nodes[e].phase == Playing && ViewOf(s.server, e).Live?
    ensures s.nodes[e].c.pid == ViewOf(s.server, e).id
  {
    assert ClientInv(s, e);
  }

  lemma InputHeard(ops: VectorOps, s: ServerState, e: Endpoint, ip: InputPacket, now: int)
    requires Agree(s) && ViewOf(s, e).Live? && ViewOf(s, e).id == ip.playerId
    ensures var v := ViewOf(s, e);
            ViewOf(OnDatagram(s, e, EncodeInput(ip), now), e)
            == Live(v.id, now, Offer(v.player, InputCmd(ip.seqNo, ip.mx, ip.my)))
  {
    InputInverse(EncodeInput(ip), ip);
    NotBoth(EncodeInput(ip));
    InputIsolated(ops, s, e, e, EncodeInput(ip), now);
  }
}

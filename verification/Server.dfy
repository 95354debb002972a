/** server/udp_snapshot_broadcaster.cpp. */
module Broadcasting {
  import opened Constants
  import opened Types
  import opened Wire
  import opened WireTheorems
  import Serialization

  /** The same bytes to every recipient, in order. */
  function ToEach(recipients: seq<Endpoint>, b: Bytes): seq<Datagram> {
    seq(|recipients|, i requires 0 <= i < |recipients| => Datagram(recipients[i], b))
  }

  function SnapshotBytes(players: nat): nat {
    7 + 22 * players
  }

  /** Bytes put on the wire by one snapshot of `players` to `recipients`. */
  function Traffic(recipients: nat, players: nat): nat {
    if recipients == 0 then 0 else Traffic(recipients - 1, players) + SnapshotBytes(players)
  }

  lemma {:induction false} TrafficIsProduct(recipients: nat, players: nat)
    ensures Traffic(recipients, players) == recipients * (7 + 22 * players)
  {
    if recipients > 0 { TrafficIsProduct(recipients - 1, players); }
  }

  lemma ToEachNext(recipients: seq<Endpoint>, i: nat, b: Bytes)
    requires i < |recipients|
    ensures ToEach(recipients[..i + 1], b) == ToEach(recipients[..i], b) + [Datagram(recipients[i], b)]
  {
  }

  class UdpSnapshotBroadcaster {
    var bytesSent: nat
    var snapshotsSent: nat

    constructor ()
      ensures bytesSent == 0 && snapshotsSent == 0
    {
      bytesSent, snapshotsSent := 0, 0;
    }

    /** Encoding into the fixed buffer; empty if it does not fit. */
    static method SnapshotPayload(snap: Snapshot) returns (payload: Bytes)
      ensures |snap.players| <= MAX_PLAYERS ==>
                payload == EncodeSnapshot(snap) && |payload| == SnapshotBytes(|snap.players|)
      ensures |snap.players| > MAX_PLAYERS ==> payload == []
    {
      SnapshotSize(snap);
      var buf := new byte[MAX_SNAPSHOT_BYTES](_ => 0);
      var n := Serialization.EncodeSnapshot(buf, snap);
      payload := buf[..n];
    }

    /** The loop over the recipients. */
    method SendToEach(recipients: seq<Endpoint>, payload: Bytes, ghost players: nat) returns (sent: seq<Datagram>)
      requires |payload| == SnapshotBytes(players)
      modifies this`bytesSent
      ensures sent == ToEach(recipients, payload)
      ensures |sent| == |recipients| && forall i :: 0 <= i < |sent| ==> sent[i] == Datagram(recipients[i], payload)
      ensures bytesSent == old(bytesSent) + Traffic(|recipients|, players)
    {
      sent := [];
      var i := 0;
      while i < |recipients|
        invariant 0 <= i <= |recipients|
        invariant sent == ToEach(recipients[..i], payload)
        invariant bytesSent == old(bytesSent) + Traffic(i, players)
      {
        ToEachNext(recipients, i, payload);
        sent := sent + [Datagram(recipients[i], payload)];
        bytesSent := bytesSent + |payload|;
        i := i + 1;
      }
      assert recipients[..|recipients|] == recipients;
    }

    /** Encodes once and hands the same bytes to every recipient; a snapshot of more than eight players
        does not fit the buffer and is dropped without being counted. */
    method Broadcast(snap: Snapshot, recipients: seq<Endpoint>) returns (total: nat, sent: seq<Datagram>)
      modifies this
      ensures |snap.players| <= MAX_PLAYERS ==>
                && sent == ToEach(recipients, EncodeSnapshot(snap))
                && total == Traffic(|recipients|, |snap.players|)
                && bytesSent == old(bytesSent) + total
                && snapshotsSent == old(snapshotsSent) + 1
      ensures |snap.players| > MAX_PLAYERS ==>
                sent == [] && total == 0 && bytesSent == old(bytesSent) && snapshotsSent == old(snapshotsSent)
    {
      var payload := SnapshotPayload(snap);
      var n := |payload|;
      if n == 0 { return 0, []; }
      sent := SendToEach(recipients, payload, |snap.players|);
      snapshotsSent := snapshotsSent + 1;
      TrafficIsProduct(|recipients|, |snap.players|);
      total := n * |recipients|;
    }
  }
}

/** server/server.cpp as a transition system: what one datagram and one tick do to the server's state. */
module ServerSpec {
  import opened Constants
  import opened Types
  import opened Wire
  import opened World
  import opened Sessions
  import opened Broadcasting

  datatype ServerState = ServerState(
    table: Table, players: map<u16, ServerPlayer>, tick: u32, inputs: nat, bytesSent: nat, snapshots: nat)

  const BOOT := ServerState(Table(map[], map[]), map[], 0, 0, 0, 0)

  // 1280.0f and 720.0f as binary32 words
  const ARENA_WIDTH_WORD: u32 := 0x44A0_0000
  const ARENA_HEIGHT_WORD: u32 := 0x4434_0000

  predicate Owns(t: Table, from: Endpoint, id: u16) {
    from in t.sessions && t.sessions[from].playerId == id
  }

  function OnJoin(s: ServerState, from: Endpoint, now: int): ServerState {
    match IdFor(s.table, from)
    case None => s
    case Some(id) =>
      s.(table := Registered(s.table, from, now),
         players := if id in s.players then s.players else s.players[id := Fresh(id)])
  }

  function OnInput(s: ServerState, from: Endpoint, ip: InputPacket, now: int): ServerState {
    if !Owns(s.table, from, ip.playerId) then s
    else
      var id := ip.playerId;
      s.(table := Touched(s.table, from, now),
         players := if id in s.players
                    then s.players[id := Offer(s.players[id], InputCmd(ip.seqNo, ip.mx, ip.my))]
                    else s.players,
         inputs := s.inputs + 1)
  }

  function OnDisconnect(s: ServerState, from: Endpoint, dn: DisconnectNotice): ServerState {
    if !Owns(s.table, from, dn.playerId) then s
    else s.(table := Removed(s.table, from), players := s.players - {dn.playerId})
  }

  function OnDatagram(s: ServerState, from: Endpoint, d: Bytes, now: int): ServerState {
    if DecodeJoinRequest(d).Some? then OnJoin(s, from, now)
    else if DecodeInput(d).Some? then OnInput(s, from, DecodeInput(d).value, now)
    else if DecodeDisconnect(d).Some? then OnDisconnect(s, from, DecodeDisconnect(d).value)
    else s
  }

  /** What the server sends back: an accept for every admitted join, nothing otherwise. */
  function Replies(s: ServerState, from: Endpoint, d: Bytes): seq<Datagram> {
    if DecodeJoinRequest(d).Some? && IdFor(s.table, from).Some?
    then
      var ja := JoinAccept(IdFor(s.table, from).value, ARENA_WIDTH_WORD, ARENA_HEIGHT_WORD);
      [Datagram(from, EncodeJoinAccept(ja))]
    else []
  }

  predicate Broadcasts(tick: u32) {
    tick % TICKS_PER_SNAPSHOT == 0
  }

  /** Reap, then simulate. */
  function Simulated(ops: VectorOps, s: ServerState, now: int): ServerState {
    s.(table := Reaped(s.table, now),
       players := StepAll(ops, s.players - ExpiredIds(s.table, now)),
       tick := (s.tick + 1) % TWO32)
  }

  predicate Sends(s: ServerState) {
    Broadcasts(s.tick) && |s.players| <= MAX_PLAYERS
  }

  /** What a broadcast adds to the counters. */
  function Accounted(s: ServerState): ServerState {
    if Sends(s)
    then s.(bytesSent := s.bytesSent + Traffic(|s.table.sessions|, |s.players|), snapshots := s.snapshots + 1)
    else s
  }

  function OnTick(ops: VectorOps, s: ServerState, now: int): ServerState {
    Accounted(Simulated(ops, s, now))
  }

  /** A player state on the wire; `bits` is the binary32 encoding of a coordinate. */
  function ToRecord(bits: real -> u32, ps: PlayerState): PlayerRecord {
    PlayerRecord(ps.id, bits(ps.pos.x), bits(ps.pos.y), bits(ps.vel.x), bits(ps.vel.y), ps.lastProcessedInputSeq)
  }

  function ToSnapshot(bits: real -> u32, tick: u32, order: seq<PlayerState>): Snapshot {
    Snapshot(tick, seq(|order|, i requires 0 <= i < |order| => ToRecord(bits, order[i])))
  }

  /** `s` is the state right after a tick; `sent` is what that tick put on the network: one snapshot of
      every player, in some order, to every session once. */
  ghost predicate TickSent(bits: real -> u32, s: ServerState, sent: seq<Datagram>) {
    if Sends(s) then
      exists order :: Enumerates(order, s.players) && SnapshotToAll(bits, s, order, sent)
    else
      sent == []
  }

  ghost predicate SnapshotToAll(bits: real -> u32, s: ServerState, order: seq<PlayerState>, sent: seq<Datagram>) {
    && |sent| == |s.table.sessions|
    && (forall i :: 0 <= i < |sent| ==>
          sent[i].peer in s.table.sessions && sent[i].bytes == EncodeSnapshot(ToSnapshot(bits, s.tick, order)))
    && (forall i, j :: 0 <= i < j < |sent| ==> sent[i].peer != sent[j].peer)
    && (forall ep :: ep in s.table.sessions ==>
          exists i :: 0 <= i < |sent| && sent[i].peer == ep)
  }

  datatype Event = Arrival(from: Endpoint, bytes: Bytes, now: int) | TickAt(now: int)

  function Step(ops: VectorOps, s: ServerState, ev: Event): ServerState {
    match ev
    case Arrival(from, d, now) => OnDatagram(s, from, d, now)
    case TickAt(now) => OnTick(ops, s, now)
  }

  function Run(ops: VectorOps, s: ServerState, evs: seq<Event>): ServerState {
    if evs == [] then s else Step(ops, Run(ops, s, evs[..|evs| - 1]), evs[|evs| - 1])
  }

  /** Session table and world agree. */
  ghost predicate Agree(s: ServerState) {
    && Mutual(s.table)
    && s.players.Keys == s.table.ids.Keys
    && KeyedById(s.players)
  }

  /** One player per session, eight at most. */
  lemma LivePlayers(s: ServerState)
    requires Agree(s)
    ensures |s.players| == |s.table.sessions| <= MAX_PLAYERS
  {
    AtMostEight(s.table);
    assert |s.players.Keys| == |s.table.ids.Keys|;
  }

  lemma JoinAgrees(s: ServerState, from: Endpoint, now: int)
    requires Agree(s)
    ensures Agree(OnJoin(s, from, now))
  {
  }

  lemma InputAgrees(s: ServerState, from: Endpoint, ip: InputPacket, now: int)
    requires Agree(s)
    ensures Agree(OnInput(s, from, ip, now))
  {
  }

  lemma DisconnectAgrees(s: ServerState, from: Endpoint, dn: DisconnectNotice)
    requires Agree(s)
    ensures Agree(OnDisconnect(s, from, dn))
  {
  }

  lemma ArrivalAgrees(s: ServerState, from: Endpoint, d: Bytes, now: int)
    requires Agree(s)
    ensures Agree(OnDatagram(s, from, d, now))
  {
    JoinAgrees(s, from, now);
    if DecodeInput(d).Some? { InputAgrees(s, from, DecodeInput(d).value, now); }
    if DecodeDisconnect(d).Some? { DisconnectAgrees(s, from, DecodeDisconnect(d).value); }
  }

  lemma StepAgrees(ops: VectorOps, s: ServerState, ev: Event)
    requires Agree(s)
    ensures Agree(Step(ops, s, ev))
  {
    match ev
    case Arrival(from, d, now) => ArrivalAgrees(s, from, d, now);
    case TickAt(now) => TickAgrees(ops, s, now);
  }

  lemma TickAgrees(ops: VectorOps, s: ServerState, now: int)
    requires Agree(s)
    ensures Agree(OnTick(ops, s, now))
  {
    ReapedMutual(s.table, now);
    var alive := s.players - ExpiredIds(s.table, now);
    SurvivorsKeyed(ops, s.players, ExpiredIds(s.table, now));
    assert alive.Keys == Reaped(s.table, now).ids.Keys;
    assert OnTick(ops, s, now).table == Reaped(s.table, now) && OnTick(ops, s, now).players == StepAll(ops, alive);
  }

  lemma SurvivorsKeyed(ops: VectorOps, players: map<u16, ServerPlayer>, gone: set<u16>)
    requires KeyedById(players)
    ensures KeyedById(StepAll(ops, players - gone))
    ensures StepAll(ops, players - gone).Keys == players.Keys - gone
  {
  }

  /** In every reachable state the two session maps are inverse and the world holds exactly their players. */
  lemma {:induction false} RunAgrees(ops: VectorOps, s: ServerState, evs: seq<Event>)
    requires Agree(s)
    ensures Agree(Run(ops, s, evs))
  {
    if evs != [] {
      RunAgrees(ops, s, evs[..|evs| - 1]);
      StepAgrees(ops, Run(ops, s, evs[..|evs| - 1]), evs[|evs| - 1]);
    }
  }
}

/** server/server.cpp: the object that owns the world, the sessions and the broadcaster. */
module GameServer {
  import opened Constants
  import opened Types
  import opened Wire
  import opened WireTheorems
  import opened World
  import opened Sessions
  import opened Broadcasting
  import opened ServerSpec
  import Serialization

  class Server {
    const ops: VectorOps
    const bits: real -> u32
    const world: WorldState
    const sessions: SessionManager
    const broadcaster: UdpSnapshotBroadcaster
    var inputsReceivedTotal: nat

    ghost function State(): ServerState
      reads this, world, sessions, broadcaster
    {
      ServerState(sessions.View(), world.players, world.tick, inputsReceivedTotal,
                  broadcaster.bytesSent, broadcaster.snapshotsSent)
    }

    ghost predicate Valid()
      reads this, world, sessions, broadcaster
    {
      world.ops == ops && Agree(State())
    }

    constructor (ops: VectorOps, bits: real -> u32)
      ensures Valid() && State() == BOOT && this.ops == ops && this.bits == bits
      ensures fresh(world) && fresh(sessions) && fresh(broadcaster)
    {
      this.ops, this.bits := ops, bits;
      world := new WorldState(ops);
      sessions := new SessionManager();
      broadcaster := new UdpSnapshotBroadcaster();
      inputsReceivedTotal := 0;
    }

    /** One turn of the loop in `handle_inbound_udp`. */
    method HandleDatagram(from: Endpoint, d: Bytes, now: int) returns (out: seq<Datagram>)
      requires Valid()
      modifies this, world, sessions, broadcaster
      ensures Valid()
      ensures State() == OnDatagram(old(State()), from, d, now)
      ensures out == Replies(old(State()), from, d)
    {
      out := [];
      StepAgrees(ops, State(), Arrival(from, d, now));
      var t := PeekType(d);
      if t == Some(JOIN_REQUEST) {
        out := HandleJoin(from, d, now);
      } else if t == Some(INPUT_COMMAND) {
        HandleInput(from, d, now);
      } else if t == Some(DISCONNECT_NOTICE) {
        HandleDisconnect(from, d);
      }
    }

    method HandleJoin(from: Endpoint, d: Bytes, now: int) returns (out: seq<Datagram>)
      requires Valid()
      modifies world, sessions
      ensures State() == if DecodeJoinRequest(d).Some? then OnJoin(old(State()), from, now) else old(State())
      ensures out == Replies(old(State()), from, d)
    {
      out := [];
      var jr := Serialization.DecodeJoinRequest(d);
      if jr.None? { return; }
      var id := sessions.RegisterOrGet(from, now);
      if id.None? { return; }
      var _ := world.AddPlayer(id.value);
      var bytes := AcceptBytes(JoinAccept(id.value, ARENA_WIDTH_WORD, ARENA_HEIGHT_WORD));
      out := [Datagram(from, bytes)];
    }

    method AcceptBytes(ja: JoinAccept) returns (bytes: Bytes)
      ensures bytes == EncodeJoinAccept(ja)
    {
      var buf := new byte[32](_ => 0);
      var n := Serialization.EncodeJoinAccept(buf, ja);
      assert |EncodeJoinAccept(ja)| == 11;
      bytes := buf[..n];
    }

    method HandleInput(from: Endpoint, d: Bytes, now: int)
      requires Valid()
      modifies this, world, sessions
      ensures State() == if DecodeInput(d).Some? then OnInput(old(State()), from, DecodeInput(d).value, now)
                         else old(State())
    {
      var r := Serialization.DecodeInput(d);
      if r.None? { return; }
      var ip := r.value;
      var owned := sessions.VerifyInput(from, ip.playerId);
      if !owned { return; }
      sessions.Touch(from, now);
      var _ := world.ApplyInput(ip.playerId, ip.seqNo, ip.mx, ip.my);
      inputsReceivedTotal := inputsReceivedTotal + 1;
    }

    method HandleDisconnect(from: Endpoint, d: Bytes)
      requires Valid()
      modifies world, sessions
      ensures State() == if DecodeDisconnect(d).Some? then OnDisconnect(old(State()), from, DecodeDisconnect(d).value)
                         else old(State())
    {
      var r := Serialization.DecodeDisconnect(d);
      if r.None? { return; }
      var owned := sessions.VerifyInput(from, r.value.playerId);
      if owned {
        var _ := world.RemovePlayer(r.value.playerId);
        var _ := sessions.RemoveByEndpoint(from);
      }
    }

    /** `tick_and_maybe_broadcast`. */
    method Tick(now: int) returns (sent: seq<Datagram>)
      requires Valid()
      modifies world, sessions, broadcaster
      ensures Valid()
      ensures State() == OnTick(ops, old(State()), now)
      ensures TickSent(bits, State(), sent)
    {
      ReapAndStep(now);
      sent := MaybeBroadcast();
    }

    method ReapAndStep(now: int)
      requires Valid()
      modifies world, sessions
      ensures Valid()
      ensures State() == Simulated(ops, old(State()), now)
    {
      TickAgrees(ops, State(), now);
      Reap(now);
      world.StepTick();
    }

    method Reap(now: int)
      requires Mutual(sessions.View()) && world.Valid()
      modifies world, sessions
      ensures world.Valid() && world.tick == old(world.tick)
      ensures sessions.View() == Reaped(old(sessions.View()), now)
      ensures world.players == old(world.players) - ExpiredIds(old(sessions.View()), now)
    {
      ghost var expired := ExpiredIds(sessions.View(), now);
      var dead := sessions.ReapTimeouts(now);
      RemovePlayers(dead);
      assert (set id | id in dead) == expired;
    }

    method RemovePlayers(dead: seq<u16>)
      requires world.Valid()
      modifies world
      ensures world.Valid() && world.tick == old(world.tick)
      ensures world.players == old(world.players) - (set id | id in dead)
    {
      ghost var gone: set<u16> := {};
      for i := 0 to |dead|
        invariant world.Valid() && world.tick == old(world.tick)
        invariant gone == set id | id in dead[..i]
        invariant world.players == old(world.players) - gone
      {
        var _ := world.RemovePlayer(dead[i]);
        assert dead[..i + 1] == dead[..i] + [dead[i]];
        gone := gone + {dead[i]};
      }
      assert dead[..|dead|] == dead;
    }

    method MaybeBroadcast() returns (sent: seq<Datagram>)
      requires Valid()
      modifies broadcaster
      ensures Valid()
      ensures State() == Accounted(old(State()))
      ensures TickSent(bits, State(), sent)
    {
      if Broadcasts(world.tick) {
        sent := BroadcastState();
      } else {
        sent := [];
      }
    }

    method BroadcastState() returns (sent: seq<Datagram>)
      requires Valid() && Broadcasts(world.tick)
      modifies broadcaster
      ensures Valid()
      ensures State() == Accounted(old(State()))
      ensures TickSent(bits, State(), sent)
    {
      LivePlayers(State());
      ghost var order, recipients;
      sent, order, recipients := CollectAndSend();
      BroadcastOutcome(bits, old(State()), State(), order, recipients, sent);
    }

    method CollectAndSend()
      returns (sent: seq<Datagram>, ghost order: seq<PlayerState>, ghost recipients: seq<Endpoint>)
      requires world.Valid() && |world.players| <= MAX_PLAYERS
      modifies broadcaster
      ensures Enumerates(order, world.players)
      ensures |recipients| == |sessions.sessions|
      ensures forall ep :: ep in recipients <==> ep in sessions.sessions
      ensures forall i, j :: 0 <= i < j < |recipients| ==> recipients[i] != recipients[j]
      ensures sent == ToEach(recipients, EncodeSnapshot(ToSnapshot(bits, world.tick, order)))
      ensures broadcaster.bytesSent == old(broadcaster.bytesSent) + Traffic(|recipients|, |order|)
      ensures broadcaster.snapshotsSent == old(broadcaster.snapshotsSent) + 1
    {
      var players := world.CollectPlayerStates();
      var endpoints := sessions.AllEndpoints();
      var total;
      total, sent := broadcaster.Broadcast(ToSnapshot(bits, world.tick, players), endpoints);
      order, recipients := players, endpoints;
    }
  }

  lemma AccountedIs(was: ServerState, s: ServerState)
    requires Sends(was)
    requires s.table == was.table && s.players == was.players && s.tick == was.tick && s.inputs == was.inputs
    requires s.bytesSent == was.bytesSent + Traffic(|was.table.sessions|, |was.players|)
    requires s.snapshots == was.snapshots + 1
    ensures s == Accounted(was)
  {
  }

  lemma BroadcastOutcome(bits: real -> u32, was: ServerState, s: ServerState, order: seq<PlayerState>,
                         recipients: seq<Endpoint>, sent: seq<Datagram>)
    requires Agree(was) && Broadcasts(was.tick) && Enumerates(order, was.players)
    requires |recipients| == |was.table.sessions|
    requires forall ep :: ep in recipients <==> ep in was.table.sessions
    requires forall i, j :: 0 <= i < j < |recipients| ==> recipients[i] != recipients[j]
    requires sent == ToEach(recipients, EncodeSnapshot(ToSnapshot(bits, was.tick, order)))
    requires s.table == was.table && s.players == was.players && s.tick == was.tick && s.inputs == was.inputs
    requires s.bytesSent == was.bytesSent + Traffic(|recipients|, |order|) && s.snapshots == was.snapshots + 1
    ensures s == Accounted(was) && Agree(s) && TickSent(bits, s, sent)
  {
    LivePlayers(was);
    AccountedIs(was, s);
    EachSessionOnce(bits, was, order, recipients, sent);
  }

  lemma EachSessionOnce(bits: real -> u32, s: ServerState, order: seq<PlayerState>,
                        recipients: seq<Endpoint>, sent: seq<Datagram>)
    requires |recipients| == |s.table.sessions|
    requires forall ep :: ep in recipients <==> ep in s.table.sessions
    requires forall i, j :: 0 <= i < j < |recipients| ==> recipients[i] != recipients[j]
    requires sent == ToEach(recipients, EncodeSnapshot(ToSnapshot(bits, s.tick, order)))
    ensures SnapshotToAll(bits, s, order, sent)
    ensures SnapshotToAll(bits, Accounted(s), order, sent)
  {
    forall ep | ep in s.table.sessions ensures exists i :: 0 <= i < |sent| && sent[i].peer == ep {
      var i :| 0 <= i < |recipients| && recipients[i] == ep;
      assert sent[i].peer == ep;
    }
  }

  /** Every broadcast of a reachable state fits the buffer, carries every live player, and decodes to the
      same tick and the same list. */
  lemma BroadcastTotal(bits: real -> u32, s: ServerState, order: seq<PlayerState>, rest: Bytes)
    requires Agree(s) && Enumerates(order, s.players)
    ensures var b := EncodeSnapshot(ToSnapshot(bits, s.tick, order));
            && |b| == 7 + 22 * |s.table.sessions| <= MAX_SNAPSHOT_BYTES
            && DecodeSnapshot(b + rest) == Some(ToSnapshot(bits, s.tick, order))
  {
    LivePlayers(s);
    var snap := ToSnapshot(bits, s.tick, order);
    SnapshotSize(snap);
    SnapshotInverse(EncodeSnapshot(snap) + rest, snap);
  }

  /** In a reachable state no broadcast is ever dropped, and with n live sessions it adds
      n * (7 + 22 * n) bytes and one snapshot. */
  lemma BroadcastAccounting(s: ServerState)
    requires Agree(s)
    ensures Accounted(s) ==
            if Broadcasts(s.tick)
            then
              var n := |s.table.sessions|;
              s.(bytesSent := s.bytesSent + n * (7 + 22 * n), snapshots := s.snapshots + 1)
            else s
  {
    LivePlayers(s);
    TrafficIsProduct(|s.table.sessions|, |s.players|);
  }

  function Ticks(evs: seq<Event>): nat {
    if evs == [] then 0 else Ticks(evs[..|evs| - 1]) + if evs[|evs| - 1].TickAt? then 1 else 0
  }

  /** Counters after n ticks. */
  ghost predicate Counted(s: ServerState, n: nat) {
    s.tick == n && s.snapshots == n / TICKS_PER_SNAPSHOT
  }

  lemma NextThird(n: nat)
    requires n + 1 < TWO32
    ensures (n + 1) / TICKS_PER_SNAPSHOT == n / TICKS_PER_SNAPSHOT + if Broadcasts(n + 1) then 1 else 0
  {
  }

  lemma TickCounts(ops: VectorOps, s: ServerState, now: int)
    requires Agree(s)
    ensures OnTick(ops, s, now).tick == (s.tick + 1) % TWO32
    ensures OnTick(ops, s, now).snapshots == s.snapshots + if Broadcasts((s.tick + 1) % TWO32) then 1 else 0
  {
    TickAgrees(ops, s, now);
    BroadcastAccounting(Simulated(ops, s, now));
  }

  lemma ArrivalCounts(s: ServerState, from: Endpoint, d: Bytes, now: int)
    ensures OnDatagram(s, from, d, now).tick == s.tick
    ensures OnDatagram(s, from, d, now).snapshots == s.snapshots
    ensures OnDatagram(s, from, d, now).bytesSent == s.bytesSent
  {
  }

  lemma StepCounts(ops: VectorOps, s: ServerState, ev: Event, n: nat)
    requires Agree(s) && Counted(s, n) && (ev.TickAt? ==> n + 1 < TWO32)
    ensures Counted(Step(ops, s, ev), if ev.TickAt? then n + 1 else n)
  {
    match ev
    case Arrival(from, d, now) =>
      ArrivalCounts(s, from, d, now);
    case TickAt(now) =>
      TickCounts(ops, s, now);
      NextThird(n);
      assert (n + 1) % TWO32 == n + 1;
  }

  /** After T ticks exactly T / 3 snapshots have been counted, until the 32-bit tick counter wraps. */
  lemma {:induction false} OneSnapshotInThree(ops: VectorOps, evs: seq<Event>)
    requires Ticks(evs) < TWO32
    ensures Run(ops, BOOT, evs).tick == Ticks(evs)
    ensures Run(ops, BOOT, evs).snapshots == Ticks(evs) / 3
  {
    if evs != [] {
      var init := evs[..|evs| - 1];
      OneSnapshotInThree(ops, init);
      RunAgrees(ops, BOOT, init);
      StepCounts(ops, Run(ops, BOOT, init), evs[|evs| - 1], Ticks(init));
    }
  }

  // ----- what an accept says

  function PowerOfTwo(n: nat): real {
    if n == 0 then 1.0 else 2.0 * PowerOfTwo(n - 1)
  }

  /** The value of a positive normal binary32 word of at least one (IEEE 754-2008, section 3.4). */
  function Binary32(w: u32): real
    requires 127 <= w / 0x80_0000 < 0xff
  {
    (1.0 + (w % 0x80_0000) as real / 8388608.0) * PowerOfTwo(w / 0x80_0000 - 127)
  }

  lemma ArenaWords()
    ensures Binary32(ARENA_WIDTH_WORD) == ARENA_WIDTH && Binary32(ARENA_HEIGHT_WORD) == ARENA_HEIGHT
  {
    assert PowerOfTwo(9) == 512.0 && PowerOfTwo(10) == 1024.0 by { PowersOfTwo(); }
    assert ARENA_WIDTH_WORD / 0x80_0000 == 137 && ARENA_WIDTH_WORD % 0x80_0000 == 0x20_0000;
    assert ARENA_HEIGHT_WORD / 0x80_0000 == 136 && ARENA_HEIGHT_WORD % 0x80_0000 == 0x34_0000;
  }

  lemma PowersOfTwo()
    ensures PowerOfTwo(9) == 512.0 && PowerOfTwo(10) == 1024.0
  {
    assert PowerOfTwo(3) == 8.0;
    assert PowerOfTwo(6) == 64.0;
    assert PowerOfTwo(9) == 512.0;
  }

  /** An admitted join is answered with one accept, to the endpoint that asked, that names its id and the size of the
      arena; anything else is not answered. */
  lemma AcceptSays(s: ServerState, from: Endpoint, d: Bytes)
    ensures var out := Replies(s, from, d);
            if DecodeJoinRequest(d).Some? && IdFor(s.table, from).Some?
            then
              && |out| == 1 && out[0].peer == from
              && var ja := DecodeJoinAccept(out[0].bytes);
                 && ja.Some? && ja.value.playerId == IdFor(s.table, from).value
                 && ja.value.arenaW == 0x44A0_0000 && ja.value.arenaH == 0x4434_0000
            else out == []
  {
    if DecodeJoinRequest(d).Some? && IdFor(s.table, from).Some? {
      var ja := JoinAccept(IdFor(s.table, from).value, ARENA_WIDTH_WORD, ARENA_HEIGHT_WORD);
      JoinAcceptInverse(EncodeJoinAccept(ja), ja);
    }
  }
}

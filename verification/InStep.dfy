/** Lockstep over the whole system: bytes, sessions, other players and an unreliable network included. */
module SystemLockstep {
  import opened Constants
  import opened Types
  import opened Wire
  import opened Motion
  import opened Folding
  import opened Prediction
  import opened World
  import opened InputRegister
  import opened Sessions
  import opened ServerSpec
  import opened Isolation
  import opened ClientSpec
  import opened Protocol

  // ----- what "in step" asks of an execution

  /** The datagram is an input of the endpoint's own session, newer than any accepted so far. */
  predicate IsNew(s: System, e: Endpoint, d: Datagram) {
    var v := ViewOf(s.server, e);
    && d.peer == e && v.Live? && Claims(d.bytes, v.id)
    && Command(d.bytes).seqNo > v.player.latestSeenSeq
  }

  function OpenNext(s: System, e: Endpoint, open: bool, a: Action): bool {
    match a
    case ServerTick(_, _) => false
    case ToServer(d, _) => open || IsNew(s, e, d)
    case _ => open
  }

  /** Whether the newest accepted input has not been simulated yet. */
  function Open(p: Platform, s: System, e: Endpoint, actions: seq<Action>): bool {
    if actions == [] then false
    else
      var init := actions[..|actions| - 1];
      OpenNext(After(p, s, init), e, Open(p, s, e, init), actions[|actions| - 1])
  }

  /** The next input reaches the server after the tick that simulated the one before it ... */
  predicate InputInTurn(s: System, e: Endpoint, open: bool, d: Datagram) {
    IsNew(s, e, d) ==> !open && Command(d.bytes).seqNo == ViewOf(s.server, e).player.latestSeenSeq + 1
  }

  /** ... and before the next tick. Ticks before the first input do not count. */
  predicate TickInTurn(s: System, e: Endpoint, open: bool) {
    ViewOf(s.server, e).Live? ==> open || ViewOf(s.server, e).player.latestSeenSeq == 0
  }

  predicate NominalKey(key: Key) {
    key.predict && FrameTime(key.dt) == DT_SECONDS && -1 <= key.mx <= 1 && -1 <= key.my <= 1
  }

  /** Prediction is on, and a snapshot that is processed is at most 120 inputs old. */
  ghost predicate Timely(n: Node, b: Bytes, predict: bool) {
    n.phase == Playing && DecodeSnapshot(b).Some? ==>
      && predict
      && forall i :: 0 <= i < |DecodeSnapshot(b).value.players| && DecodeSnapshot(b).value.players[i].id == n.c.pid ==>
           Sent(n) <= DecodeSnapshot(b).value.players[i].lastSeq + INPUT_HISTORY_SIZE
  }

  /** What one action must not do to stay in step with client `e`. Losing, repeating and reordering datagrams, and
      everything the other clients and strangers do, is free. */
  ghost predicate KeepsPace(s: System, e: Endpoint, open: bool, a: Action)
    requires e in s.nodes
  {
    match a
    case ToServer(d, _) => InputInTurn(s, e, open, d)
    case ServerTick(_, _) => TickInTurn(s, e, open)
    case PlayerInput(f, key) => f == e ==> NominalKey(key)
    case ToClient(d, _, predict) => d.peer == e ==> Timely(s.nodes[e], d.bytes, predict)
    case _ => true
  }

  ghost predicate Paced(p: Platform, s: System, e: Endpoint, actions: seq<Action>) {
    forall i :: 0 <= i < |actions| ==>
      e in After(p, s, actions[..i]).nodes
      && KeepsPace(After(p, s, actions[..i]), e, Open(p, s, e, actions[..i]), actions[i])
  }

  predicate OnWire(p: Platform, q: Vec2) {
    Representable(p, q.x) && Representable(p, q.y)
  }

  /** Moves end on numbers the wire can carry, as binary32 moves do; a player without a direction stays at the centre;
      and strangers send clients no snapshots. */
  ghost predicate Faithful(p: Platform) {
    && (forall q, mx, my :: OnWire(p, ApplyMove(p.ops, q, mx, my, DT_SECONDS)))
    && Stays(p.ops, CENTRE)
    && (forall b :: p.mayStray(b) ==> DecodeSnapshot(b).None?)
  }

  // ----- the invariant

  /** Where the first k inputs lead. */
  function At(ops: VectorOps, log: seq<PredictedInput>, k: nat): Vec2
    requires k <= |log|
  {
    Replay(ops, CENTRE, log[..k])
  }

  /** The direction sent under number k; none under 0. */
  function Direction(log: seq<PredictedInput>, k: nat): (i8, i8)
    requires k <= |log|
  {
    if k == 0 then (0, 0) else (log[k - 1].mx, log[k - 1].my)
  }

  ghost predicate LogFits(ops: VectorOps, n: Node) {
    && n.c.localPos == Replay(ops, CENTRE, n.c.log)
    && forall i {:trigger n.c.log[i]} :: 0 <= i < |n.c.log| ==>
         -1 <= n.c.log[i].mx <= 1 && -1 <= n.c.log[i].my <= 1 && n.c.log[i].dt == DT_SECONDS
  }

  /** The server has simulated all accepted inputs, but for the newest if that is still `open`. */
  ghost predicate ServerFits(ops: VectorOps, log: seq<PredictedInput>, v: Solo, open: bool) {
    v.Live? ==>
      var k := v.player.latestSeenSeq;
      && k <= |log| && Synced(v.player) && (open ==> k > 0)
      && (v.player.pendingMx, v.player.pendingMy) == Direction(log, k)
      && v.player.state.pos == At(ops, log, if open then k - 1 else k)
  }

  ghost predicate UpFits(log: seq<PredictedInput>, b: Bytes) {
    DecodeInput(b).Some? ==>
      var ip := DecodeInput(b).value;
      1 <= ip.seqNo <= |log| && (ip.mx, ip.my) == Direction(log, ip.seqNo)
  }

  ghost predicate RecordFits(p: Platform, log: seq<PredictedInput>, r: PlayerRecord) {
    r.lastSeq <= |log| && Vec2(p.value(r.x), p.value(r.y)) == At(p.ops, log, r.lastSeq)
  }

  ghost predicate RecordsFit(p: Platform, log: seq<PredictedInput>, id: u16, players: seq<PlayerRecord>) {
    forall i :: 0 <= i < |players| && players[i].id == id ==> RecordFits(p, log, players[i])
  }

  ghost predicate DownFits(p: Platform, log: seq<PredictedInput>, known: bool, id: u16, b: Bytes) {
    DecodeSnapshot(b).Some? ==> known && RecordsFit(p, log, id, DecodeSnapshot(b).value.players)
  }

  ghost predicate NetFits(p: Platform, e: Endpoint, log: seq<PredictedInput>, up: multiset<Datagram>,
                          down: multiset<Datagram>, known: bool, id: u16)
  {
    && (forall d :: d in up && d.peer == e ==> UpFits(log, d.bytes))
    && (forall d :: d in down && d.peer == e ==> DownFits(p, log, known, id, d.bytes))
  }

  ghost predicate InStep(p: Platform, s: System, e: Endpoint, open: bool) {
    && e in s.nodes && (open ==> e in s.given) && LogFits(p.ops, s.nodes[e])
    && ServerFits(p.ops, s.nodes[e].c.log, ViewOf(s.server, e), open)
    && NetFits(p, e, s.nodes[e].c.log, s.up, s.down, e in s.given, GivenId(s, e))
  }

  // ----- the log grows

  lemma AtGrows(ops: VectorOps, log: seq<PredictedInput>, pi: PredictedInput, k: nat)
    requires k <= |log|
    ensures At(ops, log + [pi], k) == At(ops, log, k) && Direction(log + [pi], k) == Direction(log, k)
  {
    assert (log + [pi])[..k] == log[..k];
  }

  lemma ServerFitsGrows(ops: VectorOps, log: seq<PredictedInput>, pi: PredictedInput, v: Solo, open: bool)
    requires ServerFits(ops, log, v, open)
    ensures ServerFits(ops, log + [pi], v, open)
  {
    if v.Live? {
      var k := v.player.latestSeenSeq;
      AtGrows(ops, log, pi, k);
      AtGrows(ops, log, pi, if open then k - 1 else k);
    }
  }

  lemma NetFitsGrows(p: Platform, e: Endpoint, log: seq<PredictedInput>, pi: PredictedInput, up: multiset<Datagram>,
                     down: multiset<Datagram>, known: bool, id: u16)
    requires NetFits(p, e, log, up, down, known, id)
    ensures NetFits(p, e, log + [pi], up, down, known, id)
  {
    forall d | d in up && d.peer == e ensures UpFits(log + [pi], d.bytes) {
      if DecodeInput(d.bytes).Some? { AtGrows(p.ops, log, pi, DecodeInput(d.bytes).value.seqNo); }
    }
    forall d | d in down && d.peer == e ensures DownFits(p, log + [pi], known, id, d.bytes) {
      assert DownFits(p, log, known, id, d.bytes);
      if DecodeSnapshot(d.bytes).Some? { RecordsFitGrows(p, log, pi, id, DecodeSnapshot(d.bytes).value.players); }
    }
  }

  lemma RecordsFitGrows(p: Platform, log: seq<PredictedInput>, pi: PredictedInput, id: u16, players: seq<PlayerRecord>)
    requires RecordsFit(p, log, id, players)
    ensures RecordsFit(p, log + [pi], id, players)
  {
    forall i | 0 <= i < |players| && players[i].id == id ensures RecordFits(p, log + [pi], players[i]) {
      AtGrows(p.ops, log, pi, players[i].lastSeq);
    }
  }

  lemma UpGains(p: Platform, e: Endpoint, log: seq<PredictedInput>, up: multiset<Datagram>, down: multiset<Datagram>,
                known: bool, id: u16, b: Bytes)
    requires NetFits(p, e, log, up, down, known, id) && UpFits(log, b)
    ensures NetFits(p, e, log, up + multiset{Datagram(e, b)}, down, known, id)
  {
  }

  lemma PressShape(p: Platform, n: Node, key: Key)
    requires NominalKey(key)
    ensures var m := Press(p, n, key);
            && m.c.log == n.c.log + [PredictedInput(SeqAt(|n.c.log|), key.mx, key.my, DT_SECONDS)]
            && m.c.localPos == ApplyMove(p.ops, n.c.localPos, key.mx, key.my, DT_SECONDS)
  {
  }

  lemma PressFits(ops: VectorOps, n: Node, m: Node, key: Key)
    requires LogFits(ops, n) && NominalKey(key)
    requires m.c.log == n.c.log + [PredictedInput(SeqAt(|n.c.log|), key.mx, key.my, DT_SECONDS)]
    requires m.c.localPos == ApplyMove(ops, n.c.localPos, key.mx, key.my, DT_SECONDS)
    ensures LogFits(ops, m)
  {
    assert m.c.log[..|n.c.log|] == n.c.log;
  }

  lemma PressInStep(p: Platform, s: System, e: Endpoint, key: Key, open: bool)
    requires InStep(p, s, e, open) && NominalKey(key) && Sent(s.nodes[e]) + 2 < TWO32
    ensures InStep(p, NextInput(p, s, e, key), e, open)
  {
    var n := s.nodes[e];
    var m := Press(p, n, key);
    var pi := PredictedInput(SeqAt(|n.c.log|), key.mx, key.my, DT_SECONDS);
    PressShape(p, n, key);
    PressFits(p.ops, n, m, key);
    ServerFitsGrows(p.ops, n.c.log, pi, ViewOf(s.server, e), open);
    NetFitsGrows(p, e, n.c.log, pi, s.up, s.down, e in s.given, GivenId(s, e));
    InputReads(n, key.mx, key.my);
    SeqAtIsIndex(|n.c.log|);
    UpGains(p, e, m.c.log, s.up, s.down, e in s.given, GivenId(s, e), InputBytes(n, key.mx, key.my));
  }

  // ----- the server

  lemma TickFits(p: Platform, log: seq<PredictedInput>, v: Solo, r: Solo, open: bool)
    requires Faithful(p) && ServerFits(p.ops, log, v, open) && v.Live? && r.Live?
    requires r == Live(v.id, v.lastHeard, StepPlayer(p.ops, v.player))
    requires forall i {:trigger log[i]} :: 0 <= i < |log| ==> log[i].dt == DT_SECONDS
    requires open || v.player.latestSeenSeq == 0
    ensures ServerFits(p.ops, log, r, false) && OnWire(p, r.player.state.pos)
  {
    var k := v.player.latestSeenSeq;
    ServerMovesAsClient(p.ops, v.player);
    if k > 0 { assert log[..k][..k - 1] == log[..k - 1]; }
  }

  lemma OfferFits(ops: VectorOps, log: seq<PredictedInput>, v: Solo, open: bool, c: InputCmd, now: int)
    requires ServerFits(ops, log, v, open) && v.Live?
    requires 1 <= c.seqNo <= |log| && (c.mx, c.my) == Direction(log, c.seqNo)
    requires -1 <= c.mx <= 1 && -1 <= c.my <= 1
    requires c.seqNo > v.player.latestSeenSeq ==> !open && c.seqNo == v.player.latestSeenSeq + 1
    ensures ServerFits(ops, log, Live(v.id, now, Offer(v.player, c)), open || c.seqNo > v.player.latestSeenSeq)
  {
  }

  lemma ViewUntouched(s: ServerState, e: Endpoint, d: Datagram, now: int)
    requires Agree(s) && d.peer != e
    ensures ViewOf(OnDatagram(s, d.peer, d.bytes, now), e) == ViewOf(s, e)
  {
    OthersUntouched(s, d.peer, d.bytes, now, e);
  }

  lemma OtherArrives(p: Platform, s: System, e: Endpoint, d: Datagram, now: int, open: bool)
    requires Inv(s) && InStep(p, s, e, open) && d in s.up && d.peer != e
    ensures InStep(p, NextToServer(s, d, now), e, open)
  {
    var t := NextToServer(s, d, now);
    ViewUntouched(s.server, e, d, now);
    assert forall x :: x in t.up ==> x in s.up;
    assert forall x :: x in t.down && x.peer == e ==> x in s.down;
  }

  lemma JoinFits(p: Platform, s: System, e: Endpoint, d: Datagram, now: int, open: bool)
    requires Inv(s) && InStep(p, s, e, open) && d in s.up && d.peer == e && DecodeJoinRequest(d.bytes).Some?
    ensures InStep(p, NextToServer(s, d, now), e, open)
  {
    var n := s.nodes[e];
    var t := NextToServer(s, d, now);
    assert ClientInv(s, e);
    assert UpOk(n, d.bytes) && d == Datagram(e, JOIN);
    JoinConsumed(e, n, s.up, e in s.given);
    JoinStartsFresh(p.ops, s.server, e, d.bytes, now);
    assert ServerFits(p.ops, n.c.log, ViewOf(t.server, e), false);
    JoinNetFits(p, s, e, d, now);
  }

  /** Nothing but accepts had been on its way to a client that joins. */
  lemma JoinNetFits(p: Platform, s: System, e: Endpoint, d: Datagram, now: int)
    requires e in s.nodes && d.peer == e && DecodeJoinRequest(d.bytes).Some?
    requires NetFits(p, e, s.nodes[e].c.log, s.up, s.down, false, 0) && e !in s.given
    ensures var t := NextToServer(s, d, now);
            NetFits(p, e, s.nodes[e].c.log, t.up, t.down, e in t.given, GivenId(t, e))
  {
    var t := NextToServer(s, d, now);
    var log := s.nodes[e].c.log;
    assert forall x :: x in t.up ==> x in s.up;
    forall x | x in t.down && x.peer == e ensures DownFits(p, log, e in t.given, GivenId(t, e), x.bytes) {
      if x in s.down {
        assert DownFits(p, log, false, 0, x.bytes);
      } else {
        AcceptReads(JoinAccept(IdFor(s.server.table, e).value, ARENA_WIDTH_WORD, ARENA_HEIGHT_WORD));
      }
    }
  }

  /** What an input or a disconnect notice of its own does to a session. */
  lemma OwnFits(p: Platform, s: System, e: Endpoint, d: Datagram, now: int, open: bool)
    requires Inv(s) && InStep(p, s, e, open) && d in s.up && d.peer == e && DecodeJoinRequest(d.bytes).None?
    requires InputInTurn(s, e, open, d)
    ensures ServerFits(p.ops, s.nodes[e].c.log, ViewOf(OnDatagram(s.server, e, d.bytes, now), e),
                       open || IsNew(s, e, d))
  {
    var v := ViewOf(s.server, e);
    if v.Live? {
      StepIsolated(p.ops, s.server, e, Arrival(e, d.bytes, now));
      NotBoth(d.bytes);
      if Claims(d.bytes, v.id) {
        OfferFits(p.ops, s.nodes[e].c.log, v, open, Command(d.bytes), now);
      }
    } else {
      GoneStays(p.ops, s.server, e, Arrival(e, d.bytes, now));
    }
  }

  lemma OwnArrives(p: Platform, s: System, e: Endpoint, d: Datagram, now: int, open: bool)
    requires Inv(s) && InStep(p, s, e, open) && d in s.up && d.peer == e && DecodeJoinRequest(d.bytes).None?
    requires InputInTurn(s, e, open, d)
    ensures InStep(p, NextToServer(s, d, now), e, open || IsNew(s, e, d))
  {
    var t := NextToServer(s, d, now);
    OwnFits(p, s, e, d, now, open);
    assert ClientInv(s, e);
    assert t.down == s.down && t.given == s.given;
    assert forall x :: x in t.up ==> x in s.up;
  }

  lemma RecordIsState(p: Platform, log: seq<PredictedInput>, ps: PlayerState)
    requires OnWire(p, ps.pos) && ps.lastProcessedInputSeq <= |log|
    requires ps.pos == At(p.ops, log, ps.lastProcessedInputSeq)
    ensures RecordFits(p, log, ToRecord(p.bits, ps))
  {
  }

  lemma SnapshotFits(p: Platform, server: ServerState, order: seq<PlayerState>, log: seq<PredictedInput>, v: Solo)
    requires v.Live? && v.id in server.players && server.players[v.id] == v.player && v.player.state.id == v.id
    requires Enumerates(order, server.players)
    requires ServerFits(p.ops, log, v, false) && OnWire(p, v.player.state.pos)
    ensures RecordsFit(p, log, v.id, ToSnapshot(p.bits, server.tick, order).players)
  {
    var records := ToSnapshot(p.bits, server.tick, order).players;
    forall i | 0 <= i < |records| && records[i].id == v.id ensures RecordFits(p, log, records[i]) {
      assert order[i].id == v.id && order[i] == v.player.state;
      RecordIsState(p, log, order[i]);
    }
  }

  lemma SentFits(p: Platform, server: ServerState, sent: seq<Datagram>, e: Endpoint, log: seq<PredictedInput>, id: u16)
    requires Agree(server) && TickSent(p.bits, server, sent)
    requires var v := ViewOf(server, e);
             v.Live? ==> v.id == id && ServerFits(p.ops, log, v, false) && OnWire(p, v.player.state.pos)
    ensures forall d :: d in sent && d.peer == e ==> DownFits(p, log, true, id, d.bytes)
  {
    if Sends(server) {
      var order :| Enumerates(order, server.players) && SnapshotToAll(p.bits, server, order, sent);
      SnapshotReads(p.bits, server, order);
      forall d | d in sent && d.peer == e ensures DownFits(p, log, true, id, d.bytes) {
        var i :| 0 <= i < |sent| && sent[i] == d;
        assert e in server.table.sessions && ViewOf(server, e).Live?;
        SnapshotFits(p, server, order, log, ViewOf(server, e));
      }
    }
  }

  lemma TickMovesView(p: Platform, s: System, e: Endpoint, now: int, open: bool)
    requires Inv(s) && InStep(p, s, e, open) && TickInTurn(s, e, open) && Faithful(p)
    ensures var r := ViewOf(OnTick(p.ops, s.server, now), e);
            ServerFits(p.ops, s.nodes[e].c.log, r, false)
            && (r.Live? ==> e in s.given && r.id == GivenId(s, e) && OnWire(p, r.player.state.pos))
  {
    var v := ViewOf(s.server, e);
    assert ClientInv(s, e);
    if v.Live? {
      TickIsolated(p.ops, s.server, e, now);
      var r := ViewOf(OnTick(p.ops, s.server, now), e);
      if r.Live? { TickFits(p, s.nodes[e].c.log, v, r, open); }
    } else {
      GoneStays(p.ops, s.server, e, TickAt(now));
    }
  }

  lemma DownGains(p: Platform, e: Endpoint, log: seq<PredictedInput>, up: multiset<Datagram>, down: multiset<Datagram>,
                  known: bool, id: u16, more: seq<Datagram>)
    requires NetFits(p, e, log, up, down, known, id)
    requires forall d :: d in more && d.peer == e ==> DownFits(p, log, known, id, d.bytes)
    ensures NetFits(p, e, log, up, down + multiset(more), known, id)
  {
  }

  lemma NothingSent(p: Platform, server: ServerState, sent: seq<Datagram>, e: Endpoint, d: Datagram)
    requires Agree(server) && TickSent(p.bits, server, sent) && ViewOf(server, e).Gone?
    ensures !(d in sent && d.peer == e)
  {
    assert e !in server.table.sessions;
  }

  lemma TickInStep(p: Platform, s: System, e: Endpoint, now: int, sent: seq<Datagram>, open: bool)
    requires Inv(s) && InStep(p, s, e, open) && TickInTurn(s, e, open) && Faithful(p)
    requires TickSent(p.bits, OnTick(p.ops, s.server, now), sent)
    ensures InStep(p, NextTick(p.ops, s, now, sent), e, false)
  {
    var server, log := OnTick(p.ops, s.server, now), s.nodes[e].c.log;
    TickAgrees(p.ops, s.server, now);
    TickMovesView(p, s, e, now, open);
    var known, id := e in s.given, GivenId(s, e);
    forall d | d in sent && d.peer == e ensures DownFits(p, log, known, id, d.bytes) {
      if ViewOf(server, e).Gone? { NothingSent(p, server, sent, e, d); } else { SentFits(p, server, sent, e, log, id); }
    }
    DownGains(p, e, log, s.up, s.down, known, id, sent);
  }

  // ----- the client

  /** The newest record of a player is one of those in the snapshot. */
  lemma {:induction false} LearnsOne(latest: map<u16, PlayerState>, players: seq<PlayerState>, pid: u16)
    returns (i: nat)
    requires exists j :: 0 <= j < |players| && players[j].id == pid
    ensures i < |players| && players[i].id == pid && pid in Learn(latest, players)
    ensures Learn(latest, players)[pid] == players[i]
  {
    var init, last := players[..|players| - 1], |players| - 1;
    if players[last].id == pid {
      i := last;
    } else {
      var j :| 0 <= j < |players| && players[j].id == pid;
      assert init[j].id == pid;
      i := LearnsOne(latest, init, pid);
    }
  }

  /** Snapping to where some prefix led and replaying the rest changes nothing. */
  lemma ReconciledInStep(ops: VectorOps, log: seq<PredictedInput>, own: PlayerState)
    requires Numbered(log) && |log| + 1 < TWO32
    requires own.lastProcessedInputSeq <= |log| <= own.lastProcessedInputSeq + INPUT_HISTORY_SIZE
    requires own.pos == At(ops, log, own.lastProcessedInputSeq)
    ensures Reconciled(ops, log, own) == Replay(ops, CENTRE, log)
  {
    var k := own.lastProcessedInputSeq;
    RingKeepsNewest(log, k);
    assert Unacked(Window(log), k) == log[k..];
    SnapAndReplay(Mover(ops), CENTRE, log, k);
  }

  lemma SnapshotInStep(p: Platform, n: Node, b: Bytes, recvMs: u64, predict: bool, known: bool, id: u16)
    requires NodeInv(n, known, id) && DownOk(n, known, id, b) && n.phase == Playing && DecodeSnapshot(b).Some?
    requires LogFits(p.ops, n) && DownFits(p, n.c.log, known, id, b) && Timely(n, b, predict)
    ensures LogFits(p.ops, Receive(p, n, b, recvMs, predict))
  {
    var records := DecodeSnapshot(b).value.players;
    var players := FromSnapshot(p.value, DecodeSnapshot(b).value);
    BlankReads(records, id, Sent(n));
    var j :| 0 <= j < |records| && records[j].id == id;
    assert players[j].id == n.c.pid;
    var i := LearnsOne(n.c.latest, players, n.c.pid);
    assert records[i].id == id && RecordFits(p, n.c.log, records[i]);
    ReconciledInStep(p.ops, n.c.log, players[i]);
    assert Own(n.c, players) == Some(players[i]);
  }

  lemma ReceiveFits(p: Platform, n: Node, b: Bytes, recvMs: u64, predict: bool, known: bool, id: u16)
    requires NodeInv(n, known, id) && DownOk(n, known, id, b)
    requires LogFits(p.ops, n) && DownFits(p, n.c.log, known, id, b) && Timely(n, b, predict)
    ensures var m := Receive(p, n, b, recvMs, predict); LogFits(p.ops, m) && m.c.log == n.c.log
  {
    if n.phase == Playing && DecodeSnapshot(b).Some? {
      SnapshotInStep(p, n, b, recvMs, predict, known, id);
    }
  }

  lemma ReceiveInStep(p: Platform, s: System, d: Datagram, recvMs: u64, predict: bool, open: bool)
    requires Inv(s) && d in s.down && InStep(p, s, d.peer, open) && Timely(s.nodes[d.peer], d.bytes, predict)
    ensures InStep(p, NextToClient(p, s, d, recvMs, predict), d.peer, open)
  {
    var e := d.peer;
    assert ClientInv(s, e);
    ReceiveFits(p, s.nodes[e], d.bytes, recvMs, predict, e in s.given, GivenId(s, e));
    var t := NextToClient(p, s, d, recvMs, predict);
    assert forall x :: x in t.down ==> x in s.down;
  }

  // ----- everybody else

  /** Nothing of what client `e` and its session depend on has changed, but for datagrams that may come or go. */
  lemma ElsewhereInStep(p: Platform, s: System, t: System, e: Endpoint, open: bool)
    requires InStep(p, s, e, open)
    requires e in t.nodes && t.nodes[e].c == s.nodes[e].c && t.server == s.server && t.given == s.given
    requires forall d :: d in t.up && d.peer == e ==> d in s.up || DecodeInput(d.bytes).None?
    requires forall d :: d in t.down && d.peer == e ==> d in s.down || DecodeSnapshot(d.bytes).None?
    ensures InStep(p, t, e, open)
  {
  }

  lemma UpwardsInStep(p: Platform, s: System, e: Endpoint, open: bool, a: Action)
    requires Enabled(p, s, a) && InStep(p, s, e, open)
    requires a.Foreign? || a.LoseUp? || a.RepeatUp?
    ensures InStep(p, Next(p, s, a), e, open)
  {
    ElsewhereInStep(p, s, Next(p, s, a), e, open);
  }

  lemma DownwardsInStep(p: Platform, s: System, e: Endpoint, open: bool, a: Action)
    requires Enabled(p, s, a) && InStep(p, s, e, open) && Faithful(p)
    requires a.LoseDown? || a.RepeatDown? || a.Stray?
    ensures InStep(p, Next(p, s, a), e, open)
  {
    ElsewhereInStep(p, s, Next(p, s, a), e, open);
  }

  lemma ComesOrGoesInStep(p: Platform, s: System, e: Endpoint, open: bool, a: Action)
    requires Enabled(p, s, a) && InStep(p, s, e, open)
    requires a.SendJoin? || a.Leave? || a.GiveUp?
    ensures InStep(p, Next(p, s, a), e, open)
  {
    JoinReads();
    ElsewhereInStep(p, s, Next(p, s, a), e, open);
  }

  lemma ArrivalInStep(p: Platform, s: System, e: Endpoint, d: Datagram, now: int, open: bool)
    requires Inv(s) && InStep(p, s, e, open) && d in s.up && InputInTurn(s, e, open, d)
    ensures InStep(p, NextToServer(s, d, now), e, open || IsNew(s, e, d))
  {
    if d.peer != e {
      OtherArrives(p, s, e, d, now, open);
    } else if DecodeJoinRequest(d.bytes).Some? {
      NotBoth(d.bytes);
      JoinFits(p, s, e, d, now, open);
    } else {
      OwnArrives(p, s, e, d, now, open);
    }
  }

  lemma ServerInStep(p: Platform, s: System, e: Endpoint, open: bool, a: Action)
    requires Inv(s) && Enabled(p, s, a) && InStep(p, s, e, open) && Faithful(p) && KeepsPace(s, e, open, a)
    requires a.ToServer? || a.ServerTick?
    ensures InStep(p, Next(p, s, a), e, OpenNext(s, e, open, a))
  {
    match a
    case ServerTick(now, sent) => TickInStep(p, s, e, now, sent, open);
    case ToServer(d, now) => ArrivalInStep(p, s, e, d, now, open);
  }

  lemma ToClientInStep(p: Platform, s: System, e: Endpoint, d: Datagram, recvMs: u64, predict: bool, open: bool)
    requires Inv(s) && d in s.down && InStep(p, s, e, open)
    requires d.peer == e ==> Timely(s.nodes[e], d.bytes, predict)
    ensures InStep(p, NextToClient(p, s, d, recvMs, predict), e, open)
  {
    if d.peer == e {
      ReceiveInStep(p, s, d, recvMs, predict, open);
    } else {
      ElsewhereInStep(p, s, NextToClient(p, s, d, recvMs, predict), e, open);
    }
  }

  lemma KeyInStep(p: Platform, s: System, e: Endpoint, f: Endpoint, key: Key, open: bool)
    requires InStep(p, s, e, open) && f in s.nodes && Sent(s.nodes[f]) + 2 < TWO32 && (f == e ==> NominalKey(key))
    ensures InStep(p, NextInput(p, s, f, key), e, open)
  {
    if f == e {
      PressInStep(p, s, e, key, open);
    } else {
      ElsewhereInStep(p, s, NextInput(p, s, f, key), e, open);
    }
  }

  lemma ClientInStep(p: Platform, s: System, e: Endpoint, open: bool, a: Action)
    requires Inv(s) && Enabled(p, s, a) && InStep(p, s, e, open) && KeepsPace(s, e, open, a)
    requires a.ToClient? || a.PlayerInput?
    ensures InStep(p, Next(p, s, a), e, open)
  {
    match a
    case ToClient(d, recvMs, predict) => ToClientInStep(p, s, e, d, recvMs, predict, open);
    case PlayerInput(f, key) => KeyInStep(p, s, e, f, key, open);
  }

  /** What leaves the server and the positions alone. */
  lemma RestInStep(p: Platform, s: System, e: Endpoint, open: bool, a: Action)
    requires Enabled(p, s, a) && InStep(p, s, e, open) && Faithful(p)
    requires !a.ToServer? && !a.ServerTick? && !a.ToClient? && !a.PlayerInput?
    ensures InStep(p, Next(p, s, a), e, open)
  {
    if a.SendJoin? || a.Leave? || a.GiveUp? {
      ComesOrGoesInStep(p, s, e, open, a);
    } else if a.Foreign? || a.LoseUp? || a.RepeatUp? {
      UpwardsInStep(p, s, e, open, a);
    } else {
      DownwardsInStep(p, s, e, open, a);
    }
  }

  lemma NextInStep(p: Platform, s: System, e: Endpoint, open: bool, a: Action)
    requires Inv(s) && Enabled(p, s, a) && InStep(p, s, e, open) && Faithful(p) && KeepsPace(s, e, open, a)
    ensures InStep(p, Next(p, s, a), e, OpenNext(s, e, open, a))
  {
    if a.ToServer? || a.ServerTick? {
      ServerInStep(p, s, e, open, a);
    } else if a.ToClient? || a.PlayerInput? {
      ClientInStep(p, s, e, open, a);
    } else {
      RestInStep(p, s, e, open, a);
    }
  }

  lemma {:induction false} ExecutionInStep(p: Platform, s: System, e: Endpoint, actions: seq<Action>)
    requires Start(s) && Execution(p, s, actions) && Benign(p) && Faithful(p)
    requires e in s.nodes && Paced(p, s, e, actions)
    ensures InStep(p, After(p, s, actions), e, Open(p, s, e, actions))
  {
    if actions != [] {
      var init, a := actions[..|actions| - 1], actions[|actions| - 1];
      forall i | 0 <= i < |init| ensures init[i] == actions[i] && init[..i] == actions[..i] {}
      assert Execution(p, s, init) && Paced(p, s, e, init);
      ExecutionInStep(p, s, e, init);
      ExecutionKeepsInv(p, s, init);
      var before := After(p, s, init);
      assert Enabled(p, before, a) && KeepsPace(before, e, Open(p, s, e, init), a);
      NextInStep(p, before, e, Open(p, s, e, init), a);
    }
  }

  /** In every execution in which a client's inputs reach the server one per tick, no snapshot it processes is visible:
      after every action its position is the plain replay of everything it did. The network may lose, delay,
      reorder and repeat whatever else it likes, other clients come and go, and arithmetic may round. */
  lemma NoCorrectionEverSeen(p: Platform, s: System, e: Endpoint, actions: seq<Action>)
    requires Start(s) && Execution(p, s, actions) && Benign(p) && Faithful(p)
    requires e in s.nodes && Paced(p, s, e, actions)
    ensures var t := After(p, s, actions);
            e in t.nodes && t.nodes[e].c.localPos == Replay(p.ops, CENTRE, t.nodes[e].c.log)
  {
    ExecutionInStep(p, s, e, actions);
  }
}

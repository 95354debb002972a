/** The packet layouts of common/protocol.hpp as byte sequences. Integers are in network byte order
(RFC 791, Appendix B); a float is the 32-bit word of its binary32 encoding (IEEE 754-2008, section 3.4). */
module Wire {
  import opened Constants
  import opened Types

  type Bytes = seq<byte>

  const JOIN_REQUEST: byte := 1
  const JOIN_ACCEPT: byte := 2
  const INPUT_COMMAND: byte := 3
  const WORLD_SNAPSHOT: byte := 4
  const DISCONNECT_NOTICE: byte := 5

  datatype JoinRequest = JoinRequest(clientVersion: u16)
  datatype JoinAccept = JoinAccept(playerId: u16, arenaW: u32, arenaH: u32)
  datatype InputPacket = InputPacket(playerId: u16, seqNo: u32, mx: i8, my: i8)
  datatype PlayerRecord = PlayerRecord(id: u16, x: u32, y: u32, vx: u32, vy: u32, lastSeq: u32)
  datatype Snapshot = Snapshot(serverTick: u32, players: seq<PlayerRecord>)
  datatype DisconnectNotice = DisconnectNotice(playerId: u16)

  // ----- layouts

  function Bytes16(v: u16): Bytes {
    [v / 0x100, v % 0x100]
  }

  function Bytes32(v: u32): Bytes {
    Bytes16(v / TWO16) + Bytes16(v % TWO16)
  }

  /** The two's complement byte of a signed one. */
  function ByteOf(v: i8): byte {
    if v < 0 then v + 0x100 else v
  }

  function SignedOf(b: byte): i8 {
    if b < 0x80 then b else b - 0x100
  }

  function EncodeJoinRequest(p: JoinRequest): Bytes {
    [JOIN_REQUEST] + Bytes16(p.clientVersion)
  }

  function EncodeJoinAccept(p: JoinAccept): Bytes {
    [JOIN_ACCEPT] + Bytes16(p.playerId) + Bytes32(p.arenaW) + Bytes32(p.arenaH)
  }

  function EncodeInput(p: InputPacket): Bytes {
    [INPUT_COMMAND] + Bytes16(p.playerId) + Bytes32(p.seqNo) + [ByteOf(p.mx)] + [ByteOf(p.my)]
  }

  function EncodeDisconnect(p: DisconnectNotice): Bytes {
    [DISCONNECT_NOTICE] + Bytes16(p.playerId)
  }

  function EncodeRecord(p: PlayerRecord): Bytes {
    Bytes16(p.id) + Bytes32(p.x) + Bytes32(p.y) + Bytes32(p.vx) + Bytes32(p.vy) + Bytes32(p.lastSeq)
  }

  function Flatten<T>(encode: T -> Bytes, xs: seq<T>): Bytes {
    if xs == [] then [] else Flatten(encode, xs[..|xs| - 1]) + encode(xs[|xs| - 1])
  }

  function EncodeRecords(ps: seq<PlayerRecord>): Bytes {
    Flatten(EncodeRecord, ps)
  }

  /** The player count is cast to `std::uint16_t`. */
  function EncodeHeader(tick: u32, count: nat): Bytes {
    [WORLD_SNAPSHOT] + Bytes32(tick) + Bytes16(count % TWO16)
  }

  function EncodeSnapshot(p: Snapshot): Bytes {
    EncodeHeader(p.serverTick, |p.players|) + EncodeRecords(p.players)
  }

  // ----- what each decoder accepts

  function Nat16(d: Bytes, i: nat): u16
    requires i + 2 <= |d|
  {
    var high: int, low: int := d[i], d[i + 1];
    high * 0x100 + low
  }

  function Nat32(d: Bytes, i: nat): u32
    requires i + 4 <= |d|
  {
    Nat16(d, i) * TWO16 + Nat16(d, i + 2)
  }

  predicate Starts(d: Bytes, t: byte, size: nat) {
    0 < size <= |d| && d[0] == t
  }

  function DecodeJoinRequest(d: Bytes): Option<JoinRequest> {
    if Starts(d, JOIN_REQUEST, 3) then Some(JoinRequest(Nat16(d, 1))) else None
  }

  function DecodeJoinAccept(d: Bytes): Option<JoinAccept> {
    if Starts(d, JOIN_ACCEPT, 11) then Some(JoinAccept(Nat16(d, 1), Nat32(d, 3), Nat32(d, 7))) else None
  }

  function DecodeInput(d: Bytes): Option<InputPacket> {
    if Starts(d, INPUT_COMMAND, 9)
    then Some(InputPacket(Nat16(d, 1), Nat32(d, 3), SignedOf(d[7]), SignedOf(d[8])))
    else None
  }

  function DecodeDisconnect(d: Bytes): Option<DisconnectNotice> {
    if Starts(d, DISCONNECT_NOTICE, 3) then Some(DisconnectNotice(Nat16(d, 1))) else None
  }

  function RecordAt(d: Bytes, i: nat): PlayerRecord
    requires i + 22 <= |d|
  {
    PlayerRecord(Nat16(d, i), Nat32(d, i + 2), Nat32(d, i + 6), Nat32(d, i + 10), Nat32(d, i + 14), Nat32(d, i + 18))
  }

  function RecordsAt(d: Bytes, n: nat): (ps: seq<PlayerRecord>)
    requires 7 + 22 * n <= |d|
    ensures |ps| == n
  {
    seq(n, i requires 0 <= i < n => RecordAt(d, 7 + 22 * i))
  }

  function DecodeSnapshot(d: Bytes): Option<Snapshot> {
    if Starts(d, WORLD_SNAPSHOT, 7) then
      var n := Nat16(d, 5);
      if n <= MAX_PLAYERS && 7 + 22 * n <= |d|
      then Some(Snapshot(Nat32(d, 1), RecordsAt(d, n)))
      else None
    else None
  }

  function PeekType(d: Bytes): Option<byte> {
    if d == [] || d[0] < 1 || d[0] > 5 then None else Some(d[0])
  }
}

/** Encoders and decoders are inverse in both directions. */
module WireTheorems {
  import opened Constants
  import opened Types
  import opened Wire

  lemma SplitLast(body: Bytes, init: Bytes, last: Bytes, cut: nat)
    requires |init| == cut <= |body|
    ensures body == init + last <==> body[..cut] == init && body[cut..] == last
  {
    assert body == body[..cut] + body[cut..];
    assert (init + last)[..cut] == init && (init + last)[cut..] == last;
  }

  lemma SliceOfSlice(d: Bytes, lo: nat, hi: nat, i: nat, j: nat)
    requires lo <= hi <= |d| && i <= j <= hi - lo
    ensures d[lo..hi][i..j] == d[lo + i..lo + j]
  {
    forall k | 0 <= k < j - i ensures d[lo..hi][i..j][k] == d[lo + i..lo + j][k] {}
  }

  /** A buffer starts with three pieces iff each is in its place. */
  lemma ThreePieces(d: Bytes, a: Bytes, b: Bytes, c: Bytes)
    requires |a| + |b| + |c| <= |d|
    ensures var i, j, k := |a|, |a| + |b|, |a| + |b| + |c|;
            d[..k] == a + b + c <==> d[..i] == a && d[i..j] == b && d[j..k] == c
  {
    var i, j, k := |a|, |a| + |b|, |a| + |b| + |c|;
    SplitLast(d[..k], a + b, c, j);
    SplitLast(d[..j], a, b, i);
    SliceOfSlice(d, 0, k, 0, j);
    SliceOfSlice(d, 0, k, j, k);
    SliceOfSlice(d, 0, j, 0, i);
    SliceOfSlice(d, 0, j, i, j);
  }

  lemma DivMod16(v: nat, high: nat, low: nat)
    requires low < 0x100
    ensures v == high * 0x100 + low <==> v / 0x100 == high && v % 0x100 == low
  {
  }

  lemma DivMod32(v: nat, high: nat, low: nat)
    requires low < 0x1_0000
    ensures v == high * 0x1_0000 + low <==> v / 0x1_0000 == high && v % 0x1_0000 == low
  {
  }

  lemma Word16(d: Bytes, i: nat, v: u16)
    requires i + 2 <= |d|
    ensures d[i..i + 2] == Bytes16(v) <==> Nat16(d, i) == v
  {
    assert d[i..i + 2] == [d[i], d[i + 1]];
    DivMod16(v, d[i], d[i + 1]);
  }

  lemma Word32(d: Bytes, i: nat, v: u32)
    requires i + 4 <= |d|
    ensures d[i..i + 4] == Bytes32(v) <==> Nat32(d, i) == v
  {
    var high, low := v / TWO16, v % TWO16;
    SplitLast(d[i..i + 4], Bytes16(high), Bytes16(low), 2);
    SliceOfSlice(d, i, i + 4, 0, 2);
    SliceOfSlice(d, i, i + 4, 2, 4);
    Word16(d, i, high);
    Word16(d, i + 2, low);
    DivMod32(v, Nat16(d, i), Nat16(d, i + 2));
  }

  /** Network byte order: the first byte is the most significant one. */
  lemma NetworkByteOrder(v: u32, w: u16)
    ensures var b: seq<int> := Bytes32(v);
            |b| == 4 && v == 0x100_0000 * b[0] + 0x1_0000 * b[1] + 0x100 * b[2] + b[3]
    ensures var b: seq<int> := Bytes16(w);
            |b| == 2 && w == 0x100 * b[0] + b[1]
  {
    var high, low := v / TWO16, v % TWO16;
    DivMod32(v, high, low);
    DivMod16(high, high / 0x100, high % 0x100);
    DivMod16(low, low / 0x100, low % 0x100);
    DivMod16(w, w / 0x100, w % 0x100);
  }

  lemma JoinRequestInverse(d: Bytes, p: JoinRequest)
    ensures DecodeJoinRequest(d) == Some(p) <==> EncodeJoinRequest(p) <= d
  {
    if 3 <= |d| {
      Word16(d, 1, p.clientVersion);
      ThreePieces(d, [JOIN_REQUEST], Bytes16(p.clientVersion), []);
      assert d[..1] == [d[0]] && EncodeJoinRequest(p) == [JOIN_REQUEST] + Bytes16(p.clientVersion) + [];
    }
  }

  lemma DisconnectInverse(d: Bytes, p: DisconnectNotice)
    ensures DecodeDisconnect(d) == Some(p) <==> EncodeDisconnect(p) <= d
  {
    if 3 <= |d| {
      Word16(d, 1, p.playerId);
      ThreePieces(d, [DISCONNECT_NOTICE], Bytes16(p.playerId), []);
      assert d[..1] == [d[0]] && EncodeDisconnect(p) == [DISCONNECT_NOTICE] + Bytes16(p.playerId) + [];
    }
  }

  lemma JoinAcceptInverse(d: Bytes, p: JoinAccept)
    ensures DecodeJoinAccept(d) == Some(p) <==> EncodeJoinAccept(p) <= d
  {
    if 11 <= |d| {
      Word16(d, 1, p.playerId);
      Word32(d, 3, p.arenaW);
      Word32(d, 7, p.arenaH);
      var t, id, w, h := [JOIN_ACCEPT], Bytes16(p.playerId), Bytes32(p.arenaW), Bytes32(p.arenaH);
      ThreePieces(d, t, id, w);
      ThreePieces(d, t + id + w, h, []);
      assert d[..1] == [d[0]] && EncodeJoinAccept(p) == t + id + w + h + [];
    }
  }

  lemma InputInverse(d: Bytes, p: InputPacket)
    ensures DecodeInput(d) == Some(p) <==> EncodeInput(p) <= d
  {
    if 9 <= |d| {
      Word16(d, 1, p.playerId);
      Word32(d, 3, p.seqNo);
      var t, id, n := [INPUT_COMMAND], Bytes16(p.playerId), Bytes32(p.seqNo);
      ThreePieces(d, t, id, n);
      ThreePieces(d, t + id + n, [ByteOf(p.mx)], [ByteOf(p.my)]);
      assert d[..1] == [d[0]] && d[7..8] == [d[7]] && d[8..9] == [d[8]];
      assert EncodeInput(p) == t + id + n + [ByteOf(p.mx)] + [ByteOf(p.my)];
    }
  }

  lemma RecordInverse(d: Bytes, i: nat, p: PlayerRecord)
    requires i + 22 <= |d|
    ensures d[i..i + 22] == EncodeRecord(p) <==> RecordAt(d, i) == p
  {
    Word16(d, i, p.id);
    Word32(d, i + 2, p.x);
    Word32(d, i + 6, p.y);
    Word32(d, i + 10, p.vx);
    Word32(d, i + 14, p.vy);
    Word32(d, i + 18, p.lastSeq);
    SixPieces(d, i, Bytes16(p.id), Bytes32(p.x), Bytes32(p.y), Bytes32(p.vx), Bytes32(p.vy), Bytes32(p.lastSeq));
  }

  lemma SixPieces(d: Bytes, i: nat, id: Bytes, x: Bytes, y: Bytes, vx: Bytes, vy: Bytes, ack: Bytes)
    requires i + 22 <= |d| && |id| == 2 && |x| == |y| == |vx| == |vy| == |ack| == 4
    ensures d[i..i + 22] == id + x + y + vx + vy + ack
            <==> && d[i..i + 2] == id && d[i + 2..i + 6] == x && d[i + 6..i + 10] == y
                 && d[i + 10..i + 14] == vx && d[i + 14..i + 18] == vy && d[i + 18..i + 22] == ack
  {
    var r := d[i..i + 22];
    ThreePieces(r, id, x, y);
    ThreePieces(r, id + x + y, vx, vy);
    ThreePieces(r, id + x + y + vx + vy, ack, []);
    assert r[..22] == r && id + x + y + vx + vy + ack + [] == id + x + y + vx + vy + ack;
    SliceOfSlice(d, i, i + 22, 0, 2);
    SliceOfSlice(d, i, i + 22, 2, 6);
    SliceOfSlice(d, i, i + 22, 6, 10);
    SliceOfSlice(d, i, i + 22, 10, 14);
    SliceOfSlice(d, i, i + 22, 14, 18);
    SliceOfSlice(d, i, i + 22, 18, 22);
  }

  /** Sequences of 22-byte pieces are equal piece by piece. */
  lemma {:induction false} FlattenPieces<T>(encode: T -> Bytes, xs: seq<T>, b: Bytes)
    requires forall i :: 0 <= i < |xs| ==> |encode(xs[i])| == 22
    ensures |Flatten(encode, xs)| == 22 * |xs|
    ensures b == Flatten(encode, xs)
            <==> && |b| == 22 * |xs|
                 && forall i {:trigger xs[i]} :: 0 <= i < |xs| ==> b[22 * i..22 * i + 22] == encode(xs[i])
  {
    if xs != [] && |b| == 22 * |xs| {
      var n := |xs| - 1;
      var init, head := xs[..n], b[..22 * n];
      FlattenPieces(encode, init, head);
      SplitLast(b, Flatten(encode, init), encode(xs[n]), 22 * n);
      forall i | 0 <= i < n ensures head[22 * i..22 * i + 22] == b[22 * i..22 * i + 22] && init[i] == xs[i] {}
      assert b[22 * n..] == b[22 * n..22 * n + 22];
    } else if xs != [] {
      FlattenPieces(encode, xs[..|xs| - 1], b);
    }
  }

  lemma PieceInverse(d: Bytes, body: Bytes, i: nat, p: PlayerRecord)
    requires 7 + 22 * i + 22 <= |d| && 7 + |body| <= |d| && body == d[7..7 + |body|] && 22 * i + 22 <= |body|
    ensures body[22 * i..22 * i + 22] == EncodeRecord(p) <==> RecordAt(d, 7 + 22 * i) == p
  {
    SliceOfSlice(d, 7, 7 + |body|, 22 * i, 22 * i + 22);
    RecordInverse(d, 7 + 22 * i, p);
  }

  /** If `rs` differs from `ps` exactly where a piece of `b` differs from an encoding, then as a whole too. */
  lemma PiecesInverse<T>(encode: T -> Bytes, ps: seq<T>, rs: seq<T>, b: Bytes)
    requires |rs| == |ps| && |b| == 22 * |ps|
    requires forall i :: 0 <= i < |ps| ==> |encode(ps[i])| == 22
    requires forall i {:trigger ps[i]} :: 0 <= i < |ps| ==>
      (b[22 * i..22 * i + 22] == encode(ps[i]) <==> rs[i] == ps[i])
    ensures b == Flatten(encode, ps) <==> rs == ps
  {
    FlattenPieces(encode, ps, b);
  }

  lemma RecordsInverse(d: Bytes, ps: seq<PlayerRecord>)
    requires 7 + 22 * |ps| <= |d|
    ensures d[7..7 + 22 * |ps|] == EncodeRecords(ps) <==> RecordsAt(d, |ps|) == ps
  {
    var body, rs := d[7..7 + 22 * |ps|], RecordsAt(d, |ps|);
    forall i {:trigger ps[i]} | 0 <= i < |ps|
      ensures body[22 * i..22 * i + 22] == EncodeRecord(ps[i]) <==> rs[i] == ps[i]
    {
      PieceInverse(d, body, i, ps[i]);
    }
    PiecesInverse(EncodeRecord, ps, rs, body);
  }

  lemma SnapshotSize(p: Snapshot)
    ensures |EncodeSnapshot(p)| == 7 + 22 * |p.players|
  {
    FlattenPieces(EncodeRecord, p.players, []);
  }

  lemma HeaderInverse(d: Bytes, tick: u32, count: u16)
    requires 7 <= |d|
    ensures d[..7] == EncodeHeader(tick, count)
            <==> d[0] == WORLD_SNAPSHOT && Nat32(d, 1) == tick && Nat16(d, 5) == count
  {
    assert count % TWO16 == count && d[..1] == [d[0]];
    ThreePieces(d, [WORLD_SNAPSHOT], Bytes32(tick), Bytes16(count));
    Word32(d, 1, tick);
    Word16(d, 5, count);
  }

  /** The decoder's cap of eight players is the only snapshot that does not survive the trip. */
  lemma SnapshotInverse(d: Bytes, p: Snapshot)
    ensures DecodeSnapshot(d) == Some(p) <==> EncodeSnapshot(p) <= d && |p.players| <= MAX_PLAYERS
  {
    var n := |p.players|;
    var whole := 7 + 22 * n;
    SnapshotSize(p);
    if whole <= |d| && n <= MAX_PLAYERS {
      HeaderInverse(d, p.serverTick, n);
      RecordsInverse(d, p.players);
      assert d[..whole][..7] == d[..7] && d[..whole][7..] == d[7..whole];
      SplitLast(d[..whole], EncodeHeader(p.serverTick, n), EncodeRecords(p.players), 7);
    }
  }

  /** Which decoders accept a buffer. */
  predicate Accepts(t: byte, d: Bytes) {
    if t == JOIN_REQUEST then DecodeJoinRequest(d).Some?
    else if t == JOIN_ACCEPT then DecodeJoinAccept(d).Some?
    else if t == INPUT_COMMAND then DecodeInput(d).Some?
    else if t == WORLD_SNAPSHOT then DecodeSnapshot(d).Some?
    else t == DISCONNECT_NOTICE && DecodeDisconnect(d).Some?
  }

  /** No buffer is accepted by two decoders, and an accepting decoder is the one `peek_type` names. */
  lemma DecodersExclusive(d: Bytes, t: byte, u: byte)
    requires Accepts(t, d)
    ensures PeekType(d) == Some(t)
    ensures Accepts(u, d) ==> u == t
  {
  }

  /** Decoding an encoding followed by anything gives the packet back; for snapshots exactly up to eight players. */
  lemma RoundTrips(jr: JoinRequest, ja: JoinAccept, ip: InputPacket, dn: DisconnectNotice, ss: Snapshot, rest: Bytes)
    ensures DecodeJoinRequest(EncodeJoinRequest(jr) + rest) == Some(jr)
    ensures DecodeJoinAccept(EncodeJoinAccept(ja) + rest) == Some(ja)
    ensures DecodeInput(EncodeInput(ip) + rest) == Some(ip)
    ensures DecodeDisconnect(EncodeDisconnect(dn) + rest) == Some(dn)
    ensures DecodeSnapshot(EncodeSnapshot(ss) + rest) == Some(ss) <==> |ss.players| <= MAX_PLAYERS
  {
    JoinRequestInverse(EncodeJoinRequest(jr) + rest, jr);
    JoinAcceptInverse(EncodeJoinAccept(ja) + rest, ja);
    InputInverse(EncodeInput(ip) + rest, ip);
    DisconnectInverse(EncodeDisconnect(dn) + rest, dn);
    SnapshotInverse(EncodeSnapshot(ss) + rest, ss);
  }

  // ----- where each field is

  /** The number at `i`, most significant byte first. */
  function Number(d: Bytes, i: nat, size: nat): nat
    requires i + size <= |d|
  {
    if size == 0 then 0 else Number(d, i, size - 1) * 0x100 + d[i + size - 1]
  }

  lemma Number16(d: Bytes, i: nat)
    requires i + 2 <= |d|
    ensures Number(d, i, 2) == Nat16(d, i)
  {
    assert Number(d, i, 1) == d[i];
  }

  lemma Number32(d: Bytes, i: nat)
    requires i + 4 <= |d|
    ensures Number(d, i, 4) == Nat32(d, i)
  {
    Number16(d, i);
    assert Number(d, i, 3) == Number(d, i, 2) * 0x100 + d[i + 2];
  }

  lemma JoinLayouts(jr: JoinRequest, dn: DisconnectNotice)
    ensures var d := EncodeJoinRequest(jr);
            |d| == 3 && d[0] == 1 && Number(d, 1, 2) == jr.clientVersion
    ensures var d := EncodeDisconnect(dn);
            |d| == 3 && d[0] == 5 && Number(d, 1, 2) == dn.playerId
  {
    JoinRequestInverse(EncodeJoinRequest(jr), jr);
    DisconnectInverse(EncodeDisconnect(dn), dn);
    Number16(EncodeJoinRequest(jr), 1);
    Number16(EncodeDisconnect(dn), 1);
  }

  lemma AcceptLayout(ja: JoinAccept)
    ensures var d := EncodeJoinAccept(ja);
            && |d| == 11 && d[0] == 2 && Number(d, 1, 2) == ja.playerId
            && Number(d, 3, 4) == ja.arenaW && Number(d, 7, 4) == ja.arenaH
  {
    var d := EncodeJoinAccept(ja);
    JoinAcceptInverse(d, ja);
    Number16(d, 1);
    Number32(d, 3);
    Number32(d, 7);
  }

  /** Directions are two's complement bytes. */
  lemma InputLayout(ip: InputPacket)
    ensures var d := EncodeInput(ip);
            && |d| == 9 && d[0] == 3 && Number(d, 1, 2) == ip.playerId && Number(d, 3, 4) == ip.seqNo
            && d[7] == ip.mx % 0x100 && d[8] == ip.my % 0x100
  {
    var d := EncodeInput(ip);
    InputInverse(d, ip);
    Number16(d, 1);
    Number32(d, 3);
  }

  /** The header, and 22 bytes for each player in order. */
  lemma SnapshotLayout(p: Snapshot, i: nat)
    requires |p.players| <= MAX_PLAYERS
    ensures var d := EncodeSnapshot(p);
            && |d| == 7 + 22 * |p.players|
            && d[0] == 4 && Number(d, 1, 4) == p.serverTick && Number(d, 5, 2) == |p.players|
            && (i < |p.players| ==>
                  var o, r := 7 + 22 * i, p.players[i];
                  && Number(d, o, 2) == r.id && Number(d, o + 2, 4) == r.x && Number(d, o + 6, 4) == r.y
                  && Number(d, o + 10, 4) == r.vx && Number(d, o + 14, 4) == r.vy && Number(d, o + 18, 4) == r.lastSeq)
  {
    var d := EncodeSnapshot(p);
    SnapshotSize(p);
    SnapshotInverse(d, p);
    Number32(d, 1);
    Number16(d, 5);
    if i < |p.players| { RecordLayout(d, 7 + 22 * i, p.players[i]); }
  }

  lemma RecordLayout(d: Bytes, o: nat, r: PlayerRecord)
    requires o + 22 <= |d| && RecordAt(d, o) == r
    ensures Number(d, o, 2) == r.id && Number(d, o + 2, 4) == r.x && Number(d, o + 6, 4) == r.y
    ensures Number(d, o + 10, 4) == r.vx && Number(d, o + 14, 4) == r.vy && Number(d, o + 18, 4) == r.lastSeq
  {
    Number16(d, o);
    Number32(d, o + 2);
    Number32(d, o + 6);
    Number32(d, o + 10);
    Number32(d, o + 14);
    Number32(d, o + 18);
  }
}

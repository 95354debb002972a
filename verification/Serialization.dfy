/** common/serialization.cpp: the cursor-based writer and reader with sticky failure, and the typed
encoders and decoders written with them. */
module Serialization {
  import opened Constants
  import opened Types
  import opened Wire

  class BufferWriter {
    const data: array<byte>
    var pos: nat
    var ok: bool
    ghost var wanted: Bytes    // everything that was asked to be put
    ghost const original: Bytes

    ghost predicate Valid()
      reads this, data
    {
      && |original| == data.Length
      && pos <= data.Length && pos <= |wanted|
      && (ok <==> |wanted| <= data.Length)
      && (ok ==> pos == |wanted|)
      && data[..pos] == wanted[..pos]
      && data[pos..] == original[pos..]
    }

    constructor (data: array<byte>)
      ensures Valid() && this.data == data && wanted == [] && original == data[..]
    {
      this.data := data;
      pos, ok := 0, true;
      wanted, original := [], data[..];
    }

    method PutU8(v: byte) returns (done: bool)
      requires Valid()
      modifies this, data
      ensures Valid() && done == ok && wanted == old(wanted) + [v]
    {
      wanted := wanted + [v];
      if !ok || pos + 1 > data.Length { ok := false; return false; }
      data[pos] := v;
      pos := pos + 1;
      return true;
    }

    method PutU16(v: u16) returns (done: bool)
      requires Valid()
      modifies this, data
      ensures Valid() && done == ok && wanted == old(wanted) + Bytes16(v)
    {
      wanted := wanted + Bytes16(v);
      if !ok || pos + 2 > data.Length { ok := false; return false; }
      data[pos] := v / 0x100;
      data[pos + 1] := v % 0x100;
      pos := pos + 2;
      return true;
    }

    method PutU32(v: u32) returns (done: bool)
      requires Valid()
      modifies this, data
      ensures Valid() && done == ok && wanted == old(wanted) + Bytes32(v)
    {
      ghost var four := Bytes32(v);
      wanted := wanted + four;
      if !ok || pos + 4 > data.Length { ok := false; return false; }
      ghost var before := data[..pos];
      var high, low := v / TWO16, v % TWO16;
      data[pos] := high / 0x100;
      data[pos + 1] := high % 0x100;
      data[pos + 2] := low / 0x100;
      data[pos + 3] := low % 0x100;
      pos := pos + 4;
      assert data[..pos] == before + four;
      return true;
    }

    method PutI8(v: i8) returns (done: bool)
      requires Valid()
      modifies this, data
      ensures Valid() && done == ok && wanted == old(wanted) + [ByteOf(v)]
    {
      done := PutU8(ByteOf(v));
    }
  }

  /** An encoder that returned `n` and turned `was` into `now`, asked for `want`: it reports 0 exactly when
      `want` does not fit, and otherwise changes nothing behind the encoding. */
  ghost predicate Encoded(was: Bytes, now: Bytes, want: Bytes, n: nat) {
    && (n == 0 <==> |was| < |want|)
    && (n > 0 ==> n == |want| && now == want + was[n..])
    && (n == 0 ==> exists k :: 0 <= k <= |was| && now == want[..k] + was[k..])
  }

  /** The shared last line of every encoder: the bytes written, or 0 if the writer failed. */
  method Finish(w: BufferWriter) returns (n: nat)
    requires w.Valid() && w.wanted != []
    ensures Encoded(w.original, w.data[..], w.wanted, n)
  {
    n := if w.ok then w.pos else 0;
    assert w.data[..] == w.data[..w.pos] + w.data[w.pos..];
  }

  method EncodeJoinRequest(out: array<byte>, p: JoinRequest) returns (n: nat)
    modifies out
    ensures Encoded(old(out[..]), out[..], Wire.EncodeJoinRequest(p), n)
  {
    var w := new BufferWriter(out);
    var _ := w.PutU8(JOIN_REQUEST);
    var _ := w.PutU16(p.clientVersion);
    assert w.wanted == Wire.EncodeJoinRequest(p);
    n := Finish(w);
  }

  method EncodeJoinAccept(out: array<byte>, p: JoinAccept) returns (n: nat)
    modifies out
    ensures Encoded(old(out[..]), out[..], Wire.EncodeJoinAccept(p), n)
  {
    var w := new BufferWriter(out);
    var _ := w.PutU8(JOIN_ACCEPT);
    var _ := w.PutU16(p.playerId);
    var _ := w.PutU32(p.arenaW);
    var _ := w.PutU32(p.arenaH);
    assert w.wanted == Wire.EncodeJoinAccept(p);
    n := Finish(w);
  }

  method EncodeInput(out: array<byte>, p: InputPacket) returns (n: nat)
    modifies out
    ensures Encoded(old(out[..]), out[..], Wire.EncodeInput(p), n)
  {
    var w := new BufferWriter(out);
    var _ := w.PutU8(INPUT_COMMAND);
    var _ := w.PutU16(p.playerId);
    var _ := w.PutU32(p.seqNo);
    var _ := w.PutI8(p.mx);
    var _ := w.PutI8(p.my);
    assert w.wanted == Wire.EncodeInput(p);
    n := Finish(w);
  }

  method EncodeDisconnect(out: array<byte>, p: DisconnectNotice) returns (n: nat)
    modifies out
    ensures Encoded(old(out[..]), out[..], Wire.EncodeDisconnect(p), n)
  {
    var w := new BufferWriter(out);
    var _ := w.PutU8(DISCONNECT_NOTICE);
    var _ := w.PutU16(p.playerId);
    assert w.wanted == Wire.EncodeDisconnect(p);
    n := Finish(w);
  }

  /** Both coordinates of a vector. */
  method PutVec(w: BufferWriter, x: u32, y: u32)
    requires w.Valid()
    modifies w, w.data
    ensures w.Valid() && w.wanted == old(w.wanted) + (Bytes32(x) + Bytes32(y))
  {
    ghost var before := w.wanted;
    var _ := w.PutU32(x);
    var _ := w.PutU32(y);
    assert w.wanted == before + Bytes32(x) + Bytes32(y);
  }

  method PutRecord(w: BufferWriter, p: PlayerRecord)
    requires w.Valid()
    modifies w, w.data
    ensures w.Valid() && w.wanted == old(w.wanted) + EncodeRecord(p)
  {
    ghost var before := w.wanted;
    var _ := w.PutU16(p.id);
    PutVec(w, p.x, p.y);
    PutVec(w, p.vx, p.vy);
    var _ := w.PutU32(p.lastSeq);
    Regroup(before, Bytes16(p.id), Bytes32(p.x), Bytes32(p.y), Bytes32(p.vx), Bytes32(p.vy), Bytes32(p.lastSeq));
  }

  lemma Regroup(before: Bytes, id: Bytes, x: Bytes, y: Bytes, vx: Bytes, vy: Bytes, ack: Bytes)
    ensures before + id + (x + y) + (vx + vy) + ack == before + (id + x + y + vx + vy + ack)
  {
  }

  lemma RecordsAppend(before: Bytes, players: seq<PlayerRecord>, i: nat)
    requires i < |players|
    ensures before + EncodeRecords(players[..i + 1])
            == before + EncodeRecords(players[..i]) + EncodeRecord(players[i])
  {
    assert players[..i + 1][..i] == players[..i];
    var sofar, next := EncodeRecords(players[..i]), EncodeRecord(players[i]);
    assert before + (sofar + next) == before + sofar + next;
  }

  /** The loop of the snapshot encoder. */
  method PutRecords(w: BufferWriter, players: seq<PlayerRecord>)
    requires w.Valid()
    modifies w, w.data
    ensures w.Valid() && w.wanted == old(w.wanted) + EncodeRecords(players)
  {
    ghost var before := w.wanted;
    var i := 0;
    while i < |players|
      invariant 0 <= i <= |players|
      invariant w.Valid() && w.wanted == before + EncodeRecords(players[..i])
    {
      RecordsAppend(before, players, i);
      PutRecord(w, players[i]);
      i := i + 1;
    }
    assert players[..i] == players;
  }

  method EncodeSnapshot(out: array<byte>, p: Snapshot) returns (n: nat)
    modifies out
    ensures Encoded(old(out[..]), out[..], Wire.EncodeSnapshot(p), n)
  {
    var w := new BufferWriter(out);
    var _ := w.PutU8(WORLD_SNAPSHOT);
    var _ := w.PutU32(p.serverTick);
    var _ := w.PutU16(|p.players| % TWO16);
    assert w.wanted == EncodeHeader(p.serverTick, |p.players|);
    PutRecords(w, p.players);
    n := Finish(w);
  }

  class BufferReader {
    const data: Bytes
    var pos: nat
    var ok: bool

    ghost predicate Valid()
      reads this
    {
      pos <= |data|
    }

    /** What one read of `size` bytes does to the cursor. */
    twostate predicate Took(size: nat, got: bool)
      reads this
    {
      && Valid()
      && got == ok == (old(ok) && old(pos) + size <= |data|)
      && pos == if got then old(pos) + size else old(pos)
    }

    constructor (data: Bytes)
      ensures Valid() && this.data == data && pos == 0 && ok
    {
      this.data := data;
      pos, ok := 0, true;
    }

    method GetU8() returns (got: bool, v: byte)
      requires Valid()
      modifies this
      ensures Took(1, got) && (got ==> v == data[old(pos)])
    {
      if !ok || pos + 1 > |data| { ok := false; return false, 0; }
      v := data[pos];
      pos := pos + 1;
      return true, v;
    }

    method GetU16() returns (got: bool, v: u16)
      requires Valid()
      modifies this
      ensures Took(2, got) && (got ==> v == Nat16(data, old(pos)))
    {
      if !ok || pos + 2 > |data| { ok := false; return false, 0; }
      v := Nat16(data, pos);
      pos := pos + 2;
      return true, v;
    }

    method GetU32() returns (got: bool, v: u32)
      requires Valid()
      modifies this
      ensures Took(4, got) && (got ==> v == Nat32(data, old(pos)))
    {
      if !ok || pos + 4 > |data| { ok := false; return false, 0; }
      v := Nat32(data, pos);
      pos := pos + 4;
      return true, v;
    }

    method GetI8() returns (got: bool, v: i8)
      requires Valid()
      modifies this
      ensures Took(1, got) && (got ==> v == SignedOf(data[old(pos)]))
    {
      var u;
      got, u := GetU8();
      if !got { return false, 0; }
      return true, SignedOf(u);
    }
  }

  method DecodeJoinRequest(d: Bytes) returns (r: Option<JoinRequest>)
    ensures r == Wire.DecodeJoinRequest(d)
  {
    var reader := new BufferReader(d);
    var got, t := reader.GetU8();
    if !got || t != JOIN_REQUEST { return None; }
    var version;
    got, version := reader.GetU16();
    if !got { return None; }
    return Some(JoinRequest(version));
  }

  method DecodeJoinAccept(d: Bytes) returns (r: Option<JoinAccept>)
    ensures r == Wire.DecodeJoinAccept(d)
  {
    var reader := new BufferReader(d);
    var got, t := reader.GetU8();
    if !got || t != JOIN_ACCEPT { return None; }
    var id, w, h;
    got, id := reader.GetU16();
    if !got { return None; }
    got, w := reader.GetU32();
    if !got { return None; }
    got, h := reader.GetU32();
    if !got { return None; }
    return Some(JoinAccept(id, w, h));
  }

  method DecodeInput(d: Bytes) returns (r: Option<InputPacket>)
    ensures r == Wire.DecodeInput(d)
  {
    var reader := new BufferReader(d);
    var got, t := reader.GetU8();
    if !got || t != INPUT_COMMAND { return None; }
    var id, seqNo, mx, my;
    got, id := reader.GetU16();
    if !got { return None; }
    got, seqNo := reader.GetU32();
    if !got { return None; }
    got, mx := reader.GetI8();
    if !got { return None; }
    got, my := reader.GetI8();
    if !got { return None; }
    return Some(InputPacket(id, seqNo, mx, my));
  }

  method DecodeDisconnect(d: Bytes) returns (r: Option<DisconnectNotice>)
    ensures r == Wire.DecodeDisconnect(d)
  {
    var reader := new BufferReader(d);
    var got, t := reader.GetU8();
    if !got || t != DISCONNECT_NOTICE { return None; }
    var id;
    got, id := reader.GetU16();
    if !got { return None; }
    return Some(DisconnectNotice(id));
  }

  method GetRecord(reader: BufferReader) returns (got: bool, p: PlayerRecord)
    requires reader.Valid() && reader.ok
    modifies reader
    ensures reader.Valid() && (got ==> reader.ok)
    ensures got <==> old(reader.pos) + 22 <= |reader.data|
    ensures got ==> reader.pos == old(reader.pos) + 22 && p == RecordAt(reader.data, old(reader.pos))
  {
    p := PlayerRecord(0, 0, 0, 0, 0, 0);
    var id, x, y, vx, vy, ack;
    got, id := reader.GetU16();
    if !got { return; }
    got, x := reader.GetU32();
    if !got { return; }
    got, y := reader.GetU32();
    if !got { return; }
    got, vx := reader.GetU32();
    if !got { return; }
    got, vy := reader.GetU32();
    if !got { return; }
    got, ack := reader.GetU32();
    if !got { return; }
    p := PlayerRecord(id, x, y, vx, vy, ack);
  }

  method DecodeSnapshot(d: Bytes) returns (r: Option<Snapshot>)
    ensures r == Wire.DecodeSnapshot(d)
  {
    var reader := new BufferReader(d);
    var got, t := reader.GetU8();
    if !got || t != WORLD_SNAPSHOT { return None; }
    var tick, n;
    got, tick := reader.GetU32();
    if !got { return None; }
    got, n := reader.GetU16();
    if !got || n > MAX_PLAYERS { return None; }
    var players: seq<PlayerRecord> := [];
    var i := 0;
    while i < n
      invariant 0 <= i <= n
      invariant reader.Valid() && reader.ok && reader.data == d && fresh(reader)
      invariant reader.pos == 7 + 22 * i
      invariant |players| == i && forall j :: 0 <= j < i ==> players[j] == RecordAt(d, 7 + 22 * j)
    {
      var p;
      got, p := GetRecord(reader);
      if !got { return None; }
      players := players + [p];
      i := i + 1;
    }
    assert players == RecordsAt(d, n);
    return Some(Snapshot(tick, players));
  }
}

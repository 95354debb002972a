/** The state of client/client.cpp that the protocol depends on: prediction, the latest authoritative
states, and the inputs still waiting for an ack. */
module ClientSpec {
  import opened Constants
  import opened Types
  import opened Motion
  import opened Prediction
  import opened Interpolation

  datatype PendingSample = PendingSample(seqNo: u32, sendMs: u64, predictedPos: Vec2)

  datatype ClientState = ClientState(
    pid: u16, log: seq<PredictedInput>, localPos: Vec2,
    latest: map<u16, PlayerState>, histories: map<u16, History>, pending: map<u32, PendingSample>)

  /** Every record of a snapshot overwrites what was known of that player. */
  function Learn(latest: map<u16, PlayerState>, players: seq<PlayerState>): map<u16, PlayerState> {
    if players == [] then latest
    else
      var last := players[|players| - 1];
      Learn(latest, players[..|players| - 1])[last.id := last]
  }

  /** Every record but the client's own feeds the interpolator. */
  function Watch(histories: map<u16, History>, pid: u16, players: seq<PlayerState>, recvMs: u64): map<u16, History> {
    if players == [] then histories
    else
      var last := players[|players| - 1];
      var before := Watch(histories, pid, players[..|players| - 1], recvMs);
      if last.id == pid then before else Ingested(before, last.id, InterpSample(last.pos, last.vel, recvMs))
  }

  function Acked(pending: map<u32, PendingSample>, ack: u32): set<u32> {
    set n | n in pending && n <= ack
  }

  /** Older than two seconds; the subtraction wraps. */
  function Aged(pending: map<u32, PendingSample>, nowMs: u64): set<u32> {
    set n | n in pending && Sub64(nowMs, pending[n].sendMs) > PENDING_AGE_MS
  }

  /** The client's own state as last reported, if it has been reported at all: the newest record wins even
      when this snapshot has none. */
  function Own(c: ClientState, players: seq<PlayerState>): Option<PlayerState> {
    var latest := Learn(c.latest, players);
    if c.pid in latest then Some(latest[c.pid]) else None
  }

  function RetiredBy(c: ClientState, players: seq<PlayerState>): set<u32> {
    match Own(c, players)
    case None => {}
    case Some(own) => Acked(c.pending, own.lastProcessedInputSeq)
  }

  function AfterSnapshot(ops: VectorOps, c: ClientState, players: seq<PlayerState>, recvMs: u64, predict: bool)
    : ClientState
  {
    var known := c.(latest := Learn(c.latest, players), histories := Watch(c.histories, c.pid, players, recvMs));
    match Own(c, players)
    case None => known
    case Some(own) =>
      known.(localPos := if predict then Reconciled(ops, c.log, own) else own.pos,
             pending := c.pending - RetiredBy(c, players))
  }

  /** Frame times that are not positive or above a quarter second are replaced by the nominal one. */
  function FrameTime(dt: real): (r: real)
    ensures 0.0 < r <= 0.25
    ensures 0.0 < dt <= 0.25 ==> r == dt
    ensures !(0.0 < dt <= 0.25) ==> r == DT_SECONDS
  {
    if dt <= 0.0 || dt > 0.25 then DT_SECONDS else dt
  }

  function Recorded(ops: VectorOps, c: ClientState, mx: i8, my: i8, dt: real, predict: bool): ClientState {
    var n := SeqAt(|c.log|);
    if predict
    then c.(log := c.log + [PredictedInput(n, mx, my, dt)], localPos := ApplyMove(ops, c.localPos, mx, my, dt))
    else c.(log := c.log + [PredictedInput(n, 0, 0, dt)])
  }

  function WithSample(c: ClientState, n: u32, sendMs: u64): map<u32, PendingSample> {
    c.pending[n := PendingSample(n, sendMs, c.localPos)]
  }

  /** What the size bound throws out after `pending` has grown. */
  function AgedOut(pending: map<u32, PendingSample>, nowMs: u64): set<u32> {
    if |pending| > PENDING_LIMIT then Aged(pending, nowMs) else {}
  }

  function Sampled(moved: ClientState, n: u32, sendMs: u64, nowMs: u64): ClientState {
    var pending := WithSample(moved, n, sendMs);
    moved.(pending := pending - AgedOut(pending, nowMs))
  }

  function AfterInput(ops: VectorOps, c: ClientState, mx: i8, my: i8, dt: real, sendMs: u64, nowMs: u64,
                      predict: bool): ClientState
  {
    Sampled(Recorded(ops, c, mx, my, FrameTime(dt), predict), SeqAt(|c.log|), sendMs, nowMs)
  }
}

/** What a snapshot and a key press do to the client, field by field. */
module ClientLaws {
  import opened Constants
  import opened Types
  import opened Motion
  import opened Folding
  import opened Prediction
  import opened Interpolation
  import opened ClientSpec

  // ----- snapshots

  /** `i` is the last record of player `q`. */
  ghost predicate IsLast(players: seq<PlayerState>, q: u16, i: nat) {
    i < |players| && players[i].id == q && forall j :: i < j < |players| ==> players[j].id != q
  }

  ghost predicate Lacks(players: seq<PlayerState>, q: u16) {
    forall i :: 0 <= i < |players| ==> players[i].id != q
  }

  /** Of several records of a player the last one counts. */
  lemma {:induction false} LearnsLast(latest: map<u16, PlayerState>, players: seq<PlayerState>, q: u16, i: nat)
    requires IsLast(players, q, i)
    ensures q in Learn(latest, players) && Learn(latest, players)[q] == players[i]
  {
    if i < |players| - 1 {
      assert players[|players| - 1].id != q;
      LearnsLast(latest, players[..|players| - 1], q, i);
    }
  }

  /** Who is not in the snapshot stays as last known. */
  lemma {:induction false} LearnKeepsOthers(latest: map<u16, PlayerState>, players: seq<PlayerState>, q: u16)
    requires Lacks(players, q)
    ensures q in Learn(latest, players) <==> q in latest
    ensures q in latest ==> Learn(latest, players)[q] == latest[q]
  {
    if players != [] {
      assert players[|players| - 1].id != q;
      LearnKeepsOthers(latest, players[..|players| - 1], q);
    }
  }

  /** The samples a snapshot holds of a player. */
  function SamplesOf(players: seq<PlayerState>, q: u16, recvMs: u64): History {
    if players == [] then []
    else
      var init, last := SamplesOf(players[..|players| - 1], q, recvMs), players[|players| - 1];
      if last.id == q then init + [InterpSample(last.pos, last.vel, recvMs)] else init
  }

  function HistoryOf(histories: map<u16, History>, q: u16): History {
    if q in histories then histories[q] else []
  }

  lemma TrimAgain(h: History, s: InterpSample)
    ensures Trimmed(Trimmed(h) + [s]) == Trimmed(h + [s])
  {
    var n := |h| - SNAPSHOT_HISTORY_SIZE;
    if n > 0 { assert (h[n..] + [s])[1..] == (h + [s])[n + 1..]; }
  }

  /** Every other player's samples join its history, which keeps the newest 32; the client's own are left out. */
  lemma {:induction false} WatchFeeds(histories: map<u16, History>, pid: u16, players: seq<PlayerState>, recvMs: u64,
                                      q: u16)
    ensures var now, samples := Watch(histories, pid, players, recvMs), SamplesOf(players, q, recvMs);
            if q == pid || samples == []
            then (q in now <==> q in histories) && (q in histories ==> now[q] == histories[q])
            else q in now && now[q] == Trimmed(HistoryOf(histories, q) + samples)
  {
    if players != [] {
      var init, last := players[..|players| - 1], players[|players| - 1];
      WatchFeeds(histories, pid, init, recvMs, q);
      if last.id == q && q != pid {
        var h, samples := HistoryOf(histories, q), SamplesOf(init, q, recvMs);
        var s := InterpSample(last.pos, last.vel, recvMs);
        assert h + (samples + [s]) == h + samples + [s] && h + [] == h;
        TrimAgain(h + samples, s);
      }
    }
  }

  /** What the client knows of itself after a snapshot: the last own record in it, else what it knew before. */
  ghost predicate NewestOwn(c: ClientState, players: seq<PlayerState>, own: PlayerState) {
    || (exists i: nat :: IsLast(players, c.pid, i) && own == players[i])
    || (Lacks(players, c.pid) && c.pid in c.latest && own == c.latest[c.pid])
  }

  lemma NewestIsOwn(c: ClientState, players: seq<PlayerState>, own: PlayerState)
    requires NewestOwn(c, players, own)
    ensures Own(c, players) == Some(own)
  {
    if i: nat :| IsLast(players, c.pid, i) && own == players[i] {
      LearnsLast(c.latest, players, c.pid, i);
    } else {
      LearnKeepsOthers(c.latest, players, c.pid);
    }
  }

  /** The outcome of a snapshot for a client that knows of itself: with prediction on it replays what was not acked from
      the reported place, with prediction off it is put there; exactly the acked numbers are no longer pending. */
  lemma SnapshotOutcome(ops: VectorOps, c: ClientState, players: seq<PlayerState>, recvMs: u64, predict: bool,
                        own: PlayerState)
    requires NewestOwn(c, players, own)
    ensures var r := AfterSnapshot(ops, c, players, recvMs, predict);
            && r.localPos == (if predict then Reconciled(ops, c.log, own) else own.pos)
            && r.pid == c.pid && r.log == c.log
            && (forall k :: k in r.pending <==> k in c.pending && k > own.lastProcessedInputSeq)
            && (forall k :: k in r.pending ==> r.pending[k] == c.pending[k])
  {
    NewestIsOwn(c, players, own);
  }

  /** A client that has never been told of itself stays where it is. */
  lemma SnapshotOfOthers(ops: VectorOps, c: ClientState, players: seq<PlayerState>, recvMs: u64, predict: bool)
    requires Lacks(players, c.pid) && c.pid !in c.latest
    ensures var r := AfterSnapshot(ops, c, players, recvMs, predict);
            r.localPos == c.localPos && r.pending == c.pending && r.pid == c.pid && r.log == c.log
  {
    LearnKeepsOthers(c.latest, players, c.pid);
  }

  // ----- keys

  datatype Press = Press(mx: i8, my: i8, dt: real, sendMs: u64, nowMs: u64, predict: bool)

  function AfterPress(ops: VectorOps, c: ClientState, k: Press): ClientState {
    AfterInput(ops, c, k.mx, k.my, k.dt, k.sendMs, k.nowMs, k.predict)
  }

  function AfterPresses(ops: VectorOps, c: ClientState, ks: seq<Press>): ClientState {
    if ks == [] then c else AfterPress(ops, AfterPresses(ops, c, ks[..|ks| - 1]), ks[|ks| - 1])
  }

  /** What is recorded of a press: nothing but the time if prediction is off. */
  ghost predicate Records(pi: PredictedInput, n: nat, k: Press) {
    && pi.seqNo == n
    && (if k.predict then pi.mx == k.mx && pi.my == k.my else pi.mx == pi.my == 0)
    && (if 0.0 < k.dt <= 0.25 then pi.dt == k.dt else pi.dt == 1.0 / 60.0)
  }

  /** What the player sees of a press: nothing if prediction is off. */
  function Seen(ops: VectorOps): (Vec2, Press) -> Vec2 {
    (p: Vec2, k: Press) =>
      if k.predict then ApplyMove(ops, p, k.mx, k.my, if 0.0 < k.dt <= 0.25 then k.dt else 1.0 / 60.0) else p
  }

  /** `log` is `was` with one entry for every press. */
  ghost predicate Extends(was: seq<PredictedInput>, log: seq<PredictedInput>, ks: seq<Press>) {
    && |log| == |was| + |ks| && log[..|was|] == was
    && forall i {:trigger ks[i]} :: 0 <= i < |ks| ==> Records(log[|was| + i], |was| + i + 1, ks[i])
  }

  lemma ExtendsNext(was: seq<PredictedInput>, log: seq<PredictedInput>, ks: seq<Press>, pi: PredictedInput, k: Press)
    requires Extends(was, log, ks) && Records(pi, |log| + 1, k)
    ensures Extends(was, log + [pi], ks + [k])
  {
    assert (log + [pi])[..|was|] == log[..|was|];
  }

  /** What a run of presses leaves alone. */
  ghost predicate SameOtherwise(c: ClientState, r: ClientState) {
    r.pid == c.pid && r.latest == c.latest && r.histories == c.histories
  }

  /** `r` is `c` after one press that recorded `pi`. */
  ghost predicate Pressed(ops: VectorOps, c: ClientState, r: ClientState, k: Press, pi: PredictedInput) {
    && r.log == c.log + [pi] && Records(pi, |c.log| + 1, k)
    && r.localPos == Seen(ops)(c.localPos, k) && SameOtherwise(c, r)
  }

  lemma RecordedOutcome(ops: VectorOps, c: ClientState, k: Press) returns (pi: PredictedInput)
    requires Numbered(c.log) && |c.log| + 2 < TWO32
    ensures Pressed(ops, c, Recorded(ops, c, k.mx, k.my, FrameTime(k.dt), k.predict), k, pi)
  {
    SeqAtIsIndex(|c.log|);
    pi := Recorded(ops, c, k.mx, k.my, FrameTime(k.dt), k.predict).log[|c.log|];
  }

  lemma SampledKeeps(moved: ClientState, n: u32, sendMs: u64, nowMs: u64)
    ensures var r := Sampled(moved, n, sendMs, nowMs);
            r.log == moved.log && r.localPos == moved.localPos && SameOtherwise(moved, r)
  {
  }

  lemma NumberedNext(log: seq<PredictedInput>, pi: PredictedInput)
    requires Numbered(log) && |log| + 2 < TWO32 && pi.seqNo == |log| + 1
    ensures Numbered(log + [pi])
  {
    SeqAtIsIndex(|log|);
  }

  lemma PressRecorded(ops: VectorOps, c: ClientState, k: Press) returns (pi: PredictedInput)
    requires Numbered(c.log) && |c.log| + 2 < TWO32
    ensures Pressed(ops, c, AfterPress(ops, c, k), k, pi)
  {
    pi := RecordedOutcome(ops, c, k);
    SampledKeeps(Recorded(ops, c, k.mx, k.my, FrameTime(k.dt), k.predict), SeqAt(|c.log|), k.sendMs, k.nowMs);
  }

  lemma SeenNext(ops: VectorOps, p: Vec2, ks: seq<Press>)
    requires ks != []
    ensures Fold(Seen(ops), p, ks) == Seen(ops)(Fold(Seen(ops), p, ks[..|ks| - 1]), ks[|ks| - 1])
  {
  }

  /** `r` is `c` after the presses `ks`. */
  ghost predicate PressedAll(ops: VectorOps, c: ClientState, r: ClientState, ks: seq<Press>) {
    && Extends(c.log, r.log, ks) && Numbered(r.log)
    && r.localPos == Fold(Seen(ops), c.localPos, ks) && SameOtherwise(c, r)
  }

  lemma PressedNext(ops: VectorOps, c: ClientState, m: ClientState, r: ClientState, ks: seq<Press>, pi: PredictedInput)
    requires ks != [] && |c.log| + |ks| + 1 < TWO32
    requires PressedAll(ops, c, m, ks[..|ks| - 1]) && Pressed(ops, m, r, ks[|ks| - 1], pi)
    ensures PressedAll(ops, c, r, ks)
  {
    var init, k := ks[..|ks| - 1], ks[|ks| - 1];
    ExtendsNext(c.log, m.log, init, pi, k);
    NumberedNext(m.log, pi);
    SeenNext(ops, c.localPos, ks);
    assert init + [k] == ks;
  }

  /** Over any run of presses, with prediction going on and off and frames of any length: every press takes the next
      number and is recorded, and the position moves by the presses made with prediction on. */
  lemma {:induction false} PressesRecorded(ops: VectorOps, c: ClientState, ks: seq<Press>)
    requires Numbered(c.log) && |c.log| + |ks| + 1 < TWO32
    ensures PressedAll(ops, c, AfterPresses(ops, c, ks), ks)
  {
    if ks != [] {
      var init, k := ks[..|ks| - 1], ks[|ks| - 1];
      PressesRecorded(ops, c, init);
      var m := AfterPresses(ops, c, init);
      var pi := PressRecorded(ops, m, k);
      PressedNext(ops, c, m, AfterPress(ops, m, k), ks, pi);
    }
  }

  /** Sent no more than two seconds before the clock reading. A stamp from the future counts as old: the difference
      wraps, unless it wraps nearly all the way round. */
  predicate Young(nowMs: u64, sentMs: u64) {
    sentMs <= nowMs <= sentMs + 2000 || (nowMs < sentMs && sentMs - nowMs >= TWO64 - 2000)
  }

  lemma AgedExactly(pending: map<u32, PendingSample>, nowMs: u64, k: u32)
    ensures k in Aged(pending, nowMs) <==> k in pending && !Young(nowMs, pending[k].sendMs)
  {
    if k in pending { WrappedDifference(nowMs, pending[k].sendMs); }
  }

  /** With at most 256 pending nothing is thrown out; with more, exactly what is older than two seconds. */
  lemma OldestGiveWay(pending: map<u32, PendingSample>, nowMs: u64, k: u32)
    ensures k in AgedOut(pending, nowMs) <==> |pending| > 256 && k in pending && !Young(nowMs, pending[k].sendMs)
  {
    AgedExactly(pending, nowMs, k);
  }

  /** What is pending once `sample` has joined: everything if that makes at most 256, else what is at most two
      seconds old. */
  function Remembered(was: map<u32, PendingSample>, sample: PendingSample, nowMs: u64): map<u32, PendingSample> {
    var grown := was[sample.seqNo := sample];
    map k | k in grown && (|grown| <= 256 || Young(nowMs, grown[k].sendMs)) :: grown[k]
  }

  /** A press is remembered under its number, with the time it was sent and the place it led to. */
  lemma PressRemembered(ops: VectorOps, c: ClientState, k: Press)
    requires Numbered(c.log) && |c.log| + 2 < TWO32
    ensures var r := AfterPress(ops, c, k);
            r.pending == Remembered(c.pending, PendingSample(|c.log| + 1, k.sendMs, r.localPos), k.nowMs)
  {
    SeqAtIsIndex(|c.log|);
    var moved := Recorded(ops, c, k.mx, k.my, FrameTime(k.dt), k.predict);
    RecordedKeepsPending(ops, c, k);
    var n: u32 := |c.log| + 1;
    PressIsSampled(ops, c, k, moved, n);
    SampledIsRemembered(moved, n, k.sendMs, k.nowMs);
    SampledKeeps(moved, n, k.sendMs, k.nowMs);
    var r := AfterPress(ops, c, k);
    assert PendingSample(n, k.sendMs, r.localPos) == PendingSample(n, k.sendMs, moved.localPos);
  }

  lemma PressIsSampled(ops: VectorOps, c: ClientState, k: Press, moved: ClientState, n: u32)
    requires moved == Recorded(ops, c, k.mx, k.my, FrameTime(k.dt), k.predict) && n == SeqAt(|c.log|)
    ensures AfterPress(ops, c, k) == Sampled(moved, n, k.sendMs, k.nowMs)
  {
  }

  lemma RecordedKeepsPending(ops: VectorOps, c: ClientState, k: Press)
    ensures Recorded(ops, c, k.mx, k.my, FrameTime(k.dt), k.predict).pending == c.pending
  {
  }

  lemma SampledIsRemembered(moved: ClientState, n: u32, sendMs: u64, nowMs: u64)
    ensures Sampled(moved, n, sendMs, nowMs).pending
            == Remembered(moved.pending, PendingSample(n, sendMs, moved.localPos), nowMs)
  {
    var grown := WithSample(moved, n, sendMs);
    forall k ensures k in AgedOut(grown, nowMs)
                     <==> |grown| > 256 && k in grown && !Young(nowMs, grown[k].sendMs)
    {
      OldestGiveWay(grown, nowMs, k);
    }
  }
}

/** client/client.cpp: snapshot drain with pending-input retirement, and the input send step. */
module GameClient {
  import opened Constants
  import opened Types
  import opened Wire
  import opened Motion
  import opened Prediction
  import opened Interpolation
  import opened ClientSpec
  import Serialization

  class Client {
    const ops: VectorOps
    const pid: u16
    const predictor: Predictor
    const interp: Interpolator
    var localPos: Vec2
    var latest: map<u16, PlayerState>
    var pending: map<u32, PendingSample>

    ghost function State(): ClientState
      reads this, predictor, interp
    {
      ClientState(pid, predictor.log, localPos, latest, interp.histories, pending)
    }

    ghost predicate Valid()
      reads this, predictor, predictor.ring
    {
      predictor.Valid() && predictor.ops == ops
    }

    constructor (ops: VectorOps, pid: u16)
      ensures Valid() && State() == ClientState(pid, [], CENTRE, map[], map[], map[])
      ensures this.ops == ops && fresh(predictor) && fresh(predictor.ring) && fresh(interp)
    {
      this.ops, this.pid := ops, pid;
      predictor := new Predictor(ops);
      interp := new Interpolator();
      localPos, latest, pending := CENTRE, map[], map[];
    }

    method HandleSnapshot(players: seq<PlayerState>, recvMs: u64, predict: bool)
      requires Valid()
      modifies this, interp
      ensures Valid()
      ensures State() == AfterSnapshot(ops, old(State()), players, recvMs, predict)
    {
      ghost var was := State();
      LearnAndWatch(players, recvMs);
      if pid in latest {
        var own := latest[pid];
        if predict {
          localPos := predictor.Reconcile(own);
        } else {
          localPos := own.pos;
        }
        assert Own(was, players) == Some(own);
        Retire(own.lastProcessedInputSeq);
      }
    }

    method LearnAndWatch(players: seq<PlayerState>, recvMs: u64)
      modifies this`latest, interp
      ensures latest == Learn(old(latest), players)
      ensures interp.histories == Watch(old(interp.histories), pid, players, recvMs)
    {
      var i := 0;
      while i < |players|
        invariant 0 <= i <= |players|
        invariant latest == Learn(old(latest), players[..i])
        invariant interp.histories == Watch(old(interp.histories), pid, players[..i], recvMs)
      {
        var ps := players[i];
        assert players[..i + 1][..i] == players[..i];
        latest := latest[ps.id := ps];
        if ps.id != pid {
          interp.Ingest(ps.id, InterpSample(ps.pos, ps.vel, recvMs));
        }
        i := i + 1;
      }
      assert players[..i] == players;
    }

    /** Erases while iterating. */
    method Retire(ack: u32)
      modifies this`pending
      ensures pending == old(pending) - Acked(old(pending), ack)
    {
      ghost var was := pending;
      var todo := pending.Keys;
      while todo != {}
        invariant todo <= was.Keys
        invariant pending == map n | n in was && (n in todo || n > ack) :: was[n]
        decreases |todo|
      {
        var n :| n in todo;
        todo := todo - {n};
        if n <= ack { pending := pending - {n}; }
      }
    }

    method HandleInput(mx: i8, my: i8, rawDt: real, sendMs: u64, nowMs: u64, predict: bool) returns (packet: Bytes)
      requires Valid()
      modifies this, predictor, predictor.ring
      ensures Valid()
      ensures State() == AfterInput(ops, old(State()), mx, my, rawDt, sendMs, nowMs, predict)
      ensures packet == EncodeInput(InputPacket(pid, SeqAt(|old(State()).log|), mx, my))
    {
      var dt := FrameTime(rawDt);
      var seqNo := Record(mx, my, dt, predict);
      packet := Packet(InputPacket(pid, seqNo, mx, my));
      Remember(seqNo, sendMs, nowMs);
    }

    /** The bytes handed to the socket. */
    static method Packet(ip: InputPacket) returns (packet: Bytes)
      ensures packet == EncodeInput(ip)
    {
      var buf := new byte[32](_ => 0);
      var n := Serialization.EncodeInput(buf, ip);
      assert |EncodeInput(ip)| == 9;
      packet := buf[..n];
    }

    /** The input now waits for its ack; the oldest give way once there are too many. The clock is read once for
        the sample and once more for the ages. */
    method Remember(seqNo: u32, sendMs: u64, nowMs: u64)
      modifies this`pending
      ensures pending == var grown := old(pending)[seqNo := PendingSample(seqNo, sendMs, localPos)];
                         grown - AgedOut(grown, nowMs)
    {
      pending := pending[seqNo := PendingSample(seqNo, sendMs, localPos)];
      if |pending| > PENDING_LIMIT { DropAged(nowMs); }
    }

    method Record(mx: i8, my: i8, dt: real, predict: bool) returns (seqNo: u32)
      requires Valid()
      modifies this`localPos, predictor, predictor.ring
      ensures Valid()
      ensures State() == Recorded(ops, old(State()), mx, my, dt, predict)
      ensures seqNo == SeqAt(|old(State()).log|)
    {
      if predict {
        seqNo, localPos := predictor.RecordAndStep(mx, my, dt, localPos);
      } else {
        var scratch;
        seqNo, scratch := predictor.RecordAndStep(0, 0, dt, localPos);
      }
    }

    method DropAged(nowMs: u64)
      modifies this`pending
      ensures pending == old(pending) - Aged(old(pending), nowMs)
    {
      ghost var was := pending;
      var todo := pending.Keys;
      while todo != {}
        invariant todo <= was.Keys
        invariant pending == map n | n in was && (n in todo || Sub64(nowMs, was[n].sendMs) <= PENDING_AGE_MS) :: was[n]
        decreases |todo|
      {
        var n :| n in todo;
        todo := todo - {n};
        if Sub64(nowMs, pending[n].sendMs) > PENDING_AGE_MS { pending := pending - {n}; }
      }
    }
  }
}

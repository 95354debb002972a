/** A left fold over a sequence: what "apply these inputs in order" means. */
module Folding {
  function Fold<P, I>(step: (P, I) -> P, p: P, s: seq<I>): P {
    if s == [] then p else step(Fold(step, p, s[..|s| - 1]), s[|s| - 1])
  }

  lemma {:induction false} FoldConcat<P, I>(step: (P, I) -> P, p: P, s: seq<I>, t: seq<I>)
    ensures Fold(step, p, s + t) == Fold(step, Fold(step, p, s), t)
  {
    if t == [] {
      assert s + t == s;
    } else {
      FoldConcat(step, p, s, t[..|t| - 1]);
      assert (s + t)[..|s + t| - 1] == s + t[..|t| - 1];
    }
  }

  /** For any step function at all, rounded or exact: snapping to the result of a prefix and replaying the
      rest is the same as replaying everything. */
  lemma SnapAndReplay<P, I>(step: (P, I) -> P, p: P, s: seq<I>, k: nat)
    requires k <= |s|
    ensures Fold(step, Fold(step, p, s[..k]), s[k..]) == Fold(step, p, s)
  {
    FoldConcat(step, p, s[..k], s[k..]);
    assert s == s[..k] + s[k..];
  }
}

/** client/prediction.cpp: the input ring, immediate prediction and reconciliation. */
module Prediction {
  import opened Constants
  import opened Types
  import opened Motion
  import opened Folding

  datatype PredictedInput = PredictedInput(seqNo: u32, mx: i8, my: i8, dt: real)

  /** The step both `record_and_step` and the replay loop take, as a value that can be folded. */
  function Mover(ops: VectorOps): (Vec2, PredictedInput) -> Vec2 {
    (p: Vec2, i: PredictedInput) => ApplyMove(ops, p, i.mx, i.my, i.dt)
  }

  function Replay(ops: VectorOps, p: Vec2, inputs: seq<PredictedInput>): Vec2 {
    Fold(Mover(ops), p, inputs)
  }

  /** What the ring remembers of everything recorded. */
  function Window(log: seq<PredictedInput>): seq<PredictedInput> {
    log[|log| - Min(|log|, INPUT_HISTORY_SIZE)..]
  }

  function Unacked(inputs: seq<PredictedInput>, ack: u32): seq<PredictedInput> {
    if inputs == [] then []
    else
      var last := inputs[|inputs| - 1];
      Unacked(inputs[..|inputs| - 1], ack) + if last.seqNo > ack then [last] else []
  }

  /** Where `reconcile` puts the local player, given everything recorded so far. */
  function Reconciled(ops: VectorOps, log: seq<PredictedInput>, authoritative: PlayerState): Vec2 {
    Replay(ops, authoritative.pos, Unacked(Window(log), authoritative.lastProcessedInputSeq))
  }

  /** The i-th recorded input carries number i+1; the counter is a `std::uint32_t` and wraps. */
  ghost predicate Numbered(log: seq<PredictedInput>) {
    forall i {:trigger log[i]} :: 0 <= i < |log| ==> log[i].seqNo == SeqAt(i)
  }

  /** The counter behind `next_seq_` is a `std::uint32_t`: it wraps. */
  function Succ32(n: u32): (r: u32)
    ensures r == if n + 1 < TWO32 then n + 1 else 0
  {
    (n + 1) % TWO32
  }

  /** The number given to the i-th input recorded. */
  function SeqAt(i: nat): u32 {
    if i == 0 then 1 else Succ32(SeqAt(i - 1))
  }

  lemma {:induction false} SeqAtIsIndex(i: nat)
    requires i + 1 < TWO32
    ensures SeqAt(i) == i + 1
  {
    if i > 0 { SeqAtIsIndex(i - 1); }
  }

  lemma NumbersAreIndices(log: seq<PredictedInput>)
    requires Numbered(log) && |log| + 1 < TWO32
    ensures forall i :: 0 <= i < |log| ==> log[i].seqNo == i + 1
  {
    forall i | 0 <= i < |log| ensures log[i].seqNo == i + 1 {
      SeqAtIsIndex(i);
    }
  }

  /** The next write slot. */
  function NextSlot(head: nat): (r: nat)
    requires head < INPUT_HISTORY_SIZE
    ensures r == if head + 1 == INPUT_HISTORY_SIZE then 0 else head + 1
  {
    (head + 1) % INPUT_HISTORY_SIZE
  }

  /** The slots before `head` hold the current lap, the others the previous one if there was one. */
  ghost predicate RingHolds(ring: seq<PredictedInput>, log: seq<PredictedInput>, head: nat, lap: nat) {
    && |ring| == INPUT_HISTORY_SIZE
    && |log| == lap + head
    && head < INPUT_HISTORY_SIZE
    && (lap == 0 || lap >= INPUT_HISTORY_SIZE)
    && (forall i :: 0 <= i < head ==> ring[i] == log[lap + i])
    && (lap > 0 ==>
          forall i :: head <= i < INPUT_HISTORY_SIZE ==> ring[i] == log[lap - INPUT_HISTORY_SIZE + i])
  }

  lemma RingPush(ring: seq<PredictedInput>, log: seq<PredictedInput>, head: nat, lap: nat, pi: PredictedInput)
    requires RingHolds(ring, log, head, lap)
    ensures RingHolds(ring[head := pi], log + [pi], NextSlot(head),
                      if head + 1 == INPUT_HISTORY_SIZE then |log| + 1 else lap)
  {
  }

  /** The counters beside the ring: how many inputs it holds, and the next number. */
  ghost predicate Counting(log: seq<PredictedInput>, count: nat, nextSeq: u32) {
    count == Min(|log|, INPUT_HISTORY_SIZE) && nextSeq == SeqAt(|log|) && Numbered(log)
  }

  lemma CountPush(log: seq<PredictedInput>, count: nat, nextSeq: u32, pi: PredictedInput)
    requires Counting(log, count, nextSeq) && pi.seqNo == nextSeq
    ensures Counting(log + [pi], if count < INPUT_HISTORY_SIZE then count + 1 else count, Succ32(nextSeq))
  {
  }

  class Predictor {
    const ops: VectorOps
    const ring: array<PredictedInput>
    var head: nat
    var count: nat
    var nextSeq: u32
    ghost var log: seq<PredictedInput>  // everything ever recorded
    ghost var lap: nat                  // how many had been recorded when the write slot was last 0

    ghost predicate Valid()
      reads this, ring
    {
      RingHolds(ring[..], log, head, lap) && Counting(log, count, nextSeq)
    }

    constructor (ops: VectorOps)
      ensures Valid() && log == [] && this.ops == ops && fresh(ring)
    {
      this.ops := ops;
      ring := new PredictedInput[INPUT_HISTORY_SIZE](_ => PredictedInput(0, 0, 0, 0.0));
      head, count, nextSeq := 0, 0, 1;
      log, lap := [], 0;
    }

    /** The ring half of `record_and_step`. */
    method Push(pi: PredictedInput)
      requires Valid() && pi.seqNo == nextSeq
      modifies this, ring
      ensures Valid()
      ensures log == old(log) + [pi]
    {
      ghost var slots := ring[..];
      RingPush(slots, log, head, lap, pi);
      CountPush(log, count, nextSeq, pi);
      ring[head] := pi;
      assert ring[..] == slots[head := pi];
      lap := if head + 1 == INPUT_HISTORY_SIZE then |log| + 1 else lap;
      nextSeq := Succ32(nextSeq);
      head := NextSlot(head);
      if count < INPUT_HISTORY_SIZE { count := count + 1; }
      log := log + [pi];
    }

    method RecordAndStep(mx: i8, my: i8, dt: real, localPos: Vec2) returns (seqNo: u32, newPos: Vec2)
      requires Valid()
      modifies this, ring
      ensures Valid()
      ensures seqNo == old(nextSeq)
      ensures log == old(log) + [PredictedInput(seqNo, mx, my, dt)]
      ensures newPos == ApplyMove(ops, localPos, mx, my, dt)
    {
      seqNo := nextSeq;
      Push(PredictedInput(seqNo, mx, my, dt));
      newPos := ApplyMove(ops, localPos, mx, my, dt);
    }

    /** The slot `offset` places after the write slot, going round the ring. */
    lemma SlotHolds(offset: nat)
      requires Valid() && INPUT_HISTORY_SIZE - count <= offset < INPUT_HISTORY_SIZE
      ensures ring[(head + offset) % INPUT_HISTORY_SIZE] == log[|log| + offset - INPUT_HISTORY_SIZE]
    {
    }

    method FindInputBySeq(seqNo: u32) returns (r: Option<PredictedInput>)
      requires Valid()
      ensures r.Some? ==> r.value in Window(log) && r.value.seqNo == seqNo
      ensures r.None? ==> forall pi :: pi in Window(log) ==> pi.seqNo != seqNo
    {
      ghost var w := Window(log);
      var i := 0;
      while i < count
        invariant 0 <= i <= count
        invariant forall j :: count - i <= j < count ==> w[j].seqNo != seqNo
      {
        var idx := (head + INPUT_HISTORY_SIZE - 1 - i) % INPUT_HISTORY_SIZE;
        SlotHolds(INPUT_HISTORY_SIZE - 1 - i);
        assert ring[idx] == w[count - 1 - i];
        if ring[idx].seqNo == seqNo { return Some(ring[idx]); }
        i := i + 1;
      }
      return None;
    }

    method Reconcile(authoritative: PlayerState) returns (localPos: Vec2)
      requires Valid()
      ensures localPos == Reconciled(ops, log, authoritative)
    {
      localPos := authoritative.pos;
      var ack := authoritative.lastProcessedInputSeq;
      ghost var w := Window(log);
      var i := 0;
      while i < count
        invariant 0 <= i <= count
        invariant localPos == Replay(ops, authoritative.pos, Unacked(w[..i], ack))
      {
        var idx := (head + INPUT_HISTORY_SIZE - count + i) % INPUT_HISTORY_SIZE;
        SlotHolds(INPUT_HISTORY_SIZE - count + i);
        var pi := ring[idx];
        assert pi == w[i];
        ReplayOne(ops, authoritative.pos, w, i, ack);
        if pi.seqNo > ack {
          localPos := ApplyMove(ops, localPos, pi.mx, pi.my, pi.dt);
        }
        i := i + 1;
      }
      assert w[..count] == w;
    }
  }

  lemma ReplayOne(ops: VectorOps, p: Vec2, w: seq<PredictedInput>, i: nat, ack: u32)
    requires i < |w|
    ensures var before := Replay(ops, p, Unacked(w[..i], ack));
            Replay(ops, p, Unacked(w[..i + 1], ack))
            == if w[i].seqNo > ack then ApplyMove(ops, before, w[i].mx, w[i].my, w[i].dt) else before
  {
    assert w[..i + 1][..i] == w[..i];
    var u := Unacked(w[..i], ack);
    if w[i].seqNo > ack {
      assert (u + [w[i]])[..|u|] == u;
    } else {
      assert u + [] == u;
    }
  }

  /** Where all acked inputs precede all unacked ones, filtering by `seq > ack` keeps a suffix. */
  lemma {:induction false} UnackedIsSuffix(s: seq<PredictedInput>, ack: u32, cut: nat)
    requires cut <= |s|
    requires forall i :: 0 <= i < |s| ==> (s[i].seqNo > ack <==> cut <= i)
    ensures Unacked(s, ack) == s[cut..]
  {
    if s != [] {
      var n := |s| - 1;
      var t := s[..n];
      if cut <= n {
        UnackedIsSuffix(t, ack, cut);
        assert s[cut..] == t[cut..] + [s[n]];
      } else {
        UnackedIsSuffix(t, ack, n);
        assert s[cut..] == t[n..] + [];
      }
    }
  }

  /** Before the counter wraps, the ring holds the last min(n, 120) inputs ... */
  lemma WindowNumbers(log: seq<PredictedInput>)
    requires Numbered(log) && |log| + 1 < TWO32
    ensures |Window(log)| == Min(|log|, INPUT_HISTORY_SIZE)
    ensures forall i :: 0 <= i < |Window(log)| ==> Window(log)[i].seqNo == |log| - |Window(log)| + i + 1
  {
    NumbersAreIndices(log);
  }

  /** ... and exactly those above the ack are replayed. */
  lemma RingKeepsNewest(log: seq<PredictedInput>, ack: u32)
    requires Numbered(log) && |log| + 1 < TWO32
    ensures Unacked(Window(log), ack) == log[Min(|log|, Max(ack, |log| - INPUT_HISTORY_SIZE))..]
  {
    WindowNumbers(log);
    var w := Window(log);
    var base := |log| - |w|;
    var from := if ack <= base then base else if ack >= |log| then |log| else ack;
    assert from == Min(|log|, Max(ack, |log| - INPUT_HISTORY_SIZE));
    UnackedIsSuffix(w, ack, from - base);
    assert w[from - base..] == log[from..];
  }

  /** A number is found in the window exactly when it is one of the last 120 handed out, and then it
      names the input recorded under it. */
  lemma WindowLookup(log: seq<PredictedInput>, seqNo: u32)
    requires Numbered(log) && |log| + 1 < TWO32
    ensures (exists pi :: pi in Window(log) && pi.seqNo == seqNo)
            <==> Max(0, |log| - INPUT_HISTORY_SIZE) < seqNo <= |log|
    ensures forall pi :: pi in Window(log) && pi.seqNo == seqNo ==> pi == log[seqNo - 1]
  {
    WindowNumbers(log);
    var w := Window(log);
    var base := |log| - |w|;
    forall pi | pi in w && pi.seqNo == seqNo ensures base < seqNo <= |log| && pi == log[seqNo - 1] {
      var i :| 0 <= i < |w| && w[i] == pi;
      assert w[i] == log[base + i];
    }
    if base < seqNo <= |log| {
      assert w[seqNo - 1 - base].seqNo == seqNo;
    }
  }
}

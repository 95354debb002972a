/** How far `reconcile` can move the local player: bounds for every ring, ack and authoritative position. */
module Correction {
  import opened Constants
  import opened Types
  import opened Motion
  import opened Folding
  import opened Prediction

  function TotalTime(inputs: seq<PredictedInput>): real {
    if inputs == [] then 0.0 else TotalTime(inputs[..|inputs| - 1]) + inputs[|inputs| - 1].dt
  }

  ghost predicate Timed(inputs: seq<PredictedInput>) {
    forall i :: 0 <= i < |inputs| ==> inputs[i].dt >= 0.0
  }

  lemma {:induction false} ReplayNonExpansive(root: nat -> real, p: Vec2, q: Vec2, inputs: seq<PredictedInput>, a: Axis)
    ensures Gap(Replay(ExactOps(root), p, inputs), Replay(ExactOps(root), q, inputs), a) <= Gap(p, q, a)
  {
    if inputs != [] {
      var init, last := inputs[..|inputs| - 1], inputs[|inputs| - 1];
      ReplayNonExpansive(root, p, q, init, a);
      var p', q' := Replay(ExactOps(root), p, init), Replay(ExactOps(root), q, init);
      MoveNonExpansive(root, p', q', last.mx, last.my, last.dt, a);
    }
  }

  /** If the local position is the replay of the unacked inputs from `q`, a snapshot moves it by no more
      than the server moved away from `q`. */
  lemma CorrectionBounded(root: nat -> real, log: seq<PredictedInput>, q: Vec2, authoritative: PlayerState, a: Axis)
    ensures var localPos := Replay(ExactOps(root), q, Unacked(Window(log), authoritative.lastProcessedInputSeq));
            Gap(Reconciled(ExactOps(root), log, authoritative), localPos, a) <= Gap(authoritative.pos, q, a)
  {
    ReplayNonExpansive(root, authoritative.pos, q, Unacked(Window(log), authoritative.lastProcessedInputSeq), a);
  }

  lemma {:induction false} ReplayTravel(root: nat -> real, p: Vec2, inputs: seq<PredictedInput>, a: Axis)
    requires IsRoot(root) && InArena(p) && Timed(inputs)
    ensures InArena(Replay(ExactOps(root), p, inputs))
    ensures Gap(Replay(ExactOps(root), p, inputs), p, a) <= PLAYER_SPEED * TotalTime(inputs)
  {
    if inputs != [] {
      var init, last := inputs[..|inputs| - 1], inputs[|inputs| - 1];
      ReplayTravel(root, p, init, a);
      MoveStepBounded(root, Replay(ExactOps(root), p, init), last.mx, last.my, last.dt, a);
      assert PLAYER_SPEED * TotalTime(inputs) == PLAYER_SPEED * TotalTime(init) + PLAYER_SPEED * last.dt;
    }
  }

  /** With more than 120 inputs unacked the ring has forgotten the oldest of them. The result then differs
      from replaying all of them by at most the distance the forgotten ones could cover. */
  lemma ForgettingBounded(root: nat -> real, log: seq<PredictedInput>, authoritative: PlayerState, a: Axis)
    requires IsRoot(root) && Numbered(log) && |log| + 1 < TWO32 && Timed(log)
    requires InArena(authoritative.pos)
    requires authoritative.lastProcessedInputSeq + INPUT_HISTORY_SIZE < |log|
    ensures var ack := authoritative.lastProcessedInputSeq;
            Gap(Reconciled(ExactOps(root), log, authoritative),
                Replay(ExactOps(root), authoritative.pos, log[ack..]), a)
            <= PLAYER_SPEED * TotalTime(log[ack..|log| - INPUT_HISTORY_SIZE])
  {
    var ack := authoritative.lastProcessedInputSeq;
    var cut := |log| - INPUT_HISTORY_SIZE;
    var p := authoritative.pos;
    RingKeepsNewest(log, ack);
    assert log[ack..] == log[ack..cut] + log[cut..];
    FoldConcat(Mover(ExactOps(root)), p, log[ack..cut], log[cut..]);
    ReplayTravel(root, p, log[ack..cut], a);
    ReplayNonExpansive(root, p, Replay(ExactOps(root), p, log[ack..cut]), log[cut..], a);
  }
}

/** Client and server in step: the server accepts input k and then ticks once, for k = 1, 2, ... */
module Lockstep {
  import opened Constants
  import opened Types
  import opened Motion
  import opened Folding
  import opened Prediction
  import opened World

  /** What the keyboard and the bots produce, recorded at the nominal frame time. */
  ghost predicate Nominal(log: seq<PredictedInput>) {
    && Numbered(log)
    && |log| + 1 < TWO32
    && forall i :: 0 <= i < |log| ==>
         -1 <= log[i].mx <= 1 && -1 <= log[i].my <= 1 && log[i].dt == DT_SECONDS
  }

  /** The server's copy of the player after tick k. */
  function ServerAfter(ops: VectorOps, log: seq<PredictedInput>, id: u16, k: nat): ServerPlayer
    requires k <= |log|
  {
    if k == 0 then Fresh(id)
    else
      var c := log[k - 1];
      StepPlayer(ops, Offer(ServerAfter(ops, log, id, k - 1), InputCmd(c.seqNo, c.mx, c.my)))
  }

  lemma {:induction false} ServerFollowsPrefix(ops: VectorOps, log: seq<PredictedInput>, id: u16, k: nat)
    requires Nominal(log) && k <= |log|
    ensures ServerAfter(ops, log, id, k).state.pos == Replay(ops, CENTRE, log[..k])
    ensures ServerAfter(ops, log, id, k).state.lastProcessedInputSeq == k
    ensures ServerAfter(ops, log, id, k).latestSeenSeq == k
  {
    if k > 0 {
      ServerFollowsPrefix(ops, log, id, k - 1);
      NumbersAreIndices(log);
      var c := log[k - 1];
      var p := Offer(ServerAfter(ops, log, id, k - 1), InputCmd(c.seqNo, c.mx, c.my));
      ServerMovesAsClient(ops, p);
      assert log[..k][..k - 1] == log[..k - 1];
    }
  }

  ghost predicate Transparent(ops: VectorOps, log: seq<PredictedInput>, id: u16, k: nat)
    requires k <= |log|
  {
    Reconciled(ops, log, ServerAfter(ops, log, id, k).state) == Replay(ops, CENTRE, log)
  }

  /** Reconciling against any tick at most 120 inputs old, however stale, leaves the prediction as it is. */
  lemma LockstepTransparent(ops: VectorOps, log: seq<PredictedInput>, id: u16, k: nat)
    requires Nominal(log) && k <= |log| <= k + INPUT_HISTORY_SIZE
    ensures Transparent(ops, log, id, k)
  {
    ServerFollowsPrefix(ops, log, id, k);
    RingKeepsNewest(log, k);
    assert Unacked(Window(log), k) == log[k..];
    SnapAndReplay(Mover(ops), CENTRE, log, k);
  }

  /** One step to the right after tick k, then nothing: the ring forgets the step 120 inputs later. */
  function OneStepRight(n: nat, k: nat): seq<PredictedInput> {
    seq(n, i requires 0 <= i < n => PredictedInput(SeqAt(i), if i == k then 1 else 0, 0, DT_SECONDS))
  }

  lemma {:induction false} StandingStill(ops: VectorOps, p: Vec2, inputs: seq<PredictedInput>)
    requires Stays(ops, p)
    requires forall i :: 0 <= i < |inputs| ==> inputs[i].mx == inputs[i].my == 0 && inputs[i].dt == DT_SECONDS
    ensures Replay(ops, p, inputs) == p
  {
    if inputs != [] {
      StandingStill(ops, p, inputs[..|inputs| - 1]);
    }
  }

  /** The player saw the step ... */
  lemma OneStepRightPredicted(ops: VectorOps, n: nat, k: nat)
    requires Responsive(ops) && k < n
    ensures Replay(ops, CENTRE, OneStepRight(n, k)) == ApplyMove(ops, CENTRE, 1, 0, DT_SECONDS)
  {
    var log := OneStepRight(n, k);
    var stepped := ApplyMove(ops, CENTRE, 1, 0, DT_SECONDS);
    StandingStill(ops, CENTRE, log[..k]);
    assert log[..k + 1][..k] == log[..k];
    assert Replay(ops, CENTRE, log[..k + 1]) == stepped;
    FoldConcat(Mover(ops), CENTRE, log[..k + 1], log[k + 1..]);
    assert log == log[..k + 1] + log[k + 1..];
    StandingStill(ops, stepped, log[k + 1..]);
  }

  /** ... and a snapshot of tick k takes it back. */
  lemma OneStepRightForgotten(ops: VectorOps, id: u16, n: nat, k: nat)
    requires Responsive(ops) && k + INPUT_HISTORY_SIZE < n && Nominal(OneStepRight(n, k))
    ensures Reconciled(ops, OneStepRight(n, k), ServerAfter(ops, OneStepRight(n, k), id, k).state) == CENTRE
  {
    var log := OneStepRight(n, k);
    ServerFollowsPrefix(ops, log, id, k);
    StandingStill(ops, CENTRE, log[..k]);
    RingKeepsNewest(log, k);
    StandingStill(ops, CENTRE, log[n - INPUT_HISTORY_SIZE..]);
  }

  lemma OneStepRightIsSeen(ops: VectorOps, id: u16, n: nat, k: nat)
    requires Responsive(ops) && k + INPUT_HISTORY_SIZE < n && n + 1 < TWO32
    ensures Nominal(OneStepRight(n, k)) && !Transparent(ops, OneStepRight(n, k), id, k)
  {
    OneStepRightPredicted(ops, n, k);
    OneStepRightForgotten(ops, id, n, k);
  }

  /** The capacity of the ring is exactly the staleness lockstep tolerates. Rounding may do what it likes, as long
      as standing still changes nothing and a step can be seen. */
  lemma LockstepTransparentIff(ops: VectorOps, id: u16, n: nat, k: nat)
    requires Responsive(ops) && k <= n && n + 1 < TWO32
    ensures (forall log :: Nominal(log) && |log| == n ==> Transparent(ops, log, id, k))
            <==> n - k <= INPUT_HISTORY_SIZE
  {
    if n - k <= INPUT_HISTORY_SIZE {
      forall log | Nominal(log) && |log| == n ensures Transparent(ops, log, id, k) {
        LockstepTransparent(ops, log, id, k);
      }
    } else {
      OneStepRightIsSeen(ops, id, n, k);
      assert |OneStepRight(n, k)| == n;
    }
  }

  /** A client run: inputs, interleaved with snapshots of whatever ticks the network happens to deliver. */
  datatype ClientEvent = Move(mx: i8, my: i8) | SnapshotOf(tick: nat)

  datatype ClientView = ClientView(log: seq<PredictedInput>, pos: Vec2)

  function AfterEvents(ops: VectorOps, id: u16, events: seq<ClientEvent>): ClientView {
    if events == [] then ClientView([], CENTRE)
    else
      var v := AfterEvents(ops, id, events[..|events| - 1]);
      match events[|events| - 1]
      case Move(mx, my) =>
        ClientView(v.log + [PredictedInput(SeqAt(|v.log|), mx, my, DT_SECONDS)],
                   ApplyMove(ops, v.pos, mx, my, DT_SECONDS))
      case SnapshotOf(k) =>
        if k > |v.log| then v
        else v.(pos := Reconciled(ops, v.log, ServerAfter(ops, v.log, id, k).state))
  }

  /** Directions are in range, a snapshot is of a tick that has happened, and at most 120 inputs old. */
  ghost predicate TimelyRun(ops: VectorOps, id: u16, events: seq<ClientEvent>) {
    forall i :: 0 <= i < |events| ==>
      match events[i]
      case Move(mx, my) => -1 <= mx <= 1 && -1 <= my <= 1
      case SnapshotOf(k) =>
        var n := |AfterEvents(ops, id, events[..i]).log|;
        k <= n <= k + INPUT_HISTORY_SIZE
  }

  /** Over a whole run with skipped, repeated and reordered snapshots the rendered position is always the
      plain replay of everything the player did: no snapshot is ever visible. */
  lemma {:induction false} LockstepRun(ops: VectorOps, id: u16, events: seq<ClientEvent>)
    requires TimelyRun(ops, id, events) && |events| + 1 < TWO32
    ensures var v := AfterEvents(ops, id, events);
            Nominal(v.log) && |v.log| <= |events| && v.pos == Replay(ops, CENTRE, v.log)
  {
    if events != [] {
      var init := events[..|events| - 1];
      forall i | 0 <= i < |init| ensures init[i] == events[i] && init[..i] == events[..i] {}
      LockstepRun(ops, id, init);
      var v := AfterEvents(ops, id, init);
      match events[|events| - 1]
      case Move(mx, my) =>
        var pi := PredictedInput(SeqAt(|v.log|), mx, my, DT_SECONDS);
        assert (v.log + [pi])[..|v.log|] == v.log;
      case SnapshotOf(k) =>
        LockstepTransparent(ops, v.log, id, k);
    }
  }
}

/** Server and client apart: how far they drift when inputs are lost, late, repeated or out of order. */
module Drift {
  import opened Constants
  import opened Types
  import opened Motion
  import opened World
  import opened InputRegister

  /** One tick: the direction the client predicts with, and the numbers of the inputs that reach the
      server before its tick. Input t+1 is sent in round t. */
  datatype Round = Round(mx: i8, my: i8, delivered: seq<nat>)

  ghost predicate Causal(rounds: seq<Round>) {
    && |rounds| < TWO32
    && (forall t :: 0 <= t < |rounds| ==> -1 <= rounds[t].mx <= 1 && -1 <= rounds[t].my <= 1)
    && (forall t, i :: 0 <= t < |rounds| && 0 <= i < |rounds[t].delivered| ==> 1 <= rounds[t].delivered[i] <= t + 1)
  }

  /** The direction sent under number `n`; nothing has been sent under 0. */
  function Sent(rounds: seq<Round>, n: nat): (i8, i8)
    requires n <= |rounds|
  {
    if n == 0 then (0, 0) else (rounds[n - 1].mx, rounds[n - 1].my)
  }

  function Arrivals(rounds: seq<Round>, t: nat): seq<InputCmd>
    requires Causal(rounds) && t < |rounds|
  {
    var d := rounds[t].delivered;
    seq(|d|, i requires 0 <= i < |d| => InputCmd(d[i], Sent(rounds, d[i]).0, Sent(rounds, d[i]).1))
  }

  function ServerAt(ops: VectorOps, rounds: seq<Round>, id: u16, k: nat): ServerPlayer
    requires Causal(rounds) && k <= |rounds|
  {
    if k == 0 then Fresh(id)
    else StepPlayer(ops, OfferAll(ServerAt(ops, rounds, id, k - 1), Arrivals(rounds, k - 1)))
  }

  function ClientAt(ops: VectorOps, rounds: seq<Round>, k: nat): Vec2
    requires k <= |rounds|
  {
    if k == 0 then CENTRE
    else ApplyMove(ops, ClientAt(ops, rounds, k - 1), rounds[k - 1].mx, rounds[k - 1].my, DT_SECONDS)
  }

  /** The newest input delivered in the first k rounds, 0 if there is none. */
  function Newest(rounds: seq<Round>, k: nat): u32
    requires Causal(rounds) && k <= |rounds|
  {
    if k == 0 then 0 else MaxSeq(Newest(rounds, k - 1), Arrivals(rounds, k - 1))
  }

  lemma {:induction false} NewestWasSent(rounds: seq<Round>, k: nat)
    requires Causal(rounds) && k <= |rounds|
    ensures Newest(rounds, k) <= k
  {
    if k > 0 {
      NewestWasSent(rounds, k - 1);
      MaxSeqIsMaximum(Newest(rounds, k - 1), Arrivals(rounds, k - 1));
    }
  }

  /** The ticks on which the newest delivered input asks for another direction than the client's. */
  function Mismatches(rounds: seq<Round>, k: nat): nat
    requires Causal(rounds) && k <= |rounds|
  {
    if k == 0 then 0
    else
      NewestWasSent(rounds, k);
      Mismatches(rounds, k - 1)
      + if Sent(rounds, Newest(rounds, k)) == Sent(rounds, k) then 0 else 1
  }

  ghost predicate HoldsSent(rounds: seq<Round>, p: ServerPlayer) {
    && Synced(p)
    && p.latestSeenSeq <= |rounds|
    && (p.pendingMx, p.pendingMy) == Sent(rounds, p.latestSeenSeq)
  }

  lemma {:induction false} OffersHoldSent(rounds: seq<Round>, p: ServerPlayer, cmds: seq<InputCmd>)
    requires Causal(rounds) && HoldsSent(rounds, p)
    requires forall c :: c in cmds ==> 1 <= c.seqNo <= |rounds| && (c.mx, c.my) == Sent(rounds, c.seqNo)
    ensures HoldsSent(rounds, OfferAll(p, cmds))
    ensures OfferAll(p, cmds).state.pos == p.state.pos
  {
    if cmds != [] {
      var init := cmds[..|cmds| - 1];
      forall c | c in init ensures c in cmds {}
      OffersHoldSent(rounds, p, init);
      assert cmds[|cmds| - 1] in cmds;
    }
  }

  /** Whatever the network did, the server acts on the newest input it has been given. */
  lemma {:induction false} ServerActsOnNewest(ops: VectorOps, rounds: seq<Round>, id: u16, k: nat)
    requires Causal(rounds) && k <= |rounds|
    ensures HoldsSent(rounds, ServerAt(ops, rounds, id, k))
    ensures ServerAt(ops, rounds, id, k).latestSeenSeq == Newest(rounds, k)
  {
    if k > 0 {
      ServerActsOnNewest(ops, rounds, id, k - 1);
      var p := ServerAt(ops, rounds, id, k - 1);
      OffersHoldSent(rounds, p, Arrivals(rounds, k - 1));
      RegisterHoldsMaximum(p, Arrivals(rounds, k - 1));
    }
  }

  /** One tick, seen from positions `p.state.pos` and `q`. */
  function TickGap(ops: VectorOps, p: ServerPlayer, q: Vec2, r: Round, a: Axis): real {
    Gap(StepPlayer(ops, p).state.pos, ApplyMove(ops, q, r.mx, r.my, DT_SECONDS), a)
  }

  /** What a tick adds to a gap: nothing if the directions agree, at most 8 units otherwise. */
  ghost predicate DriftsSlowly(ops: VectorOps, a: Axis) {
    forall p, q, r ::
      TickGap(ops, p, q, r, a)
      <= Gap(p.state.pos, q, a) + if (p.pendingMx, p.pendingMy) == (r.mx, r.my) then 0.0 else 8.0
  }

  lemma ExactDriftsSlowly(root: nat -> real, a: Axis)
    requires IsRoot(root)
    ensures DriftsSlowly(ExactOps(root), a)
  {
    forall p, q, r
      ensures TickGap(ExactOps(root), p, q, r, a)
              <= Gap(p.state.pos, q, a) + if (p.pendingMx, p.pendingMy) == (r.mx, r.my) then 0.0 else 8.0
    {
      ServerMovesAsClient(ExactOps(root), p);
      if (p.pendingMx, p.pendingMy) == (r.mx, r.my) {
        MoveNonExpansive(root, p.state.pos, q, r.mx, r.my, DT_SECONDS, a);
      } else {
        MoveDiverges(root, p.state.pos, q, p.pendingMx, p.pendingMy, r.mx, r.my, DT_SECONDS, a);
        assert 2.0 * (PLAYER_SPEED * DT_SECONDS) == 8.0;
      }
    }
  }

  /** Before tick k the server takes up the direction of the newest input, and has not moved yet. */
  lemma ReadyToTick(ops: VectorOps, rounds: seq<Round>, id: u16, k: nat)
    requires Causal(rounds) && 0 < k <= |rounds|
    ensures Newest(rounds, k) <= k
    ensures var before := ServerAt(ops, rounds, id, k - 1);
            var p := OfferAll(before, Arrivals(rounds, k - 1));
            (p.pendingMx, p.pendingMy) == Sent(rounds, Newest(rounds, k)) && p.state.pos == before.state.pos
  {
    var before := ServerAt(ops, rounds, id, k - 1);
    NewestWasSent(rounds, k);
    ServerActsOnNewest(ops, rounds, id, k - 1);
    OffersHoldSent(rounds, before, Arrivals(rounds, k - 1));
    RegisterHoldsMaximum(before, Arrivals(rounds, k - 1));
  }

  lemma MismatchCounted(rounds: seq<Round>, k: nat, was: real, now: real)
    requires Causal(rounds) && 0 < k <= |rounds| && Newest(rounds, k) <= k
    requires was <= 8.0 * Mismatches(rounds, k - 1) as real
    requires now <= was + if Sent(rounds, Newest(rounds, k)) == Sent(rounds, k) then 0.0 else 8.0
    ensures now <= 8.0 * Mismatches(rounds, k) as real
  {
  }

  lemma {:induction false} SlowDriftBounded(ops: VectorOps, rounds: seq<Round>, id: u16, k: nat, a: Axis)
    requires DriftsSlowly(ops, a) && Causal(rounds) && k <= |rounds|
    ensures Gap(ServerAt(ops, rounds, id, k).state.pos, ClientAt(ops, rounds, k), a)
            <= 8.0 * Mismatches(rounds, k) as real
  {
    if k > 0 {
      SlowDriftBounded(ops, rounds, id, k - 1, a);
      ReadyToTick(ops, rounds, id, k);
      var before := ServerAt(ops, rounds, id, k - 1);
      var p := OfferAll(before, Arrivals(rounds, k - 1));
      var q := ClientAt(ops, rounds, k - 1);
      var now := TickGap(ops, p, q, rounds[k - 1], a);
      MismatchCounted(rounds, k, Gap(before.state.pos, q, a), now);
      assert now == Gap(ServerAt(ops, rounds, id, k).state.pos, ClientAt(ops, rounds, k), a);
    }
  }

  /** 8 units per axis for every tick spent on the wrong direction, whatever was lost or reordered. */
  lemma DriftBounded(root: nat -> real, rounds: seq<Round>, id: u16, k: nat, a: Axis)
    requires IsRoot(root) && Causal(rounds) && k <= |rounds|
    ensures Gap(ServerAt(ExactOps(root), rounds, id, k).state.pos, ClientAt(ExactOps(root), rounds, k), a)
            <= 8.0 * Mismatches(rounds, k) as real
  {
    ExactDriftsSlowly(root, a);
    SlowDriftBounded(ExactOps(root), rounds, id, k, a);
  }
}

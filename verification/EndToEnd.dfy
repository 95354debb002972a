/** The prediction theorems on the real server: shared, multi-player, with sessions and a reaper. */
module EndToEnd {
  import opened Constants
  import opened Types
  import opened Motion
  import opened Prediction
  import opened World
  import opened ServerSpec
  import opened Isolation
  import opened Lockstep
  import opened Drift

  /** Offer a batch of commands, tick, offer the next batch, tick, ... */
  function Rounds(ops: VectorOps, p: ServerPlayer, batches: seq<seq<InputCmd>>): ServerPlayer {
    if batches == [] then p
    else StepPlayer(ops, OfferAll(Rounds(ops, p, batches[..|batches| - 1]), batches[|batches| - 1]))
  }

  /** One session's commands grouped by the tick that followed them, and those no tick has followed yet. */
  datatype Timeline = Timeline(done: seq<seq<InputCmd>>, open: seq<InputCmd>)

  function TimelineOf(ep: Endpoint, id: u16, evs: seq<Event>): Timeline {
    if evs == [] then Timeline([], [])
    else
      var before := TimelineOf(ep, id, evs[..|evs| - 1]);
      match evs[|evs| - 1]
      case TickAt(_) => Timeline(before.done + [before.open], [])
      case Arrival(from, d, _) =>
        if from == ep && Claims(d, id) then before.(open := before.open + [Command(d)]) else before
  }

  lemma {:induction false} SoloIsItsTimeline(ops: VectorOps, ep: Endpoint, v: Solo, evs: seq<Event>)
    requires v.Live? && SoloRun(ops, ep, v, evs).Live?
    ensures var t := TimelineOf(ep, v.id, evs);
            SoloRun(ops, ep, v, evs).player == OfferAll(Rounds(ops, v.player, t.done), t.open)
  {
    if evs != [] {
      var init := evs[..|evs| - 1];
      SoloIsItsTimeline(ops, ep, v, init);
      SoloLivesIffAttentive(ops, ep, v, init);
      var t := TimelineOf(ep, v.id, init);
      match evs[|evs| - 1]
      case TickAt(_) =>
        assert (t.done + [t.open])[..|t.done|] == t.done;
      case Arrival(from, d, _) =>
        NotBoth(d);
        if from == ep && Claims(d, v.id) {
          assert (t.open + [Command(d)])[..|t.open|] == t.open;
        }
    }
  }

  /** While a session lives, its player is a function of its own commands and the ticks between them, no
      matter what the other players do. */
  lemma PlayerIsItsTimeline(ops: VectorOps, s: ServerState, ep: Endpoint, evs: seq<Event>)
    requires Agree(s) && ViewOf(s, ep).Live?
    requires Attentive(ep, ViewOf(s, ep).id, ViewOf(s, ep).lastHeard, evs)
    ensures var v, r := ViewOf(s, ep), ViewOf(Run(ops, s, evs), ep);
            var t := TimelineOf(ep, v.id, evs);
            r.Live? && r.id == v.id && r.player == OfferAll(Rounds(ops, v.player, t.done), t.open)
  {
    var v := ViewOf(s, ep);
    SoloLivesIffAttentive(ops, ep, v, evs);
    if evs != [] {
      AttentiveSplit(ep, v.id, v.lastHeard, evs);
      SoloLivesIffAttentive(ops, ep, v, evs[..|evs| - 1]);
    }
    RunIsolated(ops, s, ep, evs);
    SoloIsItsTimeline(ops, ep, v, evs);
  }

  // ----- in step

  /** Input 1, tick, input 2, tick, ..., input k, tick. */
  function InStep(log: seq<PredictedInput>, k: nat): seq<seq<InputCmd>>
    requires k <= |log|
  {
    seq(k, i requires 0 <= i < k => [InputCmd(log[i].seqNo, log[i].mx, log[i].my)])
  }

  lemma {:induction false} InStepRounds(ops: VectorOps, log: seq<PredictedInput>, id: u16, k: nat)
    requires k <= |log|
    ensures Rounds(ops, Fresh(id), InStep(log, k)) == ServerAfter(ops, log, id, k)
  {
    if k > 0 {
      InStepRounds(ops, log, id, k - 1);
      assert InStep(log, k)[..k - 1] == InStep(log, k - 1);
      var p := ServerAfter(ops, log, id, k - 1);
      var c := InputCmd(log[k - 1].seqNo, log[k - 1].mx, log[k - 1].my);
      assert [c][..0] == [];
      assert OfferAll(p, [c]) == Offer(OfferAll(p, []), c);
    }
  }

  /** A freshly joined client whose k-th input arrives before the k-th tick sees no correction at all when it
      reconciles against its state on the shared server, as long as it is at most 120 inputs ahead. */
  lemma LockstepOnSharedServer(ops: VectorOps, s: ServerState, ep: Endpoint, id: u16, joined: int,
                               evs: seq<Event>, log: seq<PredictedInput>, k: nat)
    requires Agree(s) && ViewOf(s, ep) == Live(id, joined, Fresh(id))
    requires Attentive(ep, id, joined, evs)
    requires Nominal(log) && k <= |log| <= k + INPUT_HISTORY_SIZE
    requires TimelineOf(ep, id, evs) == Timeline(InStep(log, k), [])
    ensures var r := ViewOf(Run(ops, s, evs), ep);
            r.Live? && Reconciled(ops, log, r.player.state) == Replay(ops, CENTRE, log)
  {
    PlayerIsItsTimeline(ops, s, ep, evs);
    InStepRounds(ops, log, id, k);
    LockstepTransparent(ops, log, id, k);
  }

  // ----- out of step

  function Batches(rounds: seq<Round>, k: nat): seq<seq<InputCmd>>
    requires Causal(rounds) && k <= |rounds|
  {
    seq(k, t requires 0 <= t < k => Arrivals(rounds, t))
  }

  lemma {:induction false} BatchesRounds(ops: VectorOps, rounds: seq<Round>, id: u16, k: nat)
    requires Causal(rounds) && k <= |rounds|
    ensures Rounds(ops, Fresh(id), Batches(rounds, k)) == ServerAt(ops, rounds, id, k)
  {
    if k > 0 {
      BatchesRounds(ops, rounds, id, k - 1);
      assert Batches(rounds, k)[..k - 1] == Batches(rounds, k - 1);
    }
  }

  /** Whatever the network loses, repeats or reorders, and whatever the other players do, the shared server's
      position for a client drifts from the client's own by at most 8 units per axis and mismatched tick. */
  lemma DriftOnSharedServer(root: nat -> real, s: ServerState, ep: Endpoint, id: u16, joined: int,
                            evs: seq<Event>, rounds: seq<Round>, a: Axis)
    requires IsRoot(root) && Causal(rounds)
    requires Agree(s) && ViewOf(s, ep) == Live(id, joined, Fresh(id))
    requires Attentive(ep, id, joined, evs)
    requires TimelineOf(ep, id, evs) == Timeline(Batches(rounds, |rounds|), [])
    ensures var r := ViewOf(Run(ExactOps(root), s, evs), ep);
            && r.Live?
            && Gap(r.player.state.pos, ClientAt(ExactOps(root), rounds, |rounds|), a)
               <= 8.0 * Mismatches(rounds, |rounds|) as real
  {
    PlayerIsItsTimeline(ExactOps(root), s, ep, evs);
    BatchesRounds(ExactOps(root), rounds, id, |rounds|);
    DriftBounded(root, rounds, id, |rounds|, a);
  }
}

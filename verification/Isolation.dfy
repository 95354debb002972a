/** What one endpoint sees of the server: sessions do not interfere. */
module Isolation {
  import opened Constants
  import opened Types
  import opened Wire
  import opened World
  import opened Sessions
  import opened ServerSpec

  /** A server for a single endpoint, knowing nothing of anybody else. */
  datatype Solo = Gone | Live(id: u16, lastHeard: int, player: ServerPlayer)

  function ViewOf(s: ServerState, ep: Endpoint): Solo {
    if ep in s.table.sessions && s.table.sessions[ep].playerId in s.players
    then
      var session := s.table.sessions[ep];
      Live(session.playerId, session.lastInputTime, s.players[session.playerId])
    else Gone
  }

  /** An INPUT_COMMAND that claims `id`. */
  predicate Claims(d: Bytes, id: u16) {
    DecodeInput(d).Some? && DecodeInput(d).value.playerId == id
  }

  predicate Leaves(d: Bytes, id: u16) {
    DecodeDisconnect(d).Some? && DecodeDisconnect(d).value.playerId == id
  }

  function Command(d: Bytes): InputCmd
    requires DecodeInput(d).Some?
  {
    var ip := DecodeInput(d).value;
    InputCmd(ip.seqNo, ip.mx, ip.my)
  }

  function SoloStep(ops: VectorOps, ep: Endpoint, v: Solo, ev: Event): Solo {
    match v
    case Gone => Gone
    case Live(id, lastHeard, p) =>
      match ev
      case TickAt(now) =>
        if now - lastHeard > CLIENT_TIMEOUT_NS then Gone else Live(id, lastHeard, StepPlayer(ops, p))
      case Arrival(from, d, now) =>
        if from != ep then v
        else if DecodeJoinRequest(d).Some? then Live(id, now, p)
        else if Claims(d, id) then Live(id, now, Offer(p, Command(d)))
        else if Leaves(d, id) then Gone
        else v
  }

  function SoloRun(ops: VectorOps, ep: Endpoint, v: Solo, evs: seq<Event>): Solo {
    if evs == [] then v else SoloStep(ops, ep, SoloRun(ops, ep, v, evs[..|evs| - 1]), evs[|evs| - 1])
  }

  lemma JoinIsolated(ops: VectorOps, s: ServerState, ep: Endpoint, from: Endpoint, d: Bytes, now: int)
    requires Agree(s) && ViewOf(s, ep).Live? && DecodeJoinRequest(d).Some?
    ensures ViewOf(OnJoin(s, from, now), ep) == SoloStep(ops, ep, ViewOf(s, ep), Arrival(from, d, now))
  {
  }

  lemma InputIsolated(ops: VectorOps, s: ServerState, ep: Endpoint, from: Endpoint, d: Bytes, now: int)
    requires Agree(s) && ViewOf(s, ep).Live? && DecodeInput(d).Some?
    ensures ViewOf(OnInput(s, from, DecodeInput(d).value, now), ep)
            == SoloStep(ops, ep, ViewOf(s, ep), Arrival(from, d, now))
  {
  }

  lemma DisconnectIsolated(ops: VectorOps, s: ServerState, ep: Endpoint, from: Endpoint, d: Bytes, now: int)
    requires Agree(s) && ViewOf(s, ep).Live? && DecodeDisconnect(d).Some?
    ensures ViewOf(OnDisconnect(s, from, DecodeDisconnect(d).value), ep)
            == SoloStep(ops, ep, ViewOf(s, ep), Arrival(from, d, now))
  {
  }

  lemma TickIsolated(ops: VectorOps, s: ServerState, ep: Endpoint, now: int)
    requires Agree(s) && ViewOf(s, ep).Live?
    ensures ViewOf(OnTick(ops, s, now), ep) == SoloStep(ops, ep, ViewOf(s, ep), TickAt(now))
  {
  }

  /** One step of the shared server is, for a live session, one step of its solo server. */
  lemma StepIsolated(ops: VectorOps, s: ServerState, ep: Endpoint, ev: Event)
    requires Agree(s) && ViewOf(s, ep).Live?
    ensures ViewOf(Step(ops, s, ev), ep) == SoloStep(ops, ep, ViewOf(s, ep), ev)
  {
    match ev
    case TickAt(now) => TickIsolated(ops, s, ep, now);
    case Arrival(from, d, now) =>
      if DecodeJoinRequest(d).Some? {
        JoinIsolated(ops, s, ep, from, d, now);
      } else if DecodeInput(d).Some? {
        InputIsolated(ops, s, ep, from, d, now);
      } else if DecodeDisconnect(d).Some? {
        DisconnectIsolated(ops, s, ep, from, d, now);
      }
  }

  /** Over any run the whole state a live session has on the server - id, last-heard time, position,
      velocity, ack, register - is what a server of its own would hold, up to and including the event
      that ends the session. */
  lemma {:induction false} RunIsolated(ops: VectorOps, s: ServerState, ep: Endpoint, evs: seq<Event>)
    requires Agree(s) && ViewOf(s, ep).Live?
    requires evs != [] ==> SoloRun(ops, ep, ViewOf(s, ep), evs[..|evs| - 1]).Live?
    ensures ViewOf(Run(ops, s, evs), ep) == SoloRun(ops, ep, ViewOf(s, ep), evs)
  {
    if evs != [] {
      var init := evs[..|evs| - 1];
      RunIsolated(ops, s, ep, init);
      RunAgrees(ops, s, init);
      StepIsolated(ops, Run(ops, s, init), ep, evs[|evs| - 1]);
    }
  }

  /** A newcomer starts afresh under the least free id. */
  lemma JoinStartsFresh(ops: VectorOps, s: ServerState, ep: Endpoint, d: Bytes, now: int)
    requires Agree(s) && ep !in s.table.sessions && DecodeJoinRequest(d).Some?
    ensures ViewOf(Step(ops, s, Arrival(ep, d, now)), ep)
            == if |s.table.sessions| == MAX_PLAYERS then Gone
               else Live(LeastFree(s.table.ids, 1), now, Fresh(LeastFree(s.table.ids, 1)))
    ensures var v := ViewOf(Step(ops, s, Arrival(ep, d, now)), ep); v.Live? ==> AtRest(v.player)
  {
    AdmissionExact(s.table, ep);
  }

  /** In the middle of the arena, standing still, nothing heard and nothing acknowledged. */
  ghost predicate AtRest(p: ServerPlayer) {
    && p.state.pos == Vec2(640.0, 360.0) && p.state.vel == Vec2(0.0, 0.0)
    && p.pendingMx == p.pendingMy == 0 && !p.hasPending
    && p.latestSeenSeq == p.state.lastProcessedInputSeq == 0
  }

  // ----- liveness of a session

  /** When the server last heard a join or an accepted input from the session. */
  function LastHeard(ep: Endpoint, id: u16, start: int, evs: seq<Event>): int {
    if evs == [] then start
    else
      var before := LastHeard(ep, id, start, evs[..|evs| - 1]);
      match evs[|evs| - 1]
      case TickAt(_) => before
      case Arrival(from, d, now) =>
        if from == ep && (DecodeJoinRequest(d).Some? || Claims(d, id)) then now else before
  }

  /** Nothing among the events ends the session: no tick comes more than three seconds after it was last
      heard of, and its owner does not disconnect. */
  ghost predicate Attentive(ep: Endpoint, id: u16, start: int, evs: seq<Event>) {
    forall i :: 0 <= i < |evs| ==> Survives(ep, id, LastHeard(ep, id, start, evs[..i]), evs[i])
  }

  predicate Survives(ep: Endpoint, id: u16, lastHeard: int, ev: Event) {
    match ev
    case TickAt(now) => now - lastHeard <= 3_000_000_000
    case Arrival(from, d, _) => !(from == ep && Leaves(d, id))
  }

  lemma {:induction false} SoloLivesIffAttentive(ops: VectorOps, ep: Endpoint, v: Solo, evs: seq<Event>)
    requires v.Live?
    ensures SoloRun(ops, ep, v, evs).Live? <==> Attentive(ep, v.id, v.lastHeard, evs)
    ensures var r := SoloRun(ops, ep, v, evs);
            r.Live? ==> r.id == v.id && r.lastHeard == LastHeard(ep, v.id, v.lastHeard, evs)
  {
    if evs != [] {
      var n := |evs| - 1;
      var init := evs[..n];
      SoloLivesIffAttentive(ops, ep, v, init);
      AttentiveSplit(ep, v.id, v.lastHeard, evs);
      if evs[n].Arrival? { NotBoth(evs[n].bytes); }
    }
  }

  lemma AttentiveSplit(ep: Endpoint, id: u16, start: int, evs: seq<Event>)
    requires evs != []
    ensures var n := |evs| - 1;
            Attentive(ep, id, start, evs)
            <==> Attentive(ep, id, start, evs[..n]) && Survives(ep, id, LastHeard(ep, id, start, evs[..n]), evs[n])
  {
    var n := |evs| - 1;
    var init := evs[..n];
    forall i | 0 <= i < n ensures init[i] == evs[i] && init[..i] == evs[..i] {}
    if Attentive(ep, id, start, init) && Survives(ep, id, LastHeard(ep, id, start, init), evs[n]) {
      forall i | 0 <= i < |evs| ensures Survives(ep, id, LastHeard(ep, id, start, evs[..i]), evs[i]) {
        if i < n { assert Survives(ep, id, LastHeard(ep, id, start, init[..i]), init[i]); }
      }
    }
    if Attentive(ep, id, start, evs) {
      forall i | 0 <= i < n ensures Survives(ep, id, LastHeard(ep, id, start, init[..i]), init[i]) {
        assert Survives(ep, id, LastHeard(ep, id, start, evs[..i]), evs[i]);
      }
    }
  }

  /** The reaper is exact: a session keeps its id over a run if its owner is heard from often enough, and
      the first event that breaks this removes it. */
  lemma SessionLivesExactly(ops: VectorOps, s: ServerState, ep: Endpoint, evs: seq<Event>)
    requires Agree(s) && ViewOf(s, ep).Live?
    requires evs != [] ==> Attentive(ep, ViewOf(s, ep).id, ViewOf(s, ep).lastHeard, evs[..|evs| - 1])
    ensures var before, after := ViewOf(s, ep), ViewOf(Run(ops, s, evs), ep);
            if Attentive(ep, before.id, before.lastHeard, evs)
            then after.Live? && after.id == before.id
            else ep !in Run(ops, s, evs).table.sessions
  {
    var v := ViewOf(s, ep);
    SoloLivesIffAttentive(ops, ep, v, evs);
    if evs != [] { SoloLivesIffAttentive(ops, ep, v, evs[..|evs| - 1]); }
    RunIsolated(ops, s, ep, evs);
    RunAgrees(ops, s, evs);
  }

  // ----- authority

  /** The commands the owner of the session sent for its own id, in arrival order. */
  function OwnCommands(ep: Endpoint, id: u16, evs: seq<Event>): seq<InputCmd> {
    if evs == [] then []
    else
      var before := OwnCommands(ep, id, evs[..|evs| - 1]);
      match evs[|evs| - 1]
      case TickAt(_) => before
      case Arrival(from, d, _) =>
        if from == ep && Claims(d, id) then before + [Command(d)] else before
  }

  ghost predicate SameRegister(p: ServerPlayer, q: ServerPlayer) {
    && p.pendingMx == q.pendingMx && p.pendingMy == q.pendingMy && p.hasPending == q.hasPending
    && p.latestSeenSeq == q.latestSeenSeq
    && p.state.lastProcessedInputSeq == q.state.lastProcessedInputSeq
  }

  lemma {:induction false} SoloRegister(ops: VectorOps, ep: Endpoint, v: Solo, evs: seq<Event>)
    requires v.Live? && SoloRun(ops, ep, v, evs).Live?
    ensures SameRegister(SoloRun(ops, ep, v, evs).player, OfferAll(v.player, OwnCommands(ep, v.id, evs)))
  {
    if evs != [] {
      var init := evs[..|evs| - 1];
      SoloRegister(ops, ep, v, init);
      SoloLivesIffAttentive(ops, ep, v, init);
      var own := OwnCommands(ep, v.id, init);
      match evs[|evs| - 1]
      case TickAt(_) =>
      case Arrival(from, d, _) =>
        if from == ep && Claims(d, v.id) {
          NotBoth(d);
          assert (own + [Command(d)])[..|own|] == own;
        }
    }
  }

  lemma NotBoth(d: Bytes)
    ensures !(DecodeJoinRequest(d).Some? && DecodeInput(d).Some?)
    ensures !(DecodeJoinRequest(d).Some? && DecodeDisconnect(d).Some?)
    ensures !(DecodeDisconnect(d).Some? && DecodeInput(d).Some?)
  {
  }

  /** The direction a player moves in and the number the server acknowledges come from nothing but the
      inputs its owner sent in this session: they are the register those inputs alone would leave. */
  lemma OwnInputsOnly(ops: VectorOps, s: ServerState, ep: Endpoint, evs: seq<Event>)
    requires Agree(s) && ViewOf(s, ep).Live?
    requires Attentive(ep, ViewOf(s, ep).id, ViewOf(s, ep).lastHeard, evs)
    ensures var v := ViewOf(s, ep);
            var r := ViewOf(Run(ops, s, evs), ep);
            && r.Live? && r.id == v.id
            && SameRegister(r.player, OfferAll(v.player, OwnCommands(ep, v.id, evs)))
  {
    var v := ViewOf(s, ep);
    SoloLivesIffAttentive(ops, ep, v, evs);
    if evs != [] {
      AttentiveSplit(ep, v.id, v.lastHeard, evs);
      SoloLivesIffAttentive(ops, ep, v, evs[..|evs| - 1]);
    }
    RunIsolated(ops, s, ep, evs);
    SoloRegister(ops, ep, v, evs);
  }

  /** Handling a datagram from one endpoint leaves every other endpoint's session and player untouched. */
  lemma OthersUntouched(s: ServerState, from: Endpoint, d: Bytes, now: int, other: Endpoint)
    requires Agree(s) && other != from
    ensures var s' := OnDatagram(s, from, d, now);
            && (other in s'.table.sessions <==> other in s.table.sessions)
            && (other in s.table.sessions ==>
                  && s'.table.sessions[other] == s.table.sessions[other]
                  && ViewOf(s', other) == ViewOf(s, other))
  {
  }

  // ----- the input counter

  /** The event is an input a live session sends for its own id. */
  predicate IsVerified(s: ServerState, ev: Event) {
    ev.Arrival? && ViewOf(s, ev.from).Live? && Claims(ev.bytes, ViewOf(s, ev.from).id)
  }

  function VerifiedInputs(ops: VectorOps, s: ServerState, evs: seq<Event>): nat {
    if evs == [] then 0
    else
      var init := evs[..|evs| - 1];
      VerifiedInputs(ops, s, init) + if IsVerified(Run(ops, s, init), evs[|evs| - 1]) then 1 else 0
  }

  lemma StepCountsInputs(ops: VectorOps, s: ServerState, ev: Event)
    requires Agree(s)
    ensures Step(ops, s, ev).inputs == s.inputs + if IsVerified(s, ev) then 1 else 0
  {
    if ev.Arrival? { NotBoth(ev.bytes); }
  }

  /** The counter counts exactly the inputs that owners of live sessions send for their own ids, accepted or
      not, over any run. */
  lemma {:induction false} InputsCounted(ops: VectorOps, s: ServerState, evs: seq<Event>)
    requires Agree(s)
    ensures Run(ops, s, evs).inputs == s.inputs + VerifiedInputs(ops, s, evs)
  {
    if evs != [] {
      var init := evs[..|evs| - 1];
      InputsCounted(ops, s, init);
      RunAgrees(ops, s, init);
      StepCountsInputs(ops, Run(ops, s, init), evs[|evs| - 1]);
    }
  }
}

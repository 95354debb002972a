/** One direction of traffic between two parties, each behind a conditioned socket, with a real network between the
sockets: what the two sockets and the wire together do to datagrams. */
module Channels {
  import opened Types
  import opened Wire
  import opened Ledgers

  /** `wire` holds what the sender's socket has put on the real network and the receiver's has not read yet. */
  datatype Channel = Channel(
    source: Endpoint, target: Endpoint, sender: Ledger, wire: multiset<Bytes>, receiver: Ledger)

  datatype Step =
    | Sends(o: Offer)               // the sending program calls `send_to`
    | Emits(p: Pending, now: nat)   // the sending socket's flush lets one go
    | Drops(b: Bytes)               // the wire loses one
    | Doubles(b: Bytes)             // the wire repeats one
    | Arrives(o: Offer)             // the receiving socket reads one off the wire
    | Hands(p: Pending, now: nat)   // the receiving program gets one
    | SenderElse(m: Move)           // other traffic through the sender's socket, or time
    | ReceiverElse(m: Move)         // other traffic through the receiver's socket, or time

  /** The move is about this direction between these two parties. */
  predicate Concerns(m: Move, outbound: bool, peer: Endpoint) {
    match m
    case Comes(o) => o.outbound == outbound && o.peer == peer
    case Leaves(p, _) => p.outbound == outbound && p.peer == peer
    case Waits(_) => false
  }

  ghost predicate Possible(c: Channel, st: Step) {
    match st
    case Sends(o) => Legal(c.sender, Comes(o)) && Concerns(Comes(o), true, c.target)
    case Emits(p, now) => Legal(c.sender, Leaves(p, now)) && Concerns(Leaves(p, now), true, c.target)
    case Drops(b) => b in c.wire
    case Doubles(b) => b in c.wire
    case Arrives(o) => o.bytes in c.wire && Legal(c.receiver, Comes(o)) && Concerns(Comes(o), false, c.source)
    case Hands(p, now) => Legal(c.receiver, Leaves(p, now)) && Concerns(Leaves(p, now), false, c.source)
    case SenderElse(m) => Legal(c.sender, m) && !Concerns(m, true, c.target)
    case ReceiverElse(m) => Legal(c.receiver, m) && !Concerns(m, false, c.source)
  }

  predicate AtOnce(o: Offer) {
    !o.lost && o.outbound && o.delayMs == 0
  }

  function Moved(c: Channel, st: Step): Channel {
    match st
    case Sends(o) =>
      c.(sender := Admit(c.sender, o), wire := if AtOnce(o) then c.wire + multiset{o.bytes} else c.wire)
    case Emits(p, now) => c.(sender := ReleaseOne(c.sender, p, now), wire := c.wire + multiset{p.bytes})
    case Drops(b) => c.(wire := c.wire - multiset{b})
    case Doubles(b) => c.(wire := c.wire + multiset{b})
    case Arrives(o) => c.(wire := c.wire - multiset{o.bytes}, receiver := Admit(c.receiver, o))
    case Hands(p, now) => c.(receiver := ReleaseOne(c.receiver, p, now))
    case SenderElse(m) => c.(sender := Apply(c.sender, m))
    case ReceiverElse(m) => c.(receiver := Apply(c.receiver, m))
  }

  function Waiting(queue: set<Pending>, outbound: bool, peer: Endpoint, b: Bytes): set<Pending> {
    set p | p in queue && p.outbound == outbound && p.peer == peer && p.bytes == b
  }

  /** How many copies of `b` have been sent and neither been lost nor handed over. */
  function InTransit(c: Channel, b: Bytes): nat {
    |Waiting(c.sender.queue, true, c.target, b)| + c.wire[b] + |Waiting(c.receiver.queue, false, c.source, b)|
  }

  // ----- what one step does to the traffic

  datatype Tally = Tally(sent: int, doubled: int, lost: int, handed: int)

  function One(b: Bytes, x: Bytes): int {
    if b == x then 1 else 0
  }

  /** What a step counts for `b`. */
  function Counts(st: Step, b: Bytes): Tally {
    match st
    case Sends(o) => Tally(One(b, o.bytes), 0, if o.lost then One(b, o.bytes) else 0, 0)
    case Emits(_, _) => Tally(0, 0, 0, 0)
    case Drops(x) => Tally(0, 0, One(b, x), 0)
    case Doubles(x) => Tally(0, One(b, x), 0, 0)
    case Arrives(o) => Tally(0, 0, if o.lost then One(b, o.bytes) else 0, 0)
    case Hands(p, _) => Tally(0, 0, 0, One(b, p.bytes))
    case SenderElse(_) => Tally(0, 0, 0, 0)
    case ReceiverElse(_) => Tally(0, 0, 0, 0)
  }

  ghost predicate Orderly(c: Channel) {
    Sound(c.sender) && Sound(c.receiver)
  }

  function NewOne(l: Ledger, o: Offer): Pending {
    Pending(l.offered, o.at + o.delayMs * 1000, o.peer, o.bytes, o.outbound)
  }

  lemma NewOneIsNew(l: Ledger, o: Offer)
    requires Conserved(l)
    ensures NewOne(l, o) !in l.queue
  {
    assert NewOne(l, o) in l.queue ==> l.offered in l.fate;
  }

  lemma AdmitCounts(l: Ledger, o: Offer, outbound: bool, peer: Endpoint, b: Bytes)
    requires NewOne(l, o) !in l.queue
    ensures var was, now := Waiting(l.queue, outbound, peer, b), Waiting(Admit(l, o).queue, outbound, peer, b);
            |now| == |was| + if Concerns(Comes(o), outbound, peer) && !o.lost && !AtOnce(o) then One(b, o.bytes) else 0
  {
    var was, now := Waiting(l.queue, outbound, peer, b), Waiting(Admit(l, o).queue, outbound, peer, b);
    if Concerns(Comes(o), outbound, peer) && !o.lost && !AtOnce(o) && o.bytes == b {
      assert now == was + {NewOne(l, o)};
    } else {
      assert now == was;
    }
  }

  lemma ReleaseCounts(l: Ledger, p: Pending, at: nat, outbound: bool, peer: Endpoint, b: Bytes)
    requires p in l.queue
    ensures var was, now := Waiting(l.queue, outbound, peer, b), Waiting(ReleaseOne(l, p, at).queue, outbound, peer, b);
            |now| == |was| - if Concerns(Leaves(p, at), outbound, peer) then One(b, p.bytes) else 0
  {
    var was, now := Waiting(l.queue, outbound, peer, b), Waiting(ReleaseOne(l, p, at).queue, outbound, peer, b);
    if Concerns(Leaves(p, at), outbound, peer) && p.bytes == b {
      assert now == was - {p};
    } else {
      assert now == was;
    }
  }

  lemma ElseCounts(l: Ledger, m: Move, outbound: bool, peer: Endpoint, b: Bytes)
    requires Sound(l) && Legal(l, m) && !Concerns(m, outbound, peer)
    ensures |Waiting(Apply(l, m).queue, outbound, peer, b)| == |Waiting(l.queue, outbound, peer, b)|
  {
    match m
    case Comes(o) => NewOneIsNew(l, o); AdmitCounts(l, o, outbound, peer, b);
    case Leaves(p, now) => ReleaseCounts(l, p, now, outbound, peer, b);
    case Waits(_) =>
  }

  lemma LedgerKeeps(l: Ledger, m: Move)
    requires Sound(l) && Legal(l, m)
    ensures Sound(Apply(l, m))
  {
    match m
    case Comes(o) => AdmitKeeps(l, o);
    case Leaves(p, now) => ReleaseKeeps(l, p, now);
    case Waits(now) => WaitKeeps(l, now);
  }

  lemma StepKeepsOrder(c: Channel, st: Step)
    requires Orderly(c) && Possible(c, st)
    ensures Orderly(Moved(c, st))
  {
    match st
    case Sends(o) => LedgerKeeps(c.sender, Comes(o));
    case Emits(p, now) => LedgerKeeps(c.sender, Leaves(p, now));
    case Arrives(o) => LedgerKeeps(c.receiver, Comes(o));
    case Hands(p, now) => LedgerKeeps(c.receiver, Leaves(p, now));
    case SenderElse(m) => LedgerKeeps(c.sender, m);
    case ReceiverElse(m) => LedgerKeeps(c.receiver, m);
    case _ =>
  }

  /** Nothing appears or disappears but by sending, doubling, losing and handing over. */
  lemma StepConserves(c: Channel, st: Step, b: Bytes)
    requires Orderly(c) && Possible(c, st)
    ensures var n := Counts(st, b);
            InTransit(Moved(c, st), b) == InTransit(c, b) + n.sent + n.doubled - n.lost - n.handed
  {
    match st
    case Sends(o) => NewOneIsNew(c.sender, o); AdmitCounts(c.sender, o, true, c.target, b);
    case Emits(p, now) => ReleaseCounts(c.sender, p, now, true, c.target, b);
    case Drops(_) =>
    case Doubles(_) =>
    case Arrives(o) => NewOneIsNew(c.receiver, o); AdmitCounts(c.receiver, o, false, c.source, b);
    case Hands(p, now) => ReleaseCounts(c.receiver, p, now, false, c.source, b);
    case SenderElse(m) => ElseCounts(c.sender, m, true, c.target, b);
    case ReceiverElse(m) => ElseCounts(c.receiver, m, false, c.source, b);
  }

  // ----- whole histories

  function Silent(source: Endpoint, target: Endpoint): Channel {
    Channel(source, target, EMPTY, multiset{}, EMPTY)
  }

  function Through(c: Channel, steps: seq<Step>): Channel {
    if steps == [] then c else Moved(Through(c, steps[..|steps| - 1]), steps[|steps| - 1])
  }

  ghost predicate PossibleRun(c: Channel, steps: seq<Step>) {
    forall i :: 0 <= i < |steps| ==> Possible(Through(c, steps[..i]), steps[i])
  }

  function Total(steps: seq<Step>, b: Bytes): Tally {
    if steps == [] then Tally(0, 0, 0, 0)
    else
      var t, n := Total(steps[..|steps| - 1], b), Counts(steps[|steps| - 1], b);
      Tally(t.sent + n.sent, t.doubled + n.doubled, t.lost + n.lost, t.handed + n.handed)
  }

  lemma {:induction false} RunConserves(c: Channel, steps: seq<Step>, b: Bytes)
    requires Orderly(c) && PossibleRun(c, steps)
    ensures Orderly(Through(c, steps))
    ensures var n := Total(steps, b);
            InTransit(Through(c, steps), b) == InTransit(c, b) + n.sent + n.doubled - n.lost - n.handed
  {
    if steps != [] {
      var init, st := steps[..|steps| - 1], steps[|steps| - 1];
      forall i | 0 <= i < |init| ensures init[i] == steps[i] && init[..i] == steps[..i] {}
      RunConserves(c, init, b);
      assert Possible(Through(c, init), st);
      StepKeepsOrder(Through(c, init), st);
      StepConserves(Through(c, init), st, b);
    }
  }

  lemma {:induction false} TotalsNotNegative(steps: seq<Step>, b: Bytes)
    ensures Total(steps, b).lost >= 0 && Total(steps, b).doubled >= 0
  {
    if steps != [] { TotalsNotNegative(steps[..|steps| - 1], b); }
  }

  /** The sockets never hand over a datagram twice: over any history, no more copies are handed over than were sent
      and doubled on the wire, whatever the latencies, the jitter and the losses. */
  lemma HandedOverAtMostOnce(source: Endpoint, target: Endpoint, steps: seq<Step>, b: Bytes)
    requires PossibleRun(Silent(source, target), steps)
    ensures var n := Total(steps, b);
            && n.sent + n.doubled == n.lost + n.handed + InTransit(Through(Silent(source, target), steps), b)
            && n.handed <= n.sent + n.doubled
  {
    var c := Silent(source, target);
    assert Waiting({}, true, target, b) == {} && Waiting({}, false, source, b) == {};
    RunConserves(c, steps, b);
    TotalsNotNegative(steps, b);
  }
}

/** The network of the protocol is what two sockets and the wire make of the datagrams: they lose, delay and reorder,
and only the wire repeats. */
module ChannelRefinement {
  import opened Types
  import opened Wire
  import opened Ledgers
  import opened Channels
  import P = Protocol

  /** The protocol's pool holds, for client `e`, what is in transit through the channel. */
  ghost predicate Carries(c: Channel, e: Endpoint, pool: multiset<Datagram>) {
    forall b: Bytes :: pool[Datagram(e, b)] == InTransit(c, b)
  }

  predicate Internal(st: Step) {
    !st.Sends? && !st.Hands?
  }

  /** The actions of the protocol's network that a step towards the server amounts to. */
  function UpActions(e: Endpoint, st: Step): seq<P.Action> {
    match st
    case Drops(b) => [P.LoseUp(Datagram(e, b))]
    case Doubles(b) => [P.RepeatUp(Datagram(e, b))]
    case Arrives(o) => if o.lost then [P.LoseUp(Datagram(e, o.bytes))] else []
    case _ => []
  }

  function DownActions(e: Endpoint, st: Step): seq<P.Action> {
    match st
    case Drops(b) => [P.LoseDown(Datagram(e, b))]
    case Doubles(b) => [P.RepeatDown(Datagram(e, b))]
    case Arrives(o) => if o.lost then [P.LoseDown(Datagram(e, o.bytes))] else []
    case _ => []
  }

  /** What those actions do to the pool. */
  function Pooled(e: Endpoint, st: Step, pool: multiset<Datagram>): multiset<Datagram> {
    match st
    case Drops(b) => pool - multiset{Datagram(e, b)}
    case Doubles(b) => pool + multiset{Datagram(e, b)}
    case Arrives(o) => if o.lost then pool - multiset{Datagram(e, o.bytes)} else pool
    case _ => pool
  }

  lemma OnWireInPool(c: Channel, e: Endpoint, pool: multiset<Datagram>, b: Bytes)
    requires Carries(c, e, pool) && b in c.wire
    ensures Datagram(e, b) in pool
  {
    assert pool[Datagram(e, b)] == InTransit(c, b);
  }

  /** What a step takes off the wire is in the pool. */
  lemma LostIsInPool(c: Channel, e: Endpoint, pool: multiset<Datagram>, st: Step)
    requires Possible(c, st) && Carries(c, e, pool)
    ensures st.Drops? ==> Datagram(e, st.b) in pool
    ensures st.Doubles? ==> Datagram(e, st.b) in pool
    ensures st.Arrives? ==> Datagram(e, st.o.bytes) in pool
  {
    match st
    case Drops(b) => OnWireInPool(c, e, pool, b);
    case Doubles(b) => OnWireInPool(c, e, pool, b);
    case Arrives(o) => OnWireInPool(c, e, pool, o.bytes);
    case _ =>
  }

  lemma PooledCounts(e: Endpoint, st: Step, pool: multiset<Datagram>, b: Bytes)
    requires Internal(st)
    requires st.Drops? ==> Datagram(e, st.b) in pool
    requires st.Arrives? ==> Datagram(e, st.o.bytes) in pool
    ensures var n := Counts(st, b);
            && n.sent == n.handed == 0
            && Pooled(e, st, pool)[Datagram(e, b)] == pool[Datagram(e, b)] + n.doubled - n.lost
  {
  }

  lemma PoolFollows(c: Channel, e: Endpoint, pool: multiset<Datagram>, st: Step)
    requires Orderly(c) && Possible(c, st) && Internal(st) && Carries(c, e, pool)
    ensures Carries(Moved(c, st), e, Pooled(e, st, pool))
  {
    LostIsInPool(c, e, pool, st);
    forall b: Bytes ensures Pooled(e, st, pool)[Datagram(e, b)] == InTransit(Moved(c, st), b) {
      StepConserves(c, st, b);
      PooledCounts(e, st, pool, b);
    }
  }

  lemma OneUp(p: P.Platform, s: P.System, c: Channel, e: Endpoint, st: Step)
    requires Possible(c, st) && Internal(st) && Carries(c, e, s.up) && (st.Doubles? ==> p.mayRepeat(st.b))
    ensures var actions := UpActions(e, st);
            P.Execution(p, s, actions) && P.After(p, s, actions) == s.(up := Pooled(e, st, s.up))
  {
    LostIsInPool(c, e, s.up, st);
    var actions := UpActions(e, st);
    if actions != [] { OneAction(p, s, actions[0]); }
  }

  lemma OneDown(p: P.Platform, s: P.System, c: Channel, e: Endpoint, st: Step)
    requires Possible(c, st) && Internal(st) && Carries(c, e, s.down)
    ensures var actions := DownActions(e, st);
            P.Execution(p, s, actions) && P.After(p, s, actions) == s.(down := Pooled(e, st, s.down))
  {
    LostIsInPool(c, e, s.down, st);
    var actions := DownActions(e, st);
    if actions != [] { OneAction(p, s, actions[0]); }
  }

  /** Every step inside the sockets and on the wire is a step of the protocol's network, or none at all; it is a
      repeat only if the wire doubles a datagram. */
  lemma UpStepRefines(p: P.Platform, s: P.System, c: Channel, e: Endpoint, st: Step)
    requires Orderly(c) && Possible(c, st) && Internal(st) && Carries(c, e, s.up)
    requires st.Doubles? ==> p.mayRepeat(st.b)
    ensures var actions := UpActions(e, st);
            && P.Execution(p, s, actions)
            && (forall a :: a in actions ==> a.LoseUp? || (a.RepeatUp? && st.Doubles?))
            && P.After(p, s, actions) == s.(up := Pooled(e, st, s.up))
            && Carries(Moved(c, st), e, P.After(p, s, actions).up)
  {
    PoolFollows(c, e, s.up, st);
    OneUp(p, s, c, e, st);
  }

  lemma DownStepRefines(p: P.Platform, s: P.System, c: Channel, e: Endpoint, st: Step)
    requires Orderly(c) && Possible(c, st) && Internal(st) && Carries(c, e, s.down)
    ensures var actions := DownActions(e, st);
            && P.Execution(p, s, actions)
            && (forall a :: a in actions ==> a.LoseDown? || (a.RepeatDown? && st.Doubles?))
            && P.After(p, s, actions) == s.(down := Pooled(e, st, s.down))
            && Carries(Moved(c, st), e, P.After(p, s, actions).down)
  {
    PoolFollows(c, e, s.down, st);
    OneDown(p, s, c, e, st);
  }

  lemma OneAction(p: P.Platform, s: P.System, a: P.Action)
    requires P.Enabled(p, s, a)
    ensures P.Execution(p, s, [a]) && P.After(p, s, [a]) == P.Next(p, s, a)
  {
    assert [a][..0] == [];
  }

  /** What a client sends is in transit once its socket has taken it, unless the socket drops it. */
  lemma SendRefines(c: Channel, e: Endpoint, pool: multiset<Datagram>, o: Offer)
    requires Orderly(c) && Possible(c, Sends(o)) && Carries(c, e, pool)
    ensures var more := pool + multiset{Datagram(e, o.bytes)};
            Carries(Moved(c, Sends(o)), e, if o.lost then more - multiset{Datagram(e, o.bytes)} else more)
  {
    forall b: Bytes ensures InTransit(Moved(c, Sends(o)), b) == pool[Datagram(e, b)]
                            + if o.lost then 0 else One(b, o.bytes)
    {
      StepConserves(c, Sends(o), b);
    }
  }

  /** What a socket hands over is in transit, and then no longer. */
  lemma HandOverRefines(c: Channel, e: Endpoint, pool: multiset<Datagram>, p: Pending, now: nat)
    requires Orderly(c) && Possible(c, Hands(p, now)) && Carries(c, e, pool)
    ensures Datagram(e, p.bytes) in pool
    ensures Carries(Moved(c, Hands(p, now)), e, pool - multiset{Datagram(e, p.bytes)})
  {
    StepConserves(c, Hands(p, now), p.bytes);
    assert pool[Datagram(e, p.bytes)] == InTransit(c, p.bytes);
    forall b: Bytes ensures InTransit(Moved(c, Hands(p, now)), b) == pool[Datagram(e, b)] - One(b, p.bytes) {
      StepConserves(c, Hands(p, now), b);
    }
  }

  // ----- whole executions

  /** One thing that happens while client `e` talks to the server through its sockets. */
  datatype Turn =
    | Inside(st: Step)                           // in the sockets or on the wire
    | Sending(a: P.Action, o: Offer)             // the client's program sends
    | Receiving(q: Pending, at: nat, now: int)   // the server's program receives
    | Other(a: P.Action)                         // anything else

  /** What the programs may do, and what the sockets and the wire may do; nobody looks at the protocol's pool. */
  ghost predicate MayTake(p: P.Platform, e: Endpoint, s: P.System, c: Channel, turn: Turn) {
    match turn
    case Inside(st) => Possible(c, st) && Internal(st) && (st.Doubles? ==> p.mayRepeat(st.b))
    case Sending(a, o) =>
      && P.Enabled(p, s, a) && Possible(c, Sends(o)) && !a.RepeatUp?
      && P.Next(p, s, a).up == s.up + multiset{Datagram(e, o.bytes)}
    case Receiving(q, at, _) => Possible(c, Hands(q, at))
    case Other(a) =>
      && P.Enabled(p, s, a) && (a.RepeatUp? ==> a.d.peer != e)
      && forall b: Bytes :: P.Next(p, s, a).up[Datagram(e, b)] == s.up[Datagram(e, b)]
  }

  function TurnActions(e: Endpoint, turn: Turn): seq<P.Action> {
    match turn
    case Inside(st) => UpActions(e, st)
    case Sending(a, o) => if o.lost then [a, P.LoseUp(Datagram(e, o.bytes))] else [a]
    case Receiving(q, _, now) => [P.ToServer(Datagram(e, q.bytes), now)]
    case Other(a) => [a]
  }

  function ChannelAfter(c: Channel, turn: Turn): Channel {
    match turn
    case Inside(st) => Moved(c, st)
    case Sending(_, o) => Moved(c, Sends(o))
    case Receiving(q, at, _) => Moved(c, Hands(q, at))
    case Other(_) => c
  }

  lemma SendingRefines(p: P.Platform, e: Endpoint, s: P.System, c: Channel, a: P.Action, o: Offer)
    requires Orderly(c) && Carries(c, e, s.up) && MayTake(p, e, s, c, Sending(a, o))
    ensures var actions := TurnActions(e, Sending(a, o));
            P.Execution(p, s, actions) && Carries(Moved(c, Sends(o)), e, P.After(p, s, actions).up)
  {
    SendRefines(c, e, s.up, o);
    OneAction(p, s, a);
    if o.lost {
      var lose := P.LoseUp(Datagram(e, o.bytes));
      OneAction(p, P.Next(p, s, a), lose);
      Concat(p, s, [a], [lose]);
      assert [a] + [lose] == [a, lose];
    }
  }

  lemma ReceivingRefines(p: P.Platform, e: Endpoint, s: P.System, c: Channel, q: Pending, at: nat, now: int)
    requires Orderly(c) && Carries(c, e, s.up) && MayTake(p, e, s, c, Receiving(q, at, now))
    ensures var actions := TurnActions(e, Receiving(q, at, now));
            P.Execution(p, s, actions) && Carries(Moved(c, Hands(q, at)), e, P.After(p, s, actions).up)
  {
    HandOverRefines(c, e, s.up, q, at);
    OneAction(p, s, P.ToServer(Datagram(e, q.bytes), now));
  }

  lemma TurnRefines(p: P.Platform, e: Endpoint, s: P.System, c: Channel, turn: Turn)
    requires Orderly(c) && Carries(c, e, s.up) && MayTake(p, e, s, c, turn)
    ensures P.Execution(p, s, TurnActions(e, turn))
    ensures Orderly(ChannelAfter(c, turn)) && Carries(ChannelAfter(c, turn), e, P.After(p, s, TurnActions(e, turn)).up)
  {
    match turn
    case Inside(st) => UpStepRefines(p, s, c, e, st); StepKeepsOrder(c, st);
    case Sending(a, o) => SendingRefines(p, e, s, c, a, o); StepKeepsOrder(c, Sends(o));
    case Receiving(q, at, now) => ReceivingRefines(p, e, s, c, q, at, now); StepKeepsOrder(c, Hands(q, at));
    case Other(a) => OneAction(p, s, a); SameAsBefore(p, e, s, c, a);
  }

  lemma SameAsBefore(p: P.Platform, e: Endpoint, s: P.System, c: Channel, a: P.Action)
    requires Carries(c, e, s.up)
    requires forall b: Bytes :: P.Next(p, s, a).up[Datagram(e, b)] == s.up[Datagram(e, b)]
    ensures Carries(c, e, P.Next(p, s, a).up)
  {
  }

  lemma OneMore(p: P.Platform, s: P.System, xs: seq<P.Action>, a: P.Action)
    requires P.Execution(p, s, xs) && P.Enabled(p, P.After(p, s, xs), a)
    ensures P.Execution(p, s, xs + [a]) && P.After(p, s, xs + [a]) == P.Next(p, P.After(p, s, xs), a)
  {
    var longer := xs + [a];
    assert longer[..|xs|] == xs;
    forall i | 0 <= i < |longer| ensures P.Enabled(p, P.After(p, s, longer[..i]), longer[i]) {
      if i < |xs| { assert longer[..i] == xs[..i]; }
    }
  }

  lemma ExecutionSplit(p: P.Platform, s: P.System, ys: seq<P.Action>)
    requires P.Execution(p, s, ys) && ys != []
    ensures P.Execution(p, s, ys[..|ys| - 1]) && P.Enabled(p, P.After(p, s, ys[..|ys| - 1]), ys[|ys| - 1])
  {
    var init := ys[..|ys| - 1];
    forall i | 0 <= i < |init| ensures P.Enabled(p, P.After(p, s, init[..i]), init[i]) {
      assert init[i] == ys[i] && init[..i] == ys[..i];
    }
  }

  lemma AppendLast<T>(xs: seq<T>, ys: seq<T>)
    requires ys != []
    ensures xs + ys == xs + ys[..|ys| - 1] + [ys[|ys| - 1]]
  {
    assert ys == ys[..|ys| - 1] + [ys[|ys| - 1]];
  }

  /** Executions can be put one after the other. */
  lemma {:induction false} Concat(p: P.Platform, s: P.System, xs: seq<P.Action>, ys: seq<P.Action>)
    requires P.Execution(p, s, xs) && P.Execution(p, P.After(p, s, xs), ys)
    ensures P.Execution(p, s, xs + ys) && P.After(p, s, xs + ys) == P.After(p, P.After(p, s, xs), ys)
  {
    if ys == [] {
      assert xs + ys == xs;
    } else {
      var init, a := ys[..|ys| - 1], ys[|ys| - 1];
      ExecutionSplit(p, P.After(p, s, xs), ys);
      Concat(p, s, xs, init);
      OneMore(p, s, xs + init, a);
      AppendLast(xs, ys);
    }
  }

  function AllActions(e: Endpoint, turns: seq<Turn>): seq<P.Action> {
    if turns == [] then [] else AllActions(e, turns[..|turns| - 1]) + TurnActions(e, turns[|turns| - 1])
  }

  function ChannelThrough(c: Channel, turns: seq<Turn>): Channel {
    if turns == [] then c else ChannelAfter(ChannelThrough(c, turns[..|turns| - 1]), turns[|turns| - 1])
  }

  /** Every turn is one the programs, the sockets and the wire may take. */
  ghost predicate Runs(p: P.Platform, e: Endpoint, s: P.System, c: Channel, turns: seq<Turn>) {
    forall i :: 0 <= i < |turns| ==>
      MayTake(p, e, P.After(p, s, AllActions(e, turns[..i])), ChannelThrough(c, turns[..i]), turns[i])
  }

  predicate Doubling(turn: Turn) {
    turn.Inside? && turn.st.Doubles?
  }

  lemma RepeatsAreDoubles(e: Endpoint, p: P.Platform, s: P.System, c: Channel, turn: Turn, a: P.Action)
    requires MayTake(p, e, s, c, turn) && a in TurnActions(e, turn) && a.RepeatUp? && a.d.peer == e
    ensures Doubling(turn)
  {
  }

  /** Before anything is sent the pool and the channel are empty. */
  lemma StartCarries(s: P.System, e: Endpoint, target: Endpoint)
    requires P.Start(s)
    ensures Orderly(Silent(e, target)) && Carries(Silent(e, target), e, s.up)
  {
    forall b: Bytes ensures InTransit(Silent(e, target), b) == 0 {
      assert Waiting({}, true, target, b) == {} && Waiting({}, false, e, b) == {};
    }
  }

  /** A client and the server that talk through two conditioned sockets and a real network are an execution of the
      protocol; and it repeats a datagram of the client only where the wire itself has doubled one. */
  lemma {:induction false} SocketsRefineNetwork(p: P.Platform, e: Endpoint, s: P.System, c: Channel, turns: seq<Turn>)
    requires Orderly(c) && Carries(c, e, s.up) && Runs(p, e, s, c, turns)
    ensures P.Execution(p, s, AllActions(e, turns))
    ensures Orderly(ChannelThrough(c, turns))
    ensures Carries(ChannelThrough(c, turns), e, P.After(p, s, AllActions(e, turns)).up)
    ensures (forall turn :: turn in turns ==> !Doubling(turn)) ==>
              forall a :: a in AllActions(e, turns) && a.RepeatUp? ==> a.d.peer != e
  {
    if turns != [] {
      var init, turn := turns[..|turns| - 1], turns[|turns| - 1];
      forall i | 0 <= i < |init| ensures init[i] == turns[i] && init[..i] == turns[..i] {}
      assert Runs(p, e, s, c, init);
      SocketsRefineNetwork(p, e, s, c, init);
      var before, channel := P.After(p, s, AllActions(e, init)), ChannelThrough(c, init);
      assert MayTake(p, e, before, channel, turn);
      TurnRefines(p, e, before, channel, turn);
      Concat(p, s, AllActions(e, init), TurnActions(e, turn));
      RepeatsSplit(p, e, before, channel, turns);
    }
  }

  lemma RepeatsSplit(p: P.Platform, e: Endpoint, s: P.System, c: Channel, turns: seq<Turn>)
    requires turns != [] && MayTake(p, e, s, c, turns[|turns| - 1])
    requires (forall turn :: turn in turns[..|turns| - 1] ==> !Doubling(turn)) ==>
      forall a :: a in AllActions(e, turns[..|turns| - 1]) && a.RepeatUp? ==> a.d.peer != e
    ensures (forall turn :: turn in turns ==> !Doubling(turn)) ==>
              forall a :: a in AllActions(e, turns) && a.RepeatUp? ==> a.d.peer != e
  {
    var init, last := turns[..|turns| - 1], turns[|turns| - 1];
    assert last in turns && forall turn :: turn in init ==> turn in turns;
    forall a | a in TurnActions(e, last) && a.RepeatUp? && a.d.peer == e ensures Doubling(last) {
      RepeatsAreDoubles(e, p, s, c, last, a);
    }
  }
}

/** What the network conditioner of common/lagged_socket.cpp does with datagrams, as a ledger. */
module Ledgers {
  import opened Types
  import opened Wire

  /** A datagram held back until `deliverAt` (microseconds); `serial` numbers datagrams as they are offered. */
  datatype Pending = Pending(serial: nat, deliverAt: nat, peer: Endpoint, bytes: Bytes, outbound: bool)

  datatype Fate = Dropped | SentAtOnce | Queued | Released

  datatype Release = Release(p: Pending, at: nat)

  /** The queue, and the history that explains it: when each datagram was offered, what became of it, and
      the releases from the queue in order. */
  datatype Ledger = Ledger(
    queue: set<Pending>, offered: nat, clock: nat,
    offeredAt: map<nat, nat>, fate: map<nat, Fate>, log: seq<Release>)

  /** One datagram offered to the conditioner, with the coin and the delay drawn for it. */
  datatype Offer = Offer(peer: Endpoint, bytes: Bytes, outbound: bool, lost: bool, delayMs: nat, at: nat)

  function Admit(l: Ledger, o: Offer): Ledger {
    var n := l.offered;
    var fate := if o.lost then Dropped else if o.outbound && o.delayMs == 0 then SentAtOnce else Queued;
    var p := Pending(n, o.at + o.delayMs * 1000, o.peer, o.bytes, o.outbound);
    Ledger(if fate == Queued then l.queue + {p} else l.queue,
           n + 1, o.at, l.offeredAt[n := o.at], l.fate[n := fate], l.log)
  }

  function AdmitAll(l: Ledger, offers: seq<Offer>): Ledger {
    if offers == [] then l else Admit(AdmitAll(l, offers[..|offers| - 1]), offers[|offers| - 1])
  }

  lemma AdmitNext(l: Ledger, offers: seq<Offer>, i: nat)
    requires i < |offers|
    ensures AdmitAll(l, offers[..i + 1]) == Admit(AdmitAll(l, offers[..i]), offers[i])
  {
    assert offers[..i + 1][..i] == offers[..i];
  }

  function ReleaseOne(l: Ledger, p: Pending, now: nat): Ledger {
    Ledger(l.queue - {p}, l.offered, now, l.offeredAt, l.fate[p.serial := Released], l.log + [Release(p, now)])
  }

  function ReleaseAll(l: Ledger, ps: seq<Pending>, now: nat): Ledger {
    if ps == [] then l.(clock := now) else ReleaseOne(ReleaseAll(l, ps[..|ps| - 1], now), ps[|ps| - 1], now)
  }

  predicate Matured(p: Pending, now: nat) {
    p.deliverAt <= now
  }

  ghost predicate Earliest(queue: set<Pending>, p: Pending) {
    p in queue && forall q :: q in queue ==> p.deliverAt <= q.deliverAt
  }

  /** No datagram of the same direction in the queue is due earlier. */
  ghost predicate EarliestOfItsKind(queue: set<Pending>, p: Pending) {
    p in queue && forall q :: q in queue && q.outbound == p.outbound ==> p.deliverAt <= q.deliverAt
  }

  /** Conservation: every datagram offered has exactly one fate; the queued ones are in the queue once, the
      released ones in the log once. */
  ghost predicate Conserved(l: Ledger) {
    && (forall k :: k in l.fate <==> 0 <= k < l.offered)
    && (forall k :: k in l.offeredAt <==> 0 <= k < l.offered)
    && (forall p :: p in l.queue ==> p.serial in l.fate && l.fate[p.serial] == Queued)
    && (forall p, q :: p in l.queue && q in l.queue && p.serial == q.serial ==> p == q)
    && (forall k :: k in l.fate && l.fate[k] == Queued ==> exists p :: p in l.queue && p.serial == k)
    && (forall i :: 0 <= i < |l.log| ==> l.log[i].p.serial in l.fate && l.fate[l.log[i].p.serial] == Released)
    && (forall i, j :: 0 <= i < j < |l.log| ==> l.log[i].p.serial != l.log[j].p.serial)
    && (forall k :: k in l.fate && l.fate[k] == Released ==> exists i :: 0 <= i < |l.log| && l.log[i].p.serial == k)
  }

  /** Ordering: nothing leaves early, each direction leaves in deadline order, and what is still queued is
      due no earlier than what has already left. */
  ghost predicate Ordered(l: Ledger) {
    && (forall i :: 0 <= i < |l.log| ==> l.log[i].p.deliverAt <= l.log[i].at <= l.clock)
    && (forall i, j :: 0 <= i < j < |l.log| && l.log[i].p.outbound == l.log[j].p.outbound ==>
          l.log[i].p.deliverAt <= l.log[j].p.deliverAt)
    && (forall i, p :: 0 <= i < |l.log| && p in l.queue && l.log[i].p.outbound == p.outbound ==>
          l.log[i].p.deliverAt <= p.deliverAt)
  }

  ghost predicate Sound(l: Ledger) {
    Conserved(l) && Ordered(l)
  }

  lemma WaitKeeps(l: Ledger, now: nat)
    requires Sound(l) && l.clock <= now
    ensures Sound(l.(clock := now))
  {
  }

  lemma AdmitKeeps(l: Ledger, o: Offer)
    requires Sound(l) && l.clock <= o.at
    ensures Sound(Admit(l, o))
  {
    AdmitConserves(l, o);
    AdmitOrders(l, o);
  }

  lemma AdmitOrders(l: Ledger, o: Offer)
    requires Ordered(l) && l.clock <= o.at
    ensures Ordered(Admit(l, o))
  {
  }

  lemma AdmitConserves(l: Ledger, o: Offer)
    requires Conserved(l)
    ensures Conserved(Admit(l, o))
  {
  }

  lemma ReleaseConserves(l: Ledger, p: Pending, now: nat)
    requires Conserved(l) && p in l.queue
    ensures Conserved(ReleaseOne(l, p, now))
  {
    var m := ReleaseOne(l, p, now);
    var n := |l.log|;
    forall k | k in m.fate && m.fate[k] == Queued ensures exists q :: q in m.queue && q.serial == k {
      var q :| q in l.queue && q.serial == k;
      assert q in m.queue;
    }
    forall k | k in m.fate && m.fate[k] == Released
      ensures exists i :: 0 <= i < |m.log| && m.log[i].p.serial == k
    {
      if k == p.serial {
        assert m.log[n].p.serial == k;
      } else {
        var i :| 0 <= i < n && l.log[i].p.serial == k;
        assert m.log[i].p.serial == k;
      }
    }
  }

  lemma ReleaseKeeps(l: Ledger, p: Pending, now: nat)
    requires Sound(l) && l.clock <= now
    requires EarliestOfItsKind(l.queue, p) && Matured(p, now)
    ensures Sound(ReleaseOne(l, p, now))
  {
    ReleaseConserves(l, p, now);
    ReleaseOrders(l, p, now);
  }

  lemma ReleaseOrders(l: Ledger, p: Pending, now: nat)
    requires Ordered(l) && l.clock <= now
    requires EarliestOfItsKind(l.queue, p) && Matured(p, now)
    ensures Ordered(ReleaseOne(l, p, now))
  {
  }

  lemma {:induction false} EarliestExists(queue: set<Pending>)
    requires queue != {}
    ensures exists p :: Earliest(queue, p)
  {
    var x :| x in queue;
    var rest := queue - {x};
    if rest == {} {
      assert queue == {x};
      assert Earliest(queue, x);
    } else {
      EarliestExists(rest);
      var p :| Earliest(rest, p);
      assert Earliest(queue, if x.deliverAt <= p.deliverAt then x else p);
    }
  }

  // ----- whole histories

  /** Everything the conditioner ever does to its queue. */
  datatype Move = Comes(o: Offer) | Leaves(p: Pending, now: nat) | Waits(now: nat)

  ghost predicate Legal(l: Ledger, m: Move) {
    match m
    case Comes(o) => l.clock <= o.at
    case Leaves(p, now) => l.clock <= now && EarliestOfItsKind(l.queue, p) && Matured(p, now)
    case Waits(now) => l.clock <= now
  }

  function Apply(l: Ledger, m: Move): Ledger {
    match m
    case Comes(o) => Admit(l, o)
    case Leaves(p, now) => ReleaseOne(l, p, now)
    case Waits(now) => l.(clock := now)
  }

  function Follow(l: Ledger, moves: seq<Move>): Ledger {
    if moves == [] then l else Apply(Follow(l, moves[..|moves| - 1]), moves[|moves| - 1])
  }

  const EMPTY := Ledger({}, 0, 0, map[], map[], [])

  ghost predicate LegalRun(moves: seq<Move>) {
    forall i :: 0 <= i < |moves| ==> Legal(Follow(EMPTY, moves[..i]), moves[i])
  }

  /** `moves` is a legal history that leads to `l`. */
  ghost predicate Explains(moves: seq<Move>, l: Ledger) {
    LegalRun(moves) && Follow(EMPTY, moves) == l
  }

  lemma Extend(moves: seq<Move>, l: Ledger, m: Move)
    requires Explains(moves, l) && Legal(l, m)
    ensures Explains(moves + [m], Apply(l, m))
  {
    var longer := moves + [m];
    assert longer[..|moves|] == moves;
    forall i | 0 <= i < |longer| ensures Legal(Follow(EMPTY, longer[..i]), longer[i]) {
      if i < |moves| { assert longer[..i] == moves[..i]; }
    }
  }

  lemma LegalPrefix(moves: seq<Move>)
    requires LegalRun(moves) && moves != []
    ensures LegalRun(moves[..|moves| - 1])
    ensures Legal(Follow(EMPTY, moves[..|moves| - 1]), moves[|moves| - 1])
  {
    var init := moves[..|moves| - 1];
    forall i | 0 <= i < |init| ensures Legal(Follow(EMPTY, init[..i]), init[i]) {
      assert init[..i] == moves[..i] && init[i] == moves[i];
    }
  }

  /** Conservation and ordering hold after any history. */
  lemma {:induction false} HistorySound(moves: seq<Move>)
    requires LegalRun(moves)
    ensures Sound(Follow(EMPTY, moves))
  {
    if moves != [] {
      var init := moves[..|moves| - 1];
      LegalPrefix(moves);
      HistorySound(init);
      match moves[|moves| - 1]
      case Comes(o) => AdmitKeeps(Follow(EMPTY, init), o);
      case Leaves(p, now) => ReleaseKeeps(Follow(EMPTY, init), p, now);
      case Waits(now) => WaitKeeps(Follow(EMPTY, init), now);
    }
  }

  // ----- first in, first out

  /** A datagram that went through the queue was delayed by `delay` and sent at `last` or before. */
  ghost predicate DelayedBy(l: Ledger, p: Pending, delay: nat, last: int) {
    && p.serial in l.offeredAt
    && p.deliverAt == l.offeredAt[p.serial] + delay
    && l.offeredAt[p.serial] <= last
  }

  ghost predicate SentBefore(l: Ledger, p: Pending, q: Pending) {
    && p.serial in l.offeredAt && q.serial in l.offeredAt
    && l.offeredAt[p.serial] < l.offeredAt[q.serial]
  }

  /** The datagram went through the queue in this direction, or is still there. */
  ghost predicate Queuing(l: Ledger, outbound: bool, p: Pending) {
    p.outbound == outbound && (p in l.queue || exists i :: 0 <= i < |l.log| && l.log[i].p == p)
  }

  ghost predicate Steady(l: Ledger, outbound: bool, delay: nat, last: int) {
    && (forall p :: Queuing(l, outbound, p) ==> DelayedBy(l, p, delay, last))
    && (forall p, q :: Queuing(l, outbound, p) && Queuing(l, outbound, q) && p.serial < q.serial ==>
          SentBefore(l, p, q))
  }

  lemma QueuingAdmitted(l: Ledger, o: Offer, outbound: bool, p: Pending)
    requires Conserved(l) && Queuing(Admit(l, o), outbound, p)
    ensures (Queuing(l, outbound, p) && p.serial < l.offered)
            || (o.outbound == outbound && p == Pending(l.offered, o.at + o.delayMs * 1000, o.peer, o.bytes, outbound))
  {
  }

  lemma SteadyAdmit(l: Ledger, o: Offer, outbound: bool, delayMs: nat, last: int)
    requires Conserved(l) && Steady(l, outbound, delayMs * 1000, last)
    requires o.outbound == outbound ==> o.delayMs == delayMs && last < o.at
    ensures Steady(Admit(l, o), outbound, delayMs * 1000, if o.outbound == outbound then o.at else last)
  {
    var m := Admit(l, o);
    var next := if o.outbound == outbound then o.at else last;
    forall p | Queuing(m, outbound, p) ensures DelayedBy(m, p, delayMs * 1000, next) {
      QueuingAdmitted(l, o, outbound, p);
      if p.serial < l.offered { assert DelayedBy(l, p, delayMs * 1000, last); }
    }
    forall p, q | Queuing(m, outbound, p) && Queuing(m, outbound, q) && p.serial < q.serial
      ensures SentBefore(m, p, q)
    {
      QueuingAdmitted(l, o, outbound, p);
      QueuingAdmitted(l, o, outbound, q);
      assert DelayedBy(l, p, delayMs * 1000, last);
      if q.serial < l.offered { assert SentBefore(l, p, q); }
    }
  }

  lemma QueuingReleased(l: Ledger, p: Pending, now: nat, outbound: bool, q: Pending)
    requires p in l.queue && Queuing(ReleaseOne(l, p, now), outbound, q)
    ensures Queuing(l, outbound, q)
  {
  }

  lemma SteadyRelease(l: Ledger, p: Pending, now: nat, outbound: bool, delay: nat, last: int)
    requires Steady(l, outbound, delay, last) && p in l.queue
    ensures Steady(ReleaseOne(l, p, now), outbound, delay, last)
  {
    var m := ReleaseOne(l, p, now);
    forall q | Queuing(m, outbound, q) ensures DelayedBy(m, q, delay, last) {
      QueuingReleased(l, p, now, outbound, q);
      assert DelayedBy(l, q, delay, last);
    }
    forall q, r | Queuing(m, outbound, q) && Queuing(m, outbound, r) && q.serial < r.serial
      ensures SentBefore(m, q, r)
    {
      QueuingReleased(l, p, now, outbound, q);
      QueuingReleased(l, p, now, outbound, r);
      assert SentBefore(l, q, r);
    }
  }

  /** The datagrams of one direction have left in the order they came, and none that is still queued came before one
      that has left. */
  ghost predicate Fifo(l: Ledger, outbound: bool) {
    && (forall i, j :: 0 <= i < j < |l.log| && l.log[i].p.outbound == l.log[j].p.outbound == outbound ==>
          l.log[i].p.serial < l.log[j].p.serial)
    && (forall i, p :: 0 <= i < |l.log| && p in l.queue && l.log[i].p.outbound == p.outbound == outbound ==>
          l.log[i].p.serial < p.serial)
  }

  lemma SteadyIsFifo(l: Ledger, outbound: bool, delay: nat, last: int)
    requires Sound(l) && Steady(l, outbound, delay, last)
    ensures Fifo(l, outbound)
  {
    forall i, j | 0 <= i < j < |l.log| && l.log[i].p.outbound == l.log[j].p.outbound == outbound
      ensures l.log[i].p.serial < l.log[j].p.serial
    {
      var p, q := l.log[i].p, l.log[j].p;
      assert Queuing(l, outbound, p) && Queuing(l, outbound, q) && p.deliverAt <= q.deliverAt;
      assert q.serial < p.serial ==> SentBefore(l, q, p);
    }
    forall i, p | 0 <= i < |l.log| && p in l.queue && l.log[i].p.outbound == p.outbound == outbound
      ensures l.log[i].p.serial < p.serial
    {
      var q := l.log[i].p;
      assert Queuing(l, outbound, p) && Queuing(l, outbound, q) && q.deliverAt <= p.deliverAt;
      assert l.fate[q.serial] == Released && l.fate[p.serial] == Queued;
      assert p.serial < q.serial ==> SentBefore(l, p, q);
    }
  }

  /** The time of the last offer in a direction, -1 if there was none. */
  function LastOffer(moves: seq<Move>, outbound: bool): int {
    if moves == [] then -1
    else
      var m := moves[|moves| - 1];
      if m.Comes? && m.o.outbound == outbound then m.o.at else LastOffer(moves[..|moves| - 1], outbound)
  }

  /** Zero jitter and constant latency in a direction, and every datagram strictly later than the one before. */
  ghost predicate SteadyOffers(moves: seq<Move>, outbound: bool, delayMs: nat) {
    forall i :: 0 <= i < |moves| && moves[i].Comes? && moves[i].o.outbound == outbound ==>
      moves[i].o.delayMs == delayMs && LastOffer(moves[..i], outbound) < moves[i].o.at
  }

  lemma {:induction false} SteadyHistory(moves: seq<Move>, outbound: bool, delayMs: nat)
    requires LegalRun(moves) && SteadyOffers(moves, outbound, delayMs)
    ensures Steady(Follow(EMPTY, moves), outbound, delayMs * 1000, LastOffer(moves, outbound))
  {
    if moves != [] {
      var init, m := moves[..|moves| - 1], moves[|moves| - 1];
      LegalPrefix(moves);
      HistorySound(init);
      forall i | 0 <= i < |init| ensures init[i] == moves[i] && init[..i] == moves[..i] {}
      SteadyHistory(init, outbound, delayMs);
      var l := Follow(EMPTY, init);
      match m
      case Comes(o) => SteadyAdmit(l, o, outbound, delayMs, LastOffer(init, outbound));
      case Leaves(p, now) => SteadyRelease(l, p, now, outbound, delayMs * 1000, LastOffer(init, outbound));
      case Waits(now) => SteadyWait(l, now, outbound, delayMs * 1000, LastOffer(init, outbound));
    }
  }

  lemma SteadyWait(l: Ledger, now: nat, outbound: bool, delay: nat, last: int)
    requires Steady(l, outbound, delay, last)
    ensures Steady(l.(clock := now), outbound, delay, last)
  {
    var m := l.(clock := now);
    forall p | Queuing(m, outbound, p) ensures Queuing(l, outbound, p) {
      if p !in m.queue { var i :| 0 <= i < |m.log| && m.log[i].p == p; assert l.log[i].p == p; }
    }
  }

  /** Under a steady delay, release is first in, first out over every history: outbound with the send latency, inbound
      with the receive latency. */
  lemma SteadyDelayIsFifo(moves: seq<Move>, outbound: bool, delayMs: nat)
    requires LegalRun(moves) && SteadyOffers(moves, outbound, delayMs)
    ensures Fifo(Follow(EMPTY, moves), outbound)
  {
    HistorySound(moves);
    SteadyHistory(moves, outbound, delayMs);
    SteadyIsFifo(Follow(EMPTY, moves), outbound, delayMs * 1000, LastOffer(moves, outbound));
  }

  // ----- what one receive call does

  /** Matured outbound datagrams remain only behind a matured inbound one. */
  ghost predicate FlushStopped(queue: set<Pending>, now: nat) {
    forall p :: p in queue && p.outbound && Matured(p, now) ==>
      exists q :: q in queue && !q.outbound && Matured(q, now) && q.deliverAt <= p.deliverAt
  }

  /** `m` is `l` after a flush at `now` that sent `sent`, in order. */
  ghost predicate Flushed(l: Ledger, m: Ledger, sent: seq<Pending>, now: nat) {
    Flushing(l, m, sent, now) && FlushStopped(m.queue, now)
  }

  ghost predicate Flushing(l: Ledger, m: Ledger, sent: seq<Pending>, now: nat) {
    && m == ReleaseAll(l, sent, now)
    && (forall p :: p in sent ==> p in l.queue && p.outbound && Matured(p, now))
    && (forall p :: p in m.queue <==> p in l.queue && p !in sent)
  }

  lemma FlushStep(l: Ledger, m: Ledger, sent: seq<Pending>, now: nat, top: Pending)
    requires Flushing(l, m, sent, now) && top in m.queue && top.outbound && Matured(top, now)
    ensures Flushing(l, ReleaseOne(m, top, now), sent + [top], now)
  {
  }

  function MaturedInbound(queue: set<Pending>, now: nat): set<Pending> {
    set p | p in queue && !p.outbound && Matured(p, now)
  }

  datatype Delivery = Delivery(peer: Endpoint, bytes: Bytes)

  /** `m` is `l` after looking for a matured inbound datagram: the earliest one, cut to `cap` bytes. */
  ghost predicate Taken(l: Ledger, m: Ledger, now: nat, cap: nat, r: Option<Delivery>) {
    if MaturedInbound(l.queue, now) == {} then
      r == None && m == l.(clock := now)
    else
      exists p :: TakenOne(l, m, now, cap, r, p)
  }

  ghost predicate TakenOne(l: Ledger, m: Ledger, now: nat, cap: nat, r: Option<Delivery>, p: Pending) {
    && p in MaturedInbound(l.queue, now) && EarliestOfItsKind(l.queue, p)
    && m == ReleaseOne(l, p, now)
    && r == Some(Delivery(p.peer, p.bytes[..Min(cap, |p.bytes|)]))
  }

  lemma FlushKeepsInbound(l: Ledger, m: Ledger, sent: seq<Pending>, now: nat)
    requires Flushed(l, m, sent, now)
    ensures MaturedInbound(m.queue, now) == MaturedInbound(l.queue, now)
  {
  }

  function Cut(p: Pending, cap: nat): Delivery {
    Delivery(p.peer, p.bytes[..Min(cap, |p.bytes|)])
  }

  /** A call that found the matured inbound datagrams `was` and left `left`: it delivered the earliest, or there
      was none. */
  ghost predicate Handed(was: set<Pending>, left: set<Pending>, cap: nat, r: Option<Delivery>, p: Option<Pending>) {
    match p
    case None => r == None && was == left == {}
    case Some(q) => r == Some(Cut(q, cap)) && Earliest(was, q) && left == was - {q}
  }

  lemma TakeShrinks(l: Ledger, m: Ledger, now: nat, cap: nat, r: Option<Delivery>) returns (p: Option<Pending>)
    requires Taken(l, m, now, cap, r)
    ensures Handed(MaturedInbound(l.queue, now), MaturedInbound(m.queue, now), cap, r, p)
    ensures r.None? ==> m.queue == l.queue
  {
    p := None;
    if MaturedInbound(l.queue, now) != {} {
      var q :| TakenOne(l, m, now, cap, r, q);
      p := Some(q);
    }
  }

  /** Of the datagrams `was`, `taken` have been handed over, each once and in deadline order, and `left` remain,
      none due earlier. */
  ghost predicate HandedOver(was: set<Pending>, taken: seq<Pending>, left: set<Pending>) {
    && (forall p :: p in was <==> p in taken || p in left)
    && (forall i :: 0 <= i < |taken| ==> taken[i] !in left)
    && (forall i, j :: 0 <= i < j < |taken| ==> taken[i] != taken[j] && taken[i].deliverAt <= taken[j].deliverAt)
    && (forall i, p :: 0 <= i < |taken| && p in left ==> taken[i].deliverAt <= p.deliverAt)
  }

  lemma HandOver(was: set<Pending>, taken: seq<Pending>, left: set<Pending>, p: Pending)
    requires HandedOver(was, taken, left) && Earliest(left, p)
    ensures HandedOver(was, taken + [p], left - {p})
  {
    var more := taken + [p];
    forall q ensures q in more <==> q in taken || q == p {
      assert more[|taken|] == p;
    }
  }

  /** The same with what the caller got: the bytes of the datagrams handed over, cut to `cap`. */
  ghost predicate Delivered(was: set<Pending>, got: seq<Delivery>, taken: seq<Pending>, left: set<Pending>, cap: nat) {
    && HandedOver(was, taken, left)
    && |got| == |taken| && forall i :: 0 <= i < |got| ==> got[i] == Cut(taken[i], cap)
  }

  lemma DeliverOne(was: set<Pending>, got: seq<Delivery>, taken: seq<Pending>, left: set<Pending>, cap: nat,
                   rest: set<Pending>, r: Option<Delivery>, p: Option<Pending>)
    requires Delivered(was, got, taken, left, cap) && Handed(left, rest, cap, r, p) && r.Some?
    ensures p.Some? && Delivered(was, got + [r.value], taken + [p.value], rest, cap)
  {
    HandOver(was, taken, left, p.value);
  }

  lemma DeliveredCounts(was: set<Pending>, got: seq<Delivery>, taken: seq<Pending>, left: set<Pending>, cap: nat)
    requires Delivered(was, got, taken, left, cap)
    ensures |was| == |got| + |left|
  {
    HandedOverCounts(was, taken, left);
  }

  lemma {:induction false} HandedOverCounts(was: set<Pending>, taken: seq<Pending>, left: set<Pending>)
    requires HandedOver(was, taken, left)
    ensures |was| == |taken| + |left|
  {
    if taken == [] {
      assert was == left;
    } else {
      var init, p := taken[..|taken| - 1], taken[|taken| - 1];
      forall q ensures q in taken <==> q in init || q == p {}
      assert HandedOver(was, init, left + {p});
      HandedOverCounts(was, init, left + {p});
    }
  }
}

/** common/lagged_socket.cpp: the socket wrapper. The clock, the loss coin and the jitter are inputs. */
module Conditioner {
  import opened Constants
  import opened Types
  import opened Wire
  import opened Ledgers

  /** A datagram read from the real socket, with the draws made for it and the clock reading taken. */
  datatype Received = Received(peer: Endpoint, bytes: Bytes, lost: bool, jitterMs: int, at: nat)

  /** How an arrival waits in the queue, if it is not lost: due `latencyMs` and the jitter after it came. */
  predicate ComesAs(a: Received, serial: nat, latencyMs: int, p: Pending) {
    && !a.lost && p.serial == serial && !p.outbound && p.peer == a.peer && p.bytes == a.bytes
    && p.deliverAt == a.at + 1000 * Max(0, latencyMs + a.jitterMs)
  }

  ghost predicate SomeArrival(arrivals: seq<Received>, first: nat, latencyMs: int, p: Pending) {
    exists i :: 0 <= i < |arrivals| && ComesAs(arrivals[i], first + i, latencyMs, p)
  }

  /** The arrival has the serial `k`, and was lost or queued. */
  predicate Fated(now: Ledger, a: Received, k: nat) {
    && k in now.offeredAt && now.offeredAt[k] == a.at
    && k in now.fate && now.fate[k] == if a.lost then Dropped else Queued
  }

  /** `now` is `was` after reading `arrivals`: each has the next serial, the lost ones never enter the queue. */
  ghost predicate Arrived(was: Ledger, now: Ledger, arrivals: seq<Received>, latencyMs: int) {
    && now.offered == was.offered + |arrivals| && now.log == was.log
    && (forall i :: 0 <= i < |arrivals| ==> Fated(now, arrivals[i], was.offered + i))
    && (forall p :: p in now.queue <==> p in was.queue || SomeArrival(arrivals, was.offered, latencyMs, p))
  }

  /** The offer an arrival makes. */
  predicate Offers(a: Received, latencyMs: int, o: Offer) {
    && o.peer == a.peer && o.bytes == a.bytes && !o.outbound && o.lost == a.lost && o.at == a.at
    && o.delayMs == Max(0, latencyMs + a.jitterMs)
  }

  lemma SomeArrivalNext(arrivals: seq<Received>, first: nat, latencyMs: int, p: Pending)
    requires arrivals != []
    ensures var n := |arrivals| - 1;
            SomeArrival(arrivals, first, latencyMs, p)
            <==> SomeArrival(arrivals[..n], first, latencyMs, p) || ComesAs(arrivals[n], first + n, latencyMs, p)
  {
    var n := |arrivals| - 1;
    var init := arrivals[..n];
    if SomeArrival(init, first, latencyMs, p) {
      var j :| 0 <= j < |init| && ComesAs(init[j], first + j, latencyMs, p);
      assert ComesAs(arrivals[j], first + j, latencyMs, p);
    }
    if SomeArrival(arrivals, first, latencyMs, p) {
      var j :| 0 <= j < |arrivals| && ComesAs(arrivals[j], first + j, latencyMs, p);
      if j < n { assert ComesAs(init[j], first + j, latencyMs, p); }
    }
  }

  lemma QueueAfterOne(l: Ledger, a: Received, latencyMs: int, o: Offer, p: Pending)
    requires Offers(a, latencyMs, o)
    ensures p in Admit(l, o).queue <==> p in l.queue || ComesAs(a, l.offered, latencyMs, p)
  {
  }

  /** These offers are those of these arrivals, one by one. */
  ghost predicate OffersOf(arrivals: seq<Received>, offers: seq<Offer>, latencyMs: int) {
    |offers| == |arrivals| && forall i :: 0 <= i < |arrivals| ==> Offers(arrivals[i], latencyMs, offers[i])
  }

  lemma {:induction false} QueueArrives(was: Ledger, arrivals: seq<Received>, offers: seq<Offer>, latencyMs: int,
                                        p: Pending)
    requires OffersOf(arrivals, offers, latencyMs)
    ensures p in AdmitAll(was, offers).queue <==> p in was.queue || SomeArrival(arrivals, was.offered, latencyMs, p)
  {
    if arrivals != [] {
      var n := |arrivals| - 1;
      QueueArrives(was, arrivals[..n], offers[..n], latencyMs, p);
      CountArrives(was, offers[..n]);
      QueueAfterOne(AdmitAll(was, offers[..n]), arrivals[n], latencyMs, offers[n], p);
      SomeArrivalNext(arrivals, was.offered, latencyMs, p);
    }
  }

  lemma {:induction false} FateArrives(was: Ledger, arrivals: seq<Received>, offers: seq<Offer>, latencyMs: int, i: nat)
    requires OffersOf(arrivals, offers, latencyMs) && i < |arrivals|
    ensures Fated(AdmitAll(was, offers), arrivals[i], was.offered + i)
  {
    var n := |arrivals| - 1;
    var before := AdmitAll(was, offers[..n]);
    CountArrives(was, offers[..n]);
    assert Offers(arrivals[n], latencyMs, offers[n]) && before.offered == was.offered + n;
    if i < n {
      FateArrives(was, arrivals[..n], offers[..n], latencyMs, i);
    }
  }

  lemma AllArrive(was: Ledger, arrivals: seq<Received>, offers: seq<Offer>, latencyMs: int)
    requires OffersOf(arrivals, offers, latencyMs)
    ensures Arrived(was, AdmitAll(was, offers), arrivals, latencyMs)
  {
    forall p ensures p in AdmitAll(was, offers).queue
                     <==> p in was.queue || SomeArrival(arrivals, was.offered, latencyMs, p)
    {
      QueueArrives(was, arrivals, offers, latencyMs, p);
    }
    forall i | 0 <= i < |arrivals| ensures Fated(AdmitAll(was, offers), arrivals[i], was.offered + i) {
      FateArrives(was, arrivals, offers, latencyMs, i);
    }
    CountArrives(was, offers);
  }

  lemma {:induction false} CountArrives(was: Ledger, offers: seq<Offer>)
    ensures AdmitAll(was, offers).offered == was.offered + |offers| && AdmitAll(was, offers).log == was.log
  {
    if offers != [] { CountArrives(was, offers[..|offers| - 1]); }
  }

  /** What a receive call returns had been waiting or has just arrived, and is due; it is cut to `cap` bytes. */
  ghost predicate HandedInTime(was: Ledger, arrivals: seq<Received>, latencyMs: int, takeAt: nat, cap: nat,
                               r: Option<Delivery>)
  {
    r.Some? ==>
      exists p ::
        && (p in was.queue || SomeArrival(arrivals, was.offered, latencyMs, p))
        && !p.outbound && p.deliverAt <= takeAt
        && r.value.peer == p.peer && r.value.bytes <= p.bytes && |r.value.bytes| == Min(cap, |p.bytes|)
  }

  lemma NothingEarly(was: Ledger, admitted: Ledger, flushed: Ledger, end: Ledger, arrivals: seq<Received>,
                     latencyMs: int, sent: seq<Pending>, flushAt: nat, takeAt: nat, cap: nat, r: Option<Delivery>)
    requires Arrived(was, admitted, arrivals, latencyMs) && Flushed(admitted, flushed, sent, flushAt)
    requires Taken(flushed, end, takeAt, cap, r)
    ensures HandedInTime(was, arrivals, latencyMs, takeAt, cap, r)
  {
    if r.Some? {
      var p :| TakenOne(flushed, end, takeAt, cap, r, p);
      assert p in admitted.queue;
      assert p in was.queue || SomeArrival(arrivals, was.offered, latencyMs, p);
    }
  }

  class LaggedSocket {
    const sendLatencyMs: int
    const recvLatencyMs: int
    var queue: set<Pending>
    var offered: nat
    ghost var ledger: Ledger      // the queue and how it came about
    ghost var history: seq<Move>  // everything that has been done to it

    ghost predicate Coherent()
      reads this
    {
      queue == ledger.queue && offered == ledger.offered
    }

    ghost predicate Valid()
      reads this
    {
      Coherent() && Sound(ledger) && Explains(history, ledger)
    }

    constructor (sendLatencyMs: int, recvLatencyMs: int)
      ensures Valid() && ledger == EMPTY
      ensures this.sendLatencyMs == sendLatencyMs && this.recvLatencyMs == recvLatencyMs
    {
      this.sendLatencyMs, this.recvLatencyMs := sendLatencyMs, recvLatencyMs;
      queue, offered := {}, 0;
      ledger, history := EMPTY, [];
    }

    method Push(o: Offer)
      requires Valid() && ledger.clock <= o.at
      modifies this
      ensures Valid() && ledger == Admit(old(ledger), o)
    {
      AdmitKeeps(ledger, o);
      Extend(history, ledger, Comes(o));
      Enqueue(o);
    }

    method Enqueue(o: Offer)
      requires Coherent()
      modifies this
      ensures Coherent() && ledger == Admit(old(ledger), o) && history == old(history) + [Comes(o)]
    {
      if !o.lost && !(o.outbound && o.delayMs == 0) {
        queue := queue + {Pending(offered, o.at + o.delayMs * 1000, o.peer, o.bytes, o.outbound)};
      }
      offered := offered + 1;
      ledger, history := Admit(ledger, o), history + [Comes(o)];
    }

    /** Dropped, sent at once, or queued until its deadline. */
    method SendTo(peer: Endpoint, data: Bytes, lost: bool, jitterMs: int, now: nat)
      returns (sentNow: Option<Datagram>)
      requires Valid() && ledger.clock <= now
      modifies this
      ensures Valid()
      ensures var delay := Max(0, sendLatencyMs + jitterMs);
              && ledger == Admit(old(ledger), Offer(peer, data, true, lost, delay, now))
              && sentNow == (if !lost && delay == 0 then Some(Datagram(peer, data)) else None)
              && queue == old(queue) + if lost || delay == 0 then {}
                                       else {Pending(old(offered), now + 1000 * delay, peer, data, true)}
    {
      var delay := Max(0, sendLatencyMs + jitterMs);
      Push(Offer(peer, data, true, lost, delay, now));
      sentNow := if !lost && delay == 0 then Some(Datagram(peer, data)) else None;
    }

    /** `queue_.top()`; which of several equal deadlines comes first is unspecified. */
    method Top() returns (p: Pending)
      requires queue != {}
      ensures Earliest(queue, p)
    {
      EarliestExists(queue);
      p :| p in queue && forall q :: q in queue ==> p.deliverAt <= q.deliverAt;
    }

    method Pop(p: Pending, now: nat)
      requires Valid() && EarliestOfItsKind(queue, p) && Matured(p, now) && ledger.clock <= now
      modifies this
      ensures Valid() && ledger == ReleaseOne(old(ledger), p, now)
    {
      ReleaseKeeps(ledger, p, now);
      Extend(history, ledger, Leaves(p, now));
      queue := queue - {p};
      ledger, history := ReleaseOne(ledger, p, now), history + [Leaves(p, now)];
    }

    /** Time passes. */
    ghost method Wait(now: nat)
      requires Valid() && ledger.clock <= now
      modifies this`ledger, this`history
      ensures Valid() && ledger == old(ledger).(clock := now)
    {
      WaitKeeps(ledger, now);
      Extend(history, ledger, Waits(now));
      ledger, history := ledger.(clock := now), history + [Waits(now)];
    }

    /** Sends matured outbound datagrams in order, but stops at a matured inbound one. */
    method FlushOutbound(now: nat) returns (sent: seq<Pending>)
      requires Valid() && ledger.clock <= now
      modifies this
      ensures Valid() && Flushed(old(ledger), ledger, sent, now)
    {
      ghost var was := ledger;
      sent := [];
      Wait(now);
      while queue != {}
        invariant Valid() && ledger.clock == now
        invariant Flushing(was, ledger, sent, now)
        decreases queue
      {
        var top := Top();
        if top.deliverAt > now || !top.outbound { return; }
        FlushStep(was, ledger, sent, now, top);
        Pop(top, now);
        sent := sent + [top];
      }
    }

    /** Pops everything looking for the earliest matured inbound datagram, then puts the rest back. */
    method Take(now: nat, cap: nat) returns (r: Option<Delivery>)
      requires Valid() && ledger.clock <= now
      modifies this
      ensures Valid() && Taken(old(ledger), ledger, now, cap, r)
    {
      ghost var was := ledger;
      var held: set<Pending> := {};
      while queue != {}
        invariant queue !! held && queue + held == was.queue
        invariant ledger == was && offered == was.offered && Sound(was) && Explains(history, was)
        invariant forall h :: h in held ==> h.outbound || !Matured(h, now)
        decreases queue
      {
        var top := Top();
        if !top.outbound && top.deliverAt <= now {
          r := Some(Delivery(top.peer, top.bytes[..Min(cap, |top.bytes|)]));
          queue := queue + held;
          assert EarliestOfItsKind(queue, top);
          Pop(top, now);
          assert TakenOne(was, ledger, now, cap, r, top);
          return;
        }
        queue := queue - {top};
        held := held + {top};
      }
      queue := held;
      assert MaturedInbound(queue, now) == {};
      Wait(now);
      r := None;
    }

    method RecvFrom(cap: nat, arrivals: seq<Received>, flushAt: nat, takeAt: nat)
      returns (r: Option<Delivery>, sent: seq<Pending>, ghost admitted: Ledger, ghost flushed: Ledger)
      requires Valid()
      requires forall i :: 0 <= i < |arrivals| ==> ledger.clock <= arrivals[i].at <= flushAt
      requires forall i, j :: 0 <= i < j < |arrivals| ==> arrivals[i].at <= arrivals[j].at
      requires ledger.clock <= flushAt <= takeAt
      modifies this
      ensures Valid()
      ensures Arrived(old(ledger), admitted, arrivals, recvLatencyMs)
      ensures admitted == AdmitAll(old(ledger), Inbound(arrivals))
      ensures Flushed(admitted, flushed, sent, flushAt)
      ensures Taken(flushed, ledger, takeAt, cap, r)
      ensures HandedInTime(old(ledger), arrivals, recvLatencyMs, takeAt, cap, r)
    {
      ghost var was := ledger;
      Absorb(arrivals, flushAt);
      InboundArrives(was, arrivals);
      admitted := ledger;
      sent := FlushOutbound(flushAt);
      flushed := ledger;
      r := Take(takeAt, cap);
      NothingEarly(was, admitted, flushed, ledger, arrivals, recvLatencyMs, sent, flushAt, takeAt, cap, r);
    }

    /** Drains the real socket into the queue. */
    method Absorb(arrivals: seq<Received>, ghost until: nat)
      requires Valid() && ledger.clock <= until
      requires forall i :: 0 <= i < |arrivals| ==> ledger.clock <= arrivals[i].at <= until
      requires forall i, j :: 0 <= i < j < |arrivals| ==> arrivals[i].at <= arrivals[j].at
      modifies this
      ensures Valid() && ledger.clock <= until
      ensures ledger == AdmitAll(old(ledger), Inbound(arrivals))
    {
      ghost var was, offers := ledger, Inbound(arrivals);
      var i := 0;
      while i < |arrivals|
        invariant 0 <= i <= |arrivals|
        invariant Valid() && ledger == AdmitAll(was, offers[..i])
        invariant forall j :: i <= j < |arrivals| ==> ledger.clock <= arrivals[j].at
        invariant ledger.clock <= until
      {
        AdmitNext(was, offers, i);
        Push(AsOffer(arrivals[i]));
        i := i + 1;
      }
      assert offers[..i] == offers;
    }

    function AsOffer(a: Received): Offer {
      Offer(a.peer, a.bytes, false, a.lost, Max(0, recvLatencyMs + a.jitterMs), a.at)
    }

    function Inbound(arrivals: seq<Received>): seq<Offer> {
      seq(|arrivals|, i requires 0 <= i < |arrivals| => AsOffer(arrivals[i]))
    }

    lemma InboundArrives(l: Ledger, arrivals: seq<Received>)
      ensures Arrived(l, AdmitAll(l, Inbound(arrivals)), arrivals, recvLatencyMs)
    {
      AllArrive(l, arrivals, Inbound(arrivals), recvLatencyMs);
    }

    method Pump(now: nat) returns (sent: seq<Pending>)
      requires Valid() && ledger.clock <= now
      modifies this
      ensures Valid() && Flushed(old(ledger), ledger, sent, now)
    {
      sent := FlushOutbound(now);
    }

    /** One turn of the receive loop at a frozen clock, with nothing arriving. */
    method ReceiveNext(now: nat, cap: nat) returns (r: Option<Delivery>, ghost p: Option<Pending>)
      requires Valid() && ledger.clock <= now
      modifies this
      ensures Valid() && ledger.clock <= now
      ensures Handed(MaturedInbound(old(queue), now), MaturedInbound(queue, now), cap, r, p)
      ensures r.None? ==> forall q :: q in queue ==> !Matured(q, now)
    {
      var sent;
      ghost var admitted, flushed;
      r, sent, admitted, flushed := RecvFrom(cap, [], now, now);
      FlushKeepsInbound(admitted, flushed, sent, now);
      p := TakeShrinks(flushed, ledger, now, cap, r);
      if r.None? {
        assert forall q :: q in queue && !q.outbound && Matured(q, now) ==> q in MaturedInbound(flushed.queue, now);
      }
    }

    /** The receive loop of the server (`handle_inbound_udp`) at a frozen clock, with nothing arriving:
        the matured inbound datagrams are delivered in deadline order, each once and cut to `cap` bytes. If there
        are fewer than 256 it takes one more call than there are, and then nothing matured is left in either
        direction although every single flush may have stopped early. */
    method Drain(now: nat, cap: nat) returns (got: seq<Delivery>, calls: nat, ghost taken: seq<Pending>)
      requires Valid() && ledger.clock <= now
      modifies this
      ensures Valid()
      ensures Delivered(MaturedInbound(old(queue), now), got, taken, MaturedInbound(queue, now), cap)
      ensures var waiting := |MaturedInbound(old(queue), now)|;
              if waiting < RECV_GUARD
              then calls == waiting + 1 && |got| == waiting && forall p :: p in queue ==> !Matured(p, now)
              else calls == |got| == RECV_GUARD
    {
      ghost var was := MaturedInbound(queue, now);
      got, calls, taken := [], 0, [];
      while calls < RECV_GUARD
        invariant Valid() && ledger.clock <= now && calls == |got| <= RECV_GUARD
        invariant Delivered(was, got, taken, MaturedInbound(queue, now), cap)
      {
        ghost var left := MaturedInbound(queue, now);
        var r;
        ghost var p;
        r, p := ReceiveNext(now, cap);
        calls := calls + 1;
        if r.None? {
          DeliveredCounts(was, got, taken, left, cap);
          return;
        }
        DeliverOne(was, got, taken, left, cap, MaturedInbound(queue, now), r, p);
        got, taken := got + [r.value], taken + [p.value];
      }
      DeliveredCounts(was, got, taken, MaturedInbound(queue, now), cap);
    }
  }
}

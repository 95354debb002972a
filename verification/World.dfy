/** server/world_state.cpp: the authoritative simulation. */
module World {
  import opened Constants
  import opened Types
  import opened Motion

  datatype ServerPlayer = ServerPlayer(
    state: PlayerState, pendingMx: i8, pendingMy: i8, hasPending: bool, latestSeenSeq: u32)

  /** One INPUT_COMMAND as the world sees it. */
  datatype InputCmd = InputCmd(seqNo: u32, mx: i8, my: i8)

  function Fresh(id: u16): ServerPlayer {
    ServerPlayer(PlayerState(id, CENTRE, Vec2(0.0, 0.0), 0), 0, 0, false, 0)
  }

  function ClampDir(m: i8): i8 {
    Max(-1, Min(1, m))
  }

  /** The input register after accepting `c`. */
  function Written(p: ServerPlayer, c: InputCmd): ServerPlayer {
    p.(latestSeenSeq := c.seqNo,
       pendingMx := ClampDir(c.mx), pendingMy := ClampDir(c.my), hasPending := true,
       state := p.state.(lastProcessedInputSeq := c.seqNo))
  }

  /** A strictly older number is dropped; an equal one is accepted. */
  function Offer(p: ServerPlayer, c: InputCmd): ServerPlayer {
    if c.seqNo < p.latestSeenSeq then p else Written(p, c)
  }

  function OfferAll(p: ServerPlayer, cmds: seq<InputCmd>): ServerPlayer {
    if cmds == [] then p else Offer(OfferAll(p, cmds[..|cmds| - 1]), cmds[|cmds| - 1])
  }

  /** One turn of the loop in `step_tick`. */
  function StepPlayer(ops: VectorOps, p: ServerPlayer): (r: ServerPlayer)
    ensures r.state.id == p.state.id
  {
    var dt := ops.narrow(DT_SECONDS);
    var dir := ops.direction(p.pendingMx, p.pendingMy);
    var vel := ops.scale(dir, PLAYER_SPEED);
    var pos := ops.add(p.state.pos, ops.scale(vel, dt));
    p.(state := p.state.(vel := vel, pos := ClampToArena(pos)))
  }

  function StepAll(ops: VectorOps, players: map<u16, ServerPlayer>): map<u16, ServerPlayer> {
    map id | id in players :: StepPlayer(ops, players[id])
  }

  /** `step_tick` half-way: the players in `todo` are still as in `was`, the others as in `goal`. */
  ghost predicate HalfWay<V(!new)>(was: map<u16, V>, now: map<u16, V>, goal: map<u16, V>, todo: set<u16>) {
    && was.Keys == now.Keys == goal.Keys && todo <= was.Keys
    && forall id :: id in was ==> now[id] == if id in todo then was[id] else goal[id]
  }

  lemma OneMore<V(!new)>(was: map<u16, V>, now: map<u16, V>, goal: map<u16, V>, todo: set<u16>, id: u16)
    requires HalfWay(was, now, goal, todo) && id in todo
    ensures HalfWay(was, now[id := goal[id]], goal, todo - {id})
  {
  }

  lemma SteppedKeyed(ops: VectorOps, players: map<u16, ServerPlayer>)
    requires KeyedById(players)
    ensures KeyedById(StepAll(ops, players)) && StepAll(ops, players).Keys == players.Keys
  {
  }

  /** The authoritative step and the predicted step are the same function of position, direction and time,
      whatever the vector operations compute. */
  lemma ServerMovesAsClient(ops: VectorOps, p: ServerPlayer)
    ensures StepPlayer(ops, p).state.pos == ApplyMove(ops, p.state.pos, p.pendingMx, p.pendingMy, DT_SECONDS)
    ensures StepPlayer(ops, p).state.vel == ops.scale(ops.direction(p.pendingMx, p.pendingMy), PLAYER_SPEED)
    ensures StepPlayer(ops, p).(state := p.state) == p
    ensures StepPlayer(ops, p).state.lastProcessedInputSeq == p.state.lastProcessedInputSeq
  {
  }

  /** Over the reals the velocity a tick sets is 240 units a second in the player's direction, as far as the root is
      exact; without a direction it is zero. */
  lemma ExactVelocity(root: nat -> real, p: ServerPlayer, n: nat)
    requires n == p.pendingMx * p.pendingMx + p.pendingMy * p.pendingMy
    requires n > 0 ==> root(n) > 0.0
    ensures var vel := StepPlayer(ExactOps(root), p).state.vel;
            if n > 0
            then vel.x * root(n) == p.pendingMx as real * 240.0 && vel.y * root(n) == p.pendingMy as real * 240.0
            else root(0) == 0.0 ==> vel == Vec2(0.0, 0.0)
  {
    var vel := StepPlayer(ExactOps(root), p).state.vel;
    ServerMovesAsClient(ExactOps(root), p);
    assert vel == Scaled(NormalizeDir(root, p.pendingMx, p.pendingMy), PLAYER_SPEED);
    if n > 0 {
      NormalizedIsUnit(root, p.pendingMx, p.pendingMy, n);
      var d := NormalizeDir(root, p.pendingMx, p.pendingMy);
      Regrouped(d.x, 240.0, 1.0, root(n), p.pendingMx as real);
      Regrouped(d.y, 240.0, 1.0, root(n), p.pendingMy as real);
    } else {
      NoDirection(p.pendingMx, p.pendingMy);
      if root(0) == 0.0 { ZeroVelocity(root); }
    }
  }

  lemma NoDirection(mx: i8, my: i8)
    requires mx * mx + my * my == 0
    ensures mx == 0 && my == 0
  {
    assert mx * mx >= 0 && my * my >= 0 && (mx != 0 ==> mx * mx > 0) && (my != 0 ==> my * my > 0);
  }

  /** `out` lists every player's state once; the order of a `std::unordered_map` is unspecified. */
  ghost predicate Enumerates(out: seq<PlayerState>, players: map<u16, ServerPlayer>) {
    && |out| == |players|
    && (forall i :: 0 <= i < |out| ==> out[i].id in players && out[i] == players[out[i].id].state)
    && (forall i, j :: 0 <= i < j < |out| ==> out[i].id != out[j].id)
    && (forall id :: id in players ==> players[id].state in out)
  }

  ghost predicate KeyedById(players: map<u16, ServerPlayer>) {
    forall id :: id in players ==> players[id].state.id == id
  }

  class WorldState {
    const ops: VectorOps
    var players: map<u16, ServerPlayer>
    var tick: u32

    ghost predicate Valid()
      reads this
    {
      KeyedById(players)
    }

    constructor (ops: VectorOps)
      ensures Valid() && players == map[] && tick == 0 && this.ops == ops
    {
      this.ops := ops;
      players, tick := map[], 0;
    }

    method AddPlayer(id: u16) returns (added: bool)
      requires Valid()
      modifies this
      ensures Valid() && tick == old(tick)
      ensures added == (id !in old(players))
      ensures players == if added then old(players)[id := Fresh(id)] else old(players)
    {
      if id in players { return false; }
      players := players[id := Fresh(id)];
      return true;
    }

    method RemovePlayer(id: u16) returns (removed: bool)
      requires Valid()
      modifies this
      ensures Valid() && tick == old(tick)
      ensures removed == (id in old(players))
      ensures players == old(players) - {id}
    {
      removed := id in players;
      players := players - {id};
    }

    method ApplyInput(id: u16, seqNo: u32, mx: i8, my: i8) returns (accepted: bool)
      requires Valid()
      modifies this
      ensures Valid() && tick == old(tick)
      ensures accepted <==> id in old(players) && old(players)[id].latestSeenSeq <= seqNo
      ensures players == if id in old(players)
                         then old(players)[id := Offer(old(players)[id], InputCmd(seqNo, mx, my))]
                         else old(players)
    {
      if id !in players { return false; }
      var p := players[id];
      if seqNo < p.latestSeenSeq {
        assert players == players[id := p];
        return false;
      }
      p := p.(latestSeenSeq := seqNo);
      p := p.(pendingMx := Max(-1, Min(1, mx)));
      p := p.(pendingMy := Max(-1, Min(1, my)));
      p := p.(hasPending := true);
      p := p.(state := p.state.(lastProcessedInputSeq := seqNo));
      players := players[id := p];
      return true;
    }

    method StepTick()
      requires Valid()
      modifies this
      ensures Valid()
      ensures players == StepAll(ops, old(players))
      ensures tick == (old(tick) + 1) % TWO32
    {
      ghost var was, goal := players, StepAll(ops, players);
      SteppedKeyed(ops, players);
      var todo := players.Keys;
      while todo != {}
        invariant tick == old(tick) && HalfWay(was, players, goal, todo)
        decreases |todo|
      {
        var id :| id in todo;
        OneMore(was, players, goal, todo, id);
        players := players[id := StepPlayer(ops, players[id])];
        todo := todo - {id};
      }
      assert players == goal;
      tick := (tick + 1) % TWO32;
    }

    method CollectPlayerStates() returns (out: seq<PlayerState>)
      requires Valid()
      ensures Enumerates(out, players)
    {
      out := [];
      var todo := players.Keys;
      while todo != {}
        invariant todo <= players.Keys
        invariant |out| + |todo| == |players|
        invariant forall i :: 0 <= i < |out| ==> out[i].id in players && out[i].id !in todo
        invariant forall i :: 0 <= i < |out| ==> out[i] == players[out[i].id].state
        invariant forall i, j :: 0 <= i < j < |out| ==> out[i].id != out[j].id
        invariant forall id :: id in players && id !in todo ==> players[id].state in out
        decreases |todo|
      {
        var id :| id in todo;
        ghost var before := out;
        out := out + [players[id].state];
        assert out[|before|] == players[id].state && forall s :: s in before ==> s in out;
        todo := todo - {id};
      }
    }
  }
}

/** Directions outside {-1, 0, 1}: the server clamps them, the predictor does not. */
module Clamping {
  import opened Constants
  import opened Types
  import opened Motion
  import opened World

  ghost predicate IsExactRoot(root: nat -> real) {
    forall n: nat :: root(n) >= 0.0 && root(n) * root(n) == n as real
  }

  lemma PositiveProduct(a: real, b: real)
    requires a > 0.0 && b > 0.0
    ensures a * b > 0.0
  {
  }

  lemma SquareGrows(a: real, b: real)
    requires 0.0 <= a < b
    ensures a * a < b * b
  {
    PositiveProduct(b - a, b + a);
    assert (b - a) * (b + a) == b * b - a * a;
  }

  lemma SquaresAgree(a: real, b: real)
    requires a >= 0.0 && b >= 0.0 && a * a == b * b
    ensures a == b
  {
    if a < b { SquareGrows(a, b); }
    if b < a { SquareGrows(b, a); }
  }

  lemma ProductSquare(r: real, m: real)
    ensures (r * m) * (r * m) == (r * r) * (m * m)
  {
  }

  lemma RootScales(root: nat -> real, k: nat, n: nat, kn: nat)
    requires IsExactRoot(root) && kn == k * k * n
    ensures root(kn) == k as real * root(n)
  {
    var r, m := k as real, root(n);
    ProductSquare(r, m);
    assert m * m == n as real && r * r == (k * k) as real;
    assert (k * k) as real * n as real == kn as real;
    ProductSign(r, m);
    SquaresAgree(root(kn), r * m);
  }

  lemma QuotientScales(k: real, x: real, m: real)
    requires k > 0.0 && m > 0.0
    ensures k * m > 0.0 && (k * x) / (k * m) == x / m
  {
    var q := x / m;
    assert q * m == x;
    PositiveProduct(k, m);
    assert q * (k * m) == k * (q * m);
  }

  lemma RootPositive(root: nat -> real, x: i8, y: i8) returns (n: nat)
    requires IsExactRoot(root) && (x != 0 || y != 0)
    ensures n == x * x + y * y && root(n) > 0.0
    ensures NormalizeDir(root, x, y) == Vec2(x as real / root(n), y as real / root(n))
  {
    assert x * x >= 0 && y * y >= 0 && (x != 0 ==> x * x > 0) && (y != 0 ==> y * y > 0);
    n := x * x + y * y;
    assert root(n) * root(n) == n as real;
  }

  lemma ScaledSquare(k: int, x: int, y: int)
    ensures (k * x) * (k * x) + (k * y) * (k * y) == k * k * (x * x + y * y)
  {
  }

  /** Stretching a direction does not change where it points. */
  lemma SameDirection(root: nat -> real, k: nat, x: i8, y: i8, mx: i8, my: i8)
    requires IsExactRoot(root) && k > 0 && mx == k * x && my == k * y && (x != 0 || y != 0) && (mx != 0 || my != 0)
    ensures NormalizeDir(root, mx, my) == NormalizeDir(root, x, y)
  {
    var n := RootPositive(root, x, y);
    var kn := RootPositive(root, mx, my);
    ScaledSquare(k, x, y);
    RootScales(root, k, n, kn);
    StretchedQuotient(k, x, mx, root(n), root(kn));
    StretchedQuotient(k, y, my, root(n), root(kn));
  }

  lemma StretchedQuotient(k: nat, x: i8, mx: i8, m: real, km: real)
    requires k > 0 && mx == k * x && m > 0.0 && km > 0.0 && km == k as real * m
    ensures mx as real / km == x as real / m
  {
    QuotientScales(k as real, x as real, m);
    assert mx as real == k as real * x as real;
  }

  lemma QuotientsDiffer(x: real, y: real, m: real)
    requires m > 0.0 && x != y && x != -y
    ensures x / m != y / m && x / m != -(y / m)
  {
    var u, v := x / m, y / m;
    assert u * m == x && v * m == y && (-v) * m == -y;
  }

  lemma OppositeQuotient(x: real, y: real, m: real)
    requires m > 0.0 && (x == y || x == -y)
    ensures x / m == y / m || x / m == -(y / m)
  {
    assert (-y) / m == -(y / m);
  }

  /** A direction off the axes and the diagonals does not point along a diagonal. */
  lemma OtherDirection(root: nat -> real, x: i8, y: i8, mx: i8, my: i8)
    requires IsExactRoot(root) && mx != 0 && my != 0 && mx != my && mx + my != 0
    requires (x == 1 || x == -1) && (y == 1 || y == -1)
    ensures NormalizeDir(root, mx, my) != NormalizeDir(root, x, y)
  {
    var n := RootPositive(root, x, y);
    var kn := RootPositive(root, mx, my);
    QuotientsDiffer(mx as real, my as real, root(kn));
    OppositeQuotient(x as real, y as real, root(n));
  }

  lemma SameVelocity(root: nat -> real, x: i8, y: i8, mx: i8, my: i8)
    ensures Velocity(root, x, y) == Velocity(root, mx, my) <==> NormalizeDir(root, x, y) == NormalizeDir(root, mx, my)
  {
    ScaledInjective(NormalizeDir(root, x, y), NormalizeDir(root, mx, my));
  }

  lemma ScaledInjective(u: Vec2, v: Vec2)
    ensures Scaled(u, PLAYER_SPEED) == Scaled(v, PLAYER_SPEED) <==> u == v
  {
  }

  lemma ClampShape(mx: i8, my: i8) returns (k: nat)
    requires (mx != 0 || my != 0) && (mx == 0 || my == 0 || mx == my || mx + my == 0)
    ensures k > 0 && mx == k * ClampDir(mx) && my == k * ClampDir(my)
  {
    var x: int, y: int := mx, my;
    k := Max(Max(x, -x), Max(y, -y));
  }

  /** With exact roots, the clamped and the unclamped direction give the same velocity exactly on the axes and the
      diagonals. A client that sent anything else, such as (2, 1), would predict another motion than the server's. */
  lemma ClampAgreesIff(root: nat -> real, mx: i8, my: i8)
    requires IsExactRoot(root)
    ensures Velocity(root, ClampDir(mx), ClampDir(my)) == Velocity(root, mx, my)
            <==> mx == 0 || my == 0 || mx == my || mx + my == 0
  {
    SameVelocity(root, ClampDir(mx), ClampDir(my), mx, my);
    if mx == 0 && my == 0 {
    } else if mx == 0 || my == 0 || mx == my || mx + my == 0 {
      var k := ClampShape(mx, my);
      SameDirection(root, k, ClampDir(mx), ClampDir(my), mx, my);
    } else {
      OtherDirection(root, ClampDir(mx), ClampDir(my), mx, my);
    }
  }
}

/** The input register as a last-writer-wins register over an unreliable network. */
module InputRegister {
  import opened Types
  import opened World

  ghost predicate Synced(p: ServerPlayer) {
    p.latestSeenSeq == p.state.lastProcessedInputSeq
  }

  function MaxSeq(least: u32, cmds: seq<InputCmd>): u32 {
    if cmds == [] then least else Max(MaxSeq(least, cmds[..|cmds| - 1]), cmds[|cmds| - 1].seqNo)
  }

  /** After any inputs, in any order and with any repeats, both numbers are the largest one offered. */
  lemma {:induction false} RegisterHoldsMaximum(p: ServerPlayer, cmds: seq<InputCmd>)
    requires Synced(p)
    ensures OfferAll(p, cmds).latestSeenSeq == MaxSeq(p.latestSeenSeq, cmds)
    ensures Synced(OfferAll(p, cmds))
  {
    if cmds != [] { RegisterHoldsMaximum(p, cmds[..|cmds| - 1]); }
  }

  lemma {:induction false} MaxSeqIsMaximum(least: u32, cmds: seq<InputCmd>)
    ensures least <= MaxSeq(least, cmds)
    ensures forall c :: c in cmds ==> c.seqNo <= MaxSeq(least, cmds)
    ensures MaxSeq(least, cmds) == least || exists c :: c in cmds && c.seqNo == MaxSeq(least, cmds)
  {
    if cmds != [] {
      var init := cmds[..|cmds| - 1];
      MaxSeqIsMaximum(least, init);
      assert cmds[|cmds| - 1] in cmds && forall c :: c in cmds ==> c in init || c == cmds[|cmds| - 1];
    }
  }

  /** The flag is raised by the first offer that is not stale, and stays up; nothing else of the player changes. */
  lemma {:induction false} FlagRaised(p: ServerPlayer, cmds: seq<InputCmd>)
    ensures var r := OfferAll(p, cmds);
            && (r.hasPending <==> p.hasPending || exists c :: c in cmds && p.latestSeenSeq <= c.seqNo)
            && r.state.id == p.state.id && r.state.pos == p.state.pos && r.state.vel == p.state.vel
            && p.latestSeenSeq <= r.latestSeenSeq
  {
    if cmds != [] {
      var init, last := cmds[..|cmds| - 1], cmds[|cmds| - 1];
      FlagRaised(p, init);
      FlagOfLast(p, cmds);
      if last.seqNo < OfferAll(p, init).latestSeenSeq && p.latestSeenSeq <= last.seqNo {
        StaleLeaves(p, init);
      }
    }
  }

  lemma FlagOfLast(p: ServerPlayer, cmds: seq<InputCmd>)
    requires cmds != []
    ensures var init, last := cmds[..|cmds| - 1], cmds[|cmds| - 1];
            (exists c :: c in cmds && p.latestSeenSeq <= c.seqNo)
            <==> (exists c :: c in init && p.latestSeenSeq <= c.seqNo) || p.latestSeenSeq <= last.seqNo
  {
    var init, last := cmds[..|cmds| - 1], cmds[|cmds| - 1];
    if c :| c in init && p.latestSeenSeq <= c.seqNo { assert c in cmds; }
    assert last in cmds && forall c :: c in cmds ==> c in init || c == last;
  }

  /** If the number has grown, something that was not stale has been offered. */
  lemma {:induction false} StaleLeaves(p: ServerPlayer, cmds: seq<InputCmd>)
    requires p.latestSeenSeq < OfferAll(p, cmds).latestSeenSeq
    ensures exists c :: c in cmds && p.latestSeenSeq <= c.seqNo
  {
    if forall c :: c in cmds ==> c.seqNo < p.latestSeenSeq {
      StaleIgnored(p, cmds);
    }
  }

  /** A client never sends two different directions under one number. */
  ghost predicate FunctionOfSeq(cmds: seq<InputCmd>) {
    forall c, d :: c in cmds && d in cmds && c.seqNo == d.seqNo ==> c == d
  }

  /** If the newest offered number is not stale, its command is what the register holds, wherever it came. */
  lemma {:induction false} NewestWins(p: ServerPlayer, cmds: seq<InputCmd>, newest: InputCmd)
    requires newest in cmds && p.latestSeenSeq <= newest.seqNo
    requires forall c :: c in cmds ==> c.seqNo < newest.seqNo || c == newest
    ensures OfferAll(p, cmds) == Written(p, newest)
  {
    var init, last := cmds[..|cmds| - 1], cmds[|cmds| - 1];
    forall c | c in init ensures c in cmds {}
    if newest in init {
      NewestWins(p, init, newest);
    } else {
      assert last == newest;
      OlderLeavesNewerRoom(p, init, newest.seqNo);
    }
  }

  /** Offers below `bound` only touch the register fields and keep it at or below `bound`. */
  lemma {:induction false} OlderLeavesNewerRoom(p: ServerPlayer, cmds: seq<InputCmd>, bound: u32)
    requires p.latestSeenSeq <= bound && forall c :: c in cmds ==> c.seqNo < bound
    ensures OfferAll(p, cmds).latestSeenSeq <= bound
    ensures forall c: InputCmd :: Written(OfferAll(p, cmds), c) == Written(p, c)
  {
    if cmds != [] {
      forall c | c in cmds[..|cmds| - 1] ensures c in cmds {}
      OlderLeavesNewerRoom(p, cmds[..|cmds| - 1], bound);
      assert cmds[|cmds| - 1] in cmds;
    }
  }

  lemma {:induction false} StaleIgnored(p: ServerPlayer, cmds: seq<InputCmd>)
    requires forall c :: c in cmds ==> c.seqNo < p.latestSeenSeq
    ensures OfferAll(p, cmds) == p
  {
    if cmds != [] {
      forall c | c in cmds[..|cmds| - 1] ensures c in cmds {}
      StaleIgnored(p, cmds[..|cmds| - 1]);
      assert cmds[|cmds| - 1] in cmds;
    }
  }

  ghost predicate InRange(p: ServerPlayer) {
    -1 <= p.pendingMx <= 1 && -1 <= p.pendingMy <= 1
  }

  /** Whatever was offered, the simulated direction is one of nine; one that already is stays as it is. */
  lemma {:induction false} DirectionsStayInRange(p: ServerPlayer, cmds: seq<InputCmd>)
    requires InRange(p)
    ensures InRange(OfferAll(p, cmds))
    ensures cmds != [] ==>
              var c := cmds[|cmds| - 1];
              -1 <= c.mx <= 1 && -1 <= c.my <= 1 && OfferAll(p, cmds).latestSeenSeq <= c.seqNo ==>
                OfferAll(p, cmds).pendingMx == c.mx && OfferAll(p, cmds).pendingMy == c.my
  {
    if cmds != [] { DirectionsStayInRange(p, cmds[..|cmds| - 1]); }
  }

  lemma NewestExists(cmds: seq<InputCmd>) returns (newest: InputCmd)
    requires cmds != [] && FunctionOfSeq(cmds)
    ensures newest in cmds
    ensures forall c :: c in cmds ==> c.seqNo < newest.seqNo || c == newest
  {
    MaxSeqIsMaximum(0, cmds);
    assert cmds[0] in cmds;
    newest :| newest in cmds && newest.seqNo == MaxSeq(0, cmds);
  }

  /** Reordering and duplicating the inputs delivered between two ticks changes nothing: the register
      depends only on which inputs arrived. */
  lemma DeliveryOrderIrrelevant(p: ServerPlayer, cmds: seq<InputCmd>, other: seq<InputCmd>)
    requires FunctionOfSeq(cmds)
    requires forall c :: c in cmds <==> c in other
    ensures OfferAll(p, cmds) == OfferAll(p, other)
  {
    if cmds == [] {
      StaleIgnored(p, other);
    } else {
      var newest := NewestExists(cmds);
      if p.latestSeenSeq <= newest.seqNo {
        NewestWins(p, cmds, newest);
        NewestWins(p, other, newest);
      } else {
        StaleIgnored(p, cmds);
        StaleIgnored(p, other);
      }
    }
  }

  /** Because an equal number is accepted again, two commands commute exactly when sharing a number
      means sharing the (clamped) direction. */
  lemma CommuteIff(c: InputCmd, d: InputCmd)
    ensures (forall p :: OfferAll(p, [c, d]) == OfferAll(p, [d, c]))
            <==> (c.seqNo == d.seqNo ==> ClampDir(c.mx) == ClampDir(d.mx) && ClampDir(c.my) == ClampDir(d.my))
  {
    if c.seqNo == d.seqNo && (ClampDir(c.mx) != ClampDir(d.mx) || ClampDir(c.my) != ClampDir(d.my)) {
      PairInOrder(Fresh(1), c, d);
      PairInOrder(Fresh(1), d, c);
      assert OfferAll(Fresh(1), [c, d]) == Written(Fresh(1), d);
      assert OfferAll(Fresh(1), [d, c]) == Written(Fresh(1), c);
    } else {
      forall p ensures OfferAll(p, [c, d]) == OfferAll(p, [d, c]) {
        PairInOrder(p, c, d);
        PairInOrder(p, d, c);
      }
    }
  }

  lemma PairInOrder(p: ServerPlayer, c: InputCmd, d: InputCmd)
    ensures OfferAll(p, [c, d]) == Offer(Offer(p, c), d)
  {
    assert [c, d][..1] == [c] && [c][..0] == [];
    assert OfferAll(p, [c]) == Offer(OfferAll(p, []), c);
  }
}

/** client/interpolation.cpp: remote players are drawn 100 ms in the past, between two samples. */
module Interpolation {
  import opened Constants
  import opened Types
  import opened Motion

  datatype InterpSample = InterpSample(pos: Vec2, vel: Vec2, recvMs: u64)

  type History = seq<InterpSample>

  function Lerp(a: real, b: real, t: real): real {
    a + (b - a) * t
  }

  function LerpVec(a: Vec2, b: Vec2, t: real): Vec2 {
    Vec2(Lerp(a.x, b.x, t), Lerp(a.y, b.y, t))
  }

  /** Where between two distinct times a third one lies. */
  function Fraction(from: u64, to: u64, at: u64): real
    requires from < to
  {
    (at - from) as real / (to - from) as real
  }

  function Between(a: InterpSample, b: InterpSample, at: u64): Vec2
    requires a.recvMs < b.recvMs
  {
    LerpVec(a.pos, b.pos, Fraction(a.recvMs, b.recvMs, at))
  }

  ghost predicate Increasing(h: History) {
    forall i :: 0 < i < |h| ==> h[i - 1].recvMs < h[i].recvMs
  }

  /** What a receive thread with a monotone clock produces: two samples may share a millisecond. */
  ghost predicate NonDecreasing(h: History) {
    forall i :: 0 < i < |h| ==> h[i - 1].recvMs <= h[i].recvMs
  }

  /** The reference: the piecewise-linear curve through the samples, held constant outside them. */
  function Curve(h: History, at: u64): Vec2
    requires h != []
  {
    if |h| == 1 || at <= h[0].recvMs then h[0].pos
    else if at <= h[1].recvMs && h[0].recvMs < h[1].recvMs then Between(h[0], h[1], at)
    else Curve(h[1..], at)
  }

  /** The newest sample is older than two seconds; the subtraction wraps. */
  predicate Stale(h: History, now: u64)
    requires h != []
  {
    Sub64(now, h[|h| - 1].recvMs) > ENTITY_STALE_MS
  }

  /** The first two samples share the very millisecond that is to be drawn. */
  predicate StartsWithTie(h: History, at: u64) {
    |h| > 1 && h[0].recvMs == h[1].recvMs == at
  }

  predicate Brackets(h: History, i: nat, target: u64)
    requires 0 < i < |h|
  {
    h[i - 1].recvMs <= target <= h[i].recvMs
  }

  /** The pair the search stops at. */
  ghost predicate FirstBracket(h: History, i: nat, target: u64) {
    0 < i < |h| && Brackets(h, i, target) && forall j :: 0 < j < i ==> !Brackets(h, j, target)
  }

  /** The search for two neighbouring samples around a time, from the i-th pair on. */
  function Searched(h: History, i: nat, target: u64): Vec2
    requires 0 < i <= |h|
    decreases |h| - i
  {
    if i == |h| then
      if target < h[0].recvMs then h[0].pos else h[|h| - 1].pos
    else if Brackets(h, i, target) then
      if h[i - 1].recvMs == h[i].recvMs then h[i].pos else Between(h[i - 1], h[i], target)
    else Searched(h, i + 1, target)
  }

  function Trimmed(h: History): (r: History)
    ensures |r| <= SNAPSHOT_HISTORY_SIZE
  {
    if |h| > SNAPSHOT_HISTORY_SIZE then h[|h| - SNAPSHOT_HISTORY_SIZE..] else h
  }

  class Interpolator {
    var histories: map<u16, History>

    constructor ()
      ensures histories == map[]
    {
      histories := map[];
    }

    method Ingest(remoteId: u16, s: InterpSample)
      modifies this
      ensures histories == Ingested(old(histories), remoteId, s)
    {
      var dq := (if remoteId in histories then histories[remoteId] else []) + [s];
      ghost var whole, gone := dq, 0;
      while |dq| > SNAPSHOT_HISTORY_SIZE
        invariant 0 <= gone <= |whole| && dq == whole[gone..]
        invariant |dq| >= SNAPSHOT_HISTORY_SIZE || gone == 0
      {
        assert whole[gone..][1..] == whole[gone + 1..];
        dq, gone := dq[1..], gone + 1;
      }
      histories := histories[remoteId := dq];
    }

    method RenderPosition(remoteId: u16, now: u64) returns (shown: bool, pos: Vec2)
      ensures shown <==> remoteId in histories && histories[remoteId] != []
                         && (now < INTERP_DELAY_MS || !Stale(histories[remoteId], now))
      ensures shown && now < INTERP_DELAY_MS ==>
                var h := histories[remoteId];
                pos == h[|h| - 1].pos
      ensures shown && now >= INTERP_DELAY_MS ==>
                pos == Searched(histories[remoteId], 1, now - INTERP_DELAY_MS)
      ensures shown && now >= INTERP_DELAY_MS && NonDecreasing(histories[remoteId]) ==>
                var h, at := histories[remoteId], now - INTERP_DELAY_MS;
                pos == if StartsWithTie(h, at) then h[1].pos else Curve(h, at)
    {
      pos := Vec2(0.0, 0.0);
      if remoteId !in histories || histories[remoteId] == [] { return false, pos; }
      var dq := histories[remoteId];
      if now < INTERP_DELAY_MS { return true, dq[|dq| - 1].pos; }
      var target := now - INTERP_DELAY_MS;
      if Stale(dq, now) { return false, pos; }
      if NonDecreasing(dq) { SearchedOnCurve(dq, target); }
      pos := Search(dq, target);
      return true, pos;
    }

    static method Search(dq: History, target: u64) returns (pos: Vec2)
      requires dq != []
      ensures pos == Searched(dq, 1, target)
    {
      var i := 1;
      while i < |dq|
        invariant 1 <= i <= |dq|
        invariant Searched(dq, 1, target) == Searched(dq, i, target)
      {
        var a, b := dq[i - 1], dq[i];
        if a.recvMs <= target <= b.recvMs {
          if b.recvMs == a.recvMs { return b.pos; }
          return LerpVec(a.pos, b.pos, Fraction(a.recvMs, b.recvMs, target));
        }
        i := i + 1;
      }
      if target < dq[0].recvMs { return dq[0].pos; }
      return dq[|dq| - 1].pos;
    }

    method Prune(now: u64)
      modifies this
      ensures histories == map id | id in old(histories)
                                    && old(histories)[id] != [] && !Stale(old(histories)[id], now)
                             :: old(histories)[id]
    {
      ghost var was := histories;
      var todo := histories.Keys;
      while todo != {}
        invariant todo <= was.Keys
        invariant forall id :: id in histories <==>
          id in was && (id in todo || (was[id] != [] && !Stale(was[id], now)))
        invariant forall id :: id in histories ==> histories[id] == was[id]
        decreases |todo|
      {
        var id :| id in todo;
        todo := todo - {id};
        if histories[id] == [] || Sub64(now, histories[id][|histories[id]| - 1].recvMs) > ENTITY_STALE_MS {
          histories := histories - {id};
        }
      }
    }
  }

  /** What ingesting does to the histories. */
  function Ingested(hs: map<u16, History>, id: u16, s: InterpSample): map<u16, History> {
    hs[id := Trimmed((if id in hs then hs[id] else []) + [s])]
  }

  // ----- the curve

  lemma {:induction false} TimesOrdered(h: History, i: nat, j: nat)
    requires NonDecreasing(h) && i <= j < |h|
    ensures h[i].recvMs <= h[j].recvMs
  {
    if i < j { TimesOrdered(h, i, j - 1); }
  }

  /** On the first pair that brackets a time the curve is their interpolant; only the first two samples of
      the history can be a bracket of length zero. */
  lemma {:induction false} CurveOnFirstBracket(h: History, i: nat, at: u64)
    requires NonDecreasing(h) && FirstBracket(h, i, at)
    ensures if h[i - 1].recvMs == h[i].recvMs then i == 1 && StartsWithTie(h, at)
            else Curve(h, at) == Between(h[i - 1], h[i], at) && !StartsWithTie(h, at)
  {
    if i > 1 {
      TimesOrdered(h, 0, i - 1);
      assert !Brackets(h, 1, at) && !Brackets(h, i - 1, at);
      forall j | 0 < j < i - 1 ensures !Brackets(h[1..], j, at) {
        assert !Brackets(h, j + 1, at);
      }
      CurveOnFirstBracket(h[1..], i - 1, at);
    } else if h[0].recvMs < h[1].recvMs && at == h[0].recvMs {
      AtEnds(h[0], h[1]);
    }
  }

  /** Between two neighbours of a strictly increasing history the curve is their interpolant. */
  lemma {:induction false} CurveOnSegment(h: History, i: nat, at: u64)
    requires Increasing(h) && 0 < i < |h| && Brackets(h, i, at)
    ensures Curve(h, at) == Between(h[i - 1], h[i], at)
  {
    if i == 1 {
      AtEnds(h[0], h[1]);
    } else {
      assert NonDecreasing(h[1..]);
      TimesOrdered(h[1..], 0, i - 2);
      if at == h[1].recvMs { AtEnds(h[0], h[1]); }
      CurveOnSegment(h[1..], i - 1, at);
    }
  }

  /** Outside the samples the curve holds its end values. */
  lemma {:induction false} CurveOutside(h: History, at: u64)
    requires NonDecreasing(h) && h != []
    requires forall i :: 0 < i < |h| ==> !Brackets(h, i, at)
    ensures Curve(h, at) == if at < h[0].recvMs then h[0].pos else h[|h| - 1].pos
    ensures !StartsWithTie(h, at)
  {
    if |h| > 1 && at > h[0].recvMs {
      assert !Brackets(h, 1, at);
      forall i | 0 < i < |h| - 1 ensures !Brackets(h[1..], i, at) {
        assert !Brackets(h, i + 1, at);
      }
      CurveOutside(h[1..], at);
    } else if |h| > 1 {
      assert !Brackets(h, 1, at);
    }
  }

  /** Whatever the times of a history, even running backwards, the place found is on the first pair of neighbours
      that brackets the time, and without one at the nearer end. */
  lemma {:induction false} SearchStopsAtFirst(h: History, i: nat, target: u64, k: nat)
    requires 0 < i <= k <= |h| && (forall j :: i <= j < k ==> !Brackets(h, j, target))
    requires k < |h| ==> Brackets(h, k, target)
    ensures Searched(h, i, target)
            == if k == |h| then if target < h[0].recvMs then h[0].pos else h[|h| - 1].pos
               else if h[k - 1].recvMs == h[k].recvMs then h[k].pos else Between(h[k - 1], h[k], target)
    decreases k - i
  {
    if i < k { SearchStopsAtFirst(h, i + 1, target, k); }
  }

  lemma {:induction false} FindStop(h: History, i: nat, target: u64) returns (k: nat)
    requires 0 < i <= |h| && forall j :: 0 < j < i ==> !Brackets(h, j, target)
    ensures i <= k <= |h| && (forall j :: 0 < j < k ==> !Brackets(h, j, target))
    ensures k < |h| ==> FirstBracket(h, k, target)
    decreases |h| - i
  {
    if i == |h| || Brackets(h, i, target) { k := i; } else { k := FindStop(h, i + 1, target); }
  }

  /** With a clock that does not run backwards, what is drawn is the curve, up to a tie at the start. */
  lemma SearchedOnCurve(h: History, at: u64)
    requires h != [] && NonDecreasing(h)
    ensures Searched(h, 1, at) == if StartsWithTie(h, at) then h[1].pos else Curve(h, at)
  {
    var k := FindStop(h, 1, at);
    SearchStopsAtFirst(h, 1, at, k);
    if k < |h| { CurveOnFirstBracket(h, k, at); } else { CurveOutside(h, at); }
  }

  lemma FractionInUnit(from: u64, to: u64, at: u64)
    requires from < to && from <= at <= to
    ensures 0.0 <= Fraction(from, to, at) <= 1.0
    ensures at == from ==> Fraction(from, to, at) == 0.0
    ensures at == to ==> Fraction(from, to, at) == 1.0
    ensures Fraction(from, to, at) * (to - from) as real == (at - from) as real
  {
    QuotientFacts((at - from) as real, (to - from) as real);
  }

  lemma QuotientFacts(x: real, y: real)
    requires 0.0 <= x <= y && y > 0.0
    ensures 0.0 <= x / y <= 1.0
    ensures x / y * y == x
    ensures x == 0.0 ==> x / y == 0.0
    ensures x == y ==> x / y == 1.0
  {
  }

  lemma LerpBetween(a: real, b: real, t: real)
    requires 0.0 <= t <= 1.0
    ensures (if a <= b then a else b) <= Lerp(a, b, t) <= (if a <= b then b else a)
  {
    if a <= b {
      ProductSign(b - a, t);
      ProductSign(b - a, 1.0 - t);
      assert (b - a) * (1.0 - t) == (b - a) - (b - a) * t;
    } else {
      ProductSign(a - b, t);
      ProductSign(a - b, 1.0 - t);
      assert (a - b) * (1.0 - t) == (a - b) + (b - a) * t && (a - b) * t == -((b - a) * t);
    }
  }

  ghost predicate InHull(h: History, p: Vec2, a: Axis) {
    exists i, j :: 0 <= i < |h| && 0 <= j < |h| && Coord(h[i].pos, a) <= Coord(p, a) <= Coord(h[j].pos, a)
  }

  /** No extrapolation: every rendered coordinate lies between coordinates that were received. */
  lemma {:induction false} CurveInHull(h: History, at: u64, a: Axis)
    requires h != []
    ensures InHull(h, Curve(h, at), a)
  {
    if |h| == 1 || at <= h[0].recvMs {
      assert Coord(h[0].pos, a) <= Coord(Curve(h, at), a) <= Coord(h[0].pos, a);
    } else if at <= h[1].recvMs && h[0].recvMs < h[1].recvMs {
      FractionInUnit(h[0].recvMs, h[1].recvMs, at);
      LerpBetween(Coord(h[0].pos, a), Coord(h[1].pos, a), Fraction(h[0].recvMs, h[1].recvMs, at));
      var p := Curve(h, at);
      assert Coord(p, a) == Lerp(Coord(h[0].pos, a), Coord(h[1].pos, a), Fraction(h[0].recvMs, h[1].recvMs, at));
      var lo, hi := if Coord(h[0].pos, a) <= Coord(h[1].pos, a) then 0 else 1,
                    if Coord(h[0].pos, a) <= Coord(h[1].pos, a) then 1 else 0;
      assert Coord(h[lo].pos, a) <= Coord(p, a) <= Coord(h[hi].pos, a);
    } else {
      CurveInHull(h[1..], at, a);
      var i, j :| 0 <= i < |h[1..]| && 0 <= j < |h[1..]|
                  && Coord(h[1..][i].pos, a) <= Coord(Curve(h[1..], at), a) <= Coord(h[1..][j].pos, a);
      assert h[1..][i] == h[i + 1] && h[1..][j] == h[j + 1];
    }
  }

  /** How far something no faster than `speed` gets between two times. */
  function Reach(speed: real, from: u64, to: u64): real
    requires from <= to
  {
    speed * (to - from) as real
  }

  lemma ReachAdds(speed: real, r: u64, s: u64, t: u64)
    requires r <= s <= t && speed >= 0.0
    ensures Reach(speed, r, t) == Reach(speed, r, s) + Reach(speed, s, t)
    ensures Reach(speed, r, s) >= 0.0 && Reach(speed, s, t) >= 0.0
  {
  }

  /** Neighbouring samples never differ by more than `speed` per millisecond. */
  ghost predicate SpeedLimited(h: History, speed: real, a: Axis)
    requires Increasing(h)
  {
    forall i :: 0 < i < |h| ==>
      h[i - 1].recvMs < h[i].recvMs && Gap(h[i - 1].pos, h[i].pos, a) <= Reach(speed, h[i - 1].recvMs, h[i].recvMs)
  }

  lemma SegmentSpeed(p: InterpSample, q: InterpSample, speed: real, a: Axis, s: u64, t: u64)
    requires p.recvMs < q.recvMs && p.recvMs <= s <= t <= q.recvMs
    requires Gap(p.pos, q.pos, a) <= Reach(speed, p.recvMs, q.recvMs)
    ensures Gap(Between(p, q, s), Between(p, q, t), a) <= Reach(speed, s, t)
  {
    var f, g := SegmentFractions(p, q, a, s, t);
    ReachSplits(p, q, speed, a, s, t, f, g, Between(p, q, s), Between(p, q, t));
  }

  lemma SegmentFractions(p: InterpSample, q: InterpSample, a: Axis, s: u64, t: u64) returns (f: real, g: real)
    requires p.recvMs < q.recvMs && p.recvMs <= s <= t <= q.recvMs
    ensures 0.0 <= f <= g && g * (q.recvMs - p.recvMs) as real == f * (q.recvMs - p.recvMs) as real + (t - s) as real
    ensures Coord(Between(p, q, s), a) == Lerp(Coord(p.pos, a), Coord(q.pos, a), f)
    ensures Coord(Between(p, q, t), a) == Lerp(Coord(p.pos, a), Coord(q.pos, a), g)
  {
    f, g := Fraction(p.recvMs, q.recvMs, s), Fraction(p.recvMs, q.recvMs, t);
    FractionsApart(p.recvMs, q.recvMs, s, t);
    BetweenCoord(p, q, s, a);
    BetweenCoord(p, q, t, a);
  }

  /** The two points `u` and `v` at the fractions `f` and `g` of a segment. */
  lemma ReachSplits(p: InterpSample, q: InterpSample, speed: real, a: Axis, s: u64, t: u64, f: real, g: real,
                    u: Vec2, v: Vec2)
    requires p.recvMs < q.recvMs && s <= t && Gap(p.pos, q.pos, a) <= Reach(speed, p.recvMs, q.recvMs)
    requires 0.0 <= f <= g && g * (q.recvMs - p.recvMs) as real == f * (q.recvMs - p.recvMs) as real + (t - s) as real
    requires Coord(u, a) == Lerp(Coord(p.pos, a), Coord(q.pos, a), f)
    requires Coord(v, a) == Lerp(Coord(p.pos, a), Coord(q.pos, a), g)
    ensures Gap(u, v, a) <= Reach(speed, s, t)
  {
    LerpReach(Coord(p.pos, a), Coord(q.pos, a), f, g, speed, (q.recvMs - p.recvMs) as real, (t - s) as real);
  }

  lemma LerpReach(x: real, y: real, f: real, g: real, speed: real, span: real, d: real)
    requires 0.0 <= f <= g && Abs(x - y) <= speed * span
    requires g * span == f * span + d
    ensures Abs(Lerp(x, y, f) - Lerp(x, y, g)) <= speed * d
  {
  }

  lemma BetweenCoord(p: InterpSample, q: InterpSample, at: u64, a: Axis)
    requires p.recvMs < q.recvMs
    ensures Coord(Between(p, q, at), a) == Lerp(Coord(p.pos, a), Coord(q.pos, a), Fraction(p.recvMs, q.recvMs, at))
  {
  }

  lemma FractionsApart(from: u64, to: u64, s: u64, t: u64)
    requires from < to && from <= s <= t <= to
    ensures 0.0 <= Fraction(from, to, s) <= Fraction(from, to, t)
    ensures var span := (to - from) as real;
            Fraction(from, to, t) * span == Fraction(from, to, s) * span + (t - s) as real
  {
  }

  lemma GapTriangle(p: Vec2, q: Vec2, r: Vec2, a: Axis)
    ensures Gap(p, r, a) <= Gap(p, q, a) + Gap(q, r, a)
  {
  }

  lemma AtEnds(p: InterpSample, q: InterpSample)
    requires p.recvMs < q.recvMs
    ensures Between(p, q, p.recvMs) == p.pos && Between(p, q, q.recvMs) == q.pos
  {
    FractionInUnit(p.recvMs, q.recvMs, p.recvMs);
    FractionInUnit(p.recvMs, q.recvMs, q.recvMs);
  }

  lemma TailLimited(h: History, speed: real, a: Axis)
    requires Increasing(h) && SpeedLimited(h, speed, a) && |h| > 1
    ensures Increasing(h[1..]) && SpeedLimited(h[1..], speed, a)
    ensures h[0].recvMs < h[1].recvMs && Gap(h[0].pos, h[1].pos, a) <= Reach(speed, h[0].recvMs, h[1].recvMs)
  {
  }

  lemma {:induction false} CurveFromStart(h: History, speed: real, a: Axis, t: u64)
    requires h != [] && Increasing(h) && SpeedLimited(h, speed, a) && speed >= 0.0
    requires h[0].recvMs <= t
    ensures Gap(h[0].pos, Curve(h, t), a) <= Reach(speed, h[0].recvMs, t)
  {
    ReachAdds(speed, h[0].recvMs, h[0].recvMs, t);
    if |h| > 1 && t > h[0].recvMs {
      TailLimited(h, speed, a);
      if t <= h[1].recvMs {
        AtEnds(h[0], h[1]);
        SegmentSpeed(h[0], h[1], speed, a, h[0].recvMs, t);
      } else {
        CurveFromStart(h[1..], speed, a, t);
        ReachAdds(speed, h[0].recvMs, h[1].recvMs, t);
        GapTriangle(h[0].pos, h[1].pos, Curve(h, t), a);
      }
    }
  }

  /** Rendered motion is never faster than the received motion: the curve inherits its speed limit. */
  lemma {:induction false} CurveSpeedLimited(h: History, speed: real, a: Axis, s: u64, t: u64)
    requires h != [] && Increasing(h) && SpeedLimited(h, speed, a) && speed >= 0.0
    requires s <= t
    ensures Gap(Curve(h, s), Curve(h, t), a) <= Reach(speed, s, t)
  {
    ReachAdds(speed, s, s, t);
    if |h| == 1 || t <= h[0].recvMs {
    } else if s <= h[0].recvMs {
      CurveFromStart(h, speed, a, t);
      ReachAdds(speed, s, h[0].recvMs, t);
    } else {
      TailLimited(h, speed, a);
      if t <= h[1].recvMs {
        SegmentSpeed(h[0], h[1], speed, a, s, t);
      } else if s <= h[1].recvMs {
        CurveAcrossKnot(h, speed, a, s, t);
      } else {
        CurveSpeedLimited(h[1..], speed, a, s, t);
      }
    }
  }

  lemma CurveAcrossKnot(h: History, speed: real, a: Axis, s: u64, t: u64)
    requires |h| > 1 && Increasing(h) && SpeedLimited(h, speed, a) && speed >= 0.0
    requires h[0].recvMs < s <= h[1].recvMs < t
    ensures Gap(Curve(h, s), Curve(h, t), a) <= Reach(speed, s, t)
  {
    TailLimited(h, speed, a);
    AtEnds(h[0], h[1]);
    SegmentSpeed(h[0], h[1], speed, a, s, h[1].recvMs);
    CurveFromStart(h[1..], speed, a, t);
    ReachAdds(speed, s, h[1].recvMs, t);
    GapTriangle(Curve(h, s), h[1].pos, Curve(h, t), a);
  }

  // ----- stability of what has been rendered

  lemma {:induction false} AppendKeepsPast(h: History, s: InterpSample, at: u64)
    requires Increasing(h + [s]) && h != [] && at <= h[|h| - 1].recvMs
    ensures Curve(h + [s], at) == Curve(h, at)
  {
    var g := h + [s];
    assert forall i :: 0 <= i < |h| ==> g[i] == h[i];
    if |h| > 1 && at > h[1].recvMs {
      assert g[1..] == h[1..] + [s];
      AppendKeepsPast(h[1..], s, at);
    }
  }

  lemma DropKeepsFuture(h: History, at: u64)
    requires Increasing(h) && |h| > 1 && h[1].recvMs <= at
    ensures Curve(h[1..], at) == Curve(h, at)
  {
  }

  /** Ingesting a newer sample, even one that evicts the oldest of 32, changes nothing that was rendered
      between the (new) oldest time and the previous newest one. */
  lemma IngestKeepsPast(h: History, s: InterpSample, at: u64)
    requires h != [] && |h| <= SNAPSHOT_HISTORY_SIZE && Increasing(h + [s])
    requires Trimmed(h + [s])[0].recvMs <= at <= h[|h| - 1].recvMs
    ensures Curve(Trimmed(h + [s]), at) == Curve(h, at)
  {
    var g := h + [s];
    AppendKeepsPast(h, s, at);
    if |g| > SNAPSHOT_HISTORY_SIZE {
      assert Trimmed(g) == g[1..];
      DropKeepsFuture(g, at);
    }
  }

  // ----- what a newer sample changes

  /** The newest 32 of the old samples and the new one are kept, in order, and nothing else is touched. */
  lemma IngestKeepsNewest(hs: map<u16, History>, id: u16, s: InterpSample)
    ensures var was := if id in hs then hs[id] else [];
            var kept := Min(|was|, SNAPSHOT_HISTORY_SIZE - 1);
            var now := Ingested(hs, id, s);
            && id in now && |now[id]| == kept + 1 && now[id][kept] == s
            && (forall i :: 0 <= i < kept ==> now[id][i] == was[|was| - kept + i])
            && (forall q :: q != id ==> (q in now <==> q in hs) && (q in hs ==> now[q] == hs[q]))
  {
  }

  /** From the new sample's time on the player is drawn where the new sample has it. */
  lemma IngestMovesOn(h: History, s: InterpSample, at: u64)
    requires NonDecreasing(h + [s]) && at > s.recvMs
    ensures Curve(Trimmed(h + [s]), at) == s.pos
  {
    var g := Trimmed(h + [s]);
    assert NonDecreasing(g) && g[|g| - 1] == s;
    forall i | 0 < i < |g| ensures !Brackets(g, i, at) {
      TimesOrdered(g, i, |g| - 1);
    }
    TimesOrdered(g, 0, |g| - 1);
    CurveOutside(g, at);
  }

  /** A history is stale from two seconds after its newest sample on, and also while that sample lies in the future:
      the difference wraps, unless it wraps nearly all the way round. */
  lemma StaleExactly(h: History, now: u64)
    requires h != []
    ensures var newest := h[|h| - 1].recvMs;
            Stale(h, now) <==> now > newest + 2000 || (now < newest && newest - now < TWO64 - 2000)
  {
    WrappedDifference(now, h[|h| - 1].recvMs);
  }

  /** A sample just received makes its player visible again. */
  lemma IngestRefreshes(h: History, s: InterpSample, now: u64)
    requires s.recvMs <= now <= s.recvMs + 2000
    ensures !Stale(Trimmed(h + [s]), now)
  {
    StaleExactly(Trimmed(h + [s]), now);
  }
}

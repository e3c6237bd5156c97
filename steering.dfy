/**
 * The per-boid steering step of `BoidUnit` as pure functions: the three
 * flocking aggregates with their empty-neighbour fallbacks, the bounds
 * and obstacle vectors, the boost decay, the role-dependent weighted sum,
 * the lerp/normalise step with its fallback, and the position update.
 * `BoidUnit` (module Boid) is proved to compute exactly these.
 */
module Steering {
  import opened Vectors
  import opened Wrappers

  /** `BoidUnit.MoveData`: the per-unit steering record. */
  datatype MoveData = MoveData(
    speed: real,
    additionalSpeed: real,
    targetVec: Vec3,
    cohesionVec: Vec3,
    alignmentVec: Vec3,
    separationVec: Vec3,
    boundsVec: Vec3,
    obstacleVec: Vec3,
    egoVec: Vec3,
    egoVector: Vec3)

  /** `new MoveData()`: every field zero. */
  const EmptyMoveData: MoveData :=
    MoveData(0.0, 0.0, Zero, Zero, Zero, Zero, Zero, Zero, Zero, Zero)

  /**
   * What a unit reads from its `Boids` owner: the six weights, the flock
   * centre (the owner's position), the spawn range and the enemy share.
   */
  datatype Flock = Flock(
    cohesionWeight: real,
    alignmentWeight: real,
    separationWeight: real,
    boundsWeight: real,
    obstacleWeight: real,
    egoWeight: real,
    center: Vec3,
    spawnRange: real,
    enemyPercentage: real)

  /** The value `additionalSpeed` is set to whenever the obstacle ray hits. */
  const ObstacleBoost: real := 10.0

  /** Cohesion: towards the mean neighbour position; zero without neighbours. */
  function Cohesion(neighbourPositions: seq<Vec3>, position: Vec3, norm: Vec3 -> Vec3): Vec3 {
    if |neighbourPositions| == 0 then Zero
    else norm(Sub(Div(Sum(neighbourPositions), |neighbourPositions| as real), position))
  }

  /**
   * Alignment: the unit's own forward plus every neighbour's forward, divided
   * by the neighbour count and normalised; the own forward without neighbours.
   */
  function Alignment(forward: Vec3, neighbourForwards: seq<Vec3>, norm: Vec3 -> Vec3): Vec3 {
    if |neighbourForwards| == 0 then forward
    else norm(Div(Add(forward, Sum(neighbourForwards)), |neighbourForwards| as real))
  }

  /** The offsets `position - neighbour` that separation averages. */
  function Away(position: Vec3, neighbourPositions: seq<Vec3>): (a: seq<Vec3>)
    ensures |a| == |neighbourPositions|
    ensures forall i :: 0 <= i < |a| ==> a[i] == Sub(position, neighbourPositions[i])
  {
    seq(|neighbourPositions|, i requires 0 <= i < |neighbourPositions| => Sub(position, neighbourPositions[i]))
  }

  /** Separation: away from the neighbours on average; zero without neighbours. */
  function Separation(position: Vec3, neighbourPositions: seq<Vec3>, norm: Vec3 -> Vec3): Vec3 {
    if |neighbourPositions| == 0 then Zero
    else norm(Div(Sum(Away(position, neighbourPositions)), |neighbourPositions| as real))
  }

  /** Bounds: back towards the flock centre once the unit is at least `spawnRange` away; zero inside. */
  function BoundsVector(center: Vec3, position: Vec3, spawnRange: real, norm: Vec3 -> Vec3): (r: Vec3)
    ensures r == Zero || r == norm(Sub(center, position))
    ensures spawnRange <= 0.0 ==> r == norm(Sub(center, position))
  {
    var offsetToCenter := Sub(center, position);
    if MagnitudeAtLeast(offsetToCenter, spawnRange) then norm(offsetToCenter) else Zero
  }

  /** Obstacle: the hit normal of the forward ray, or zero on a miss. */
  function ObstacleVector(hit: Option<Vec3>): Vec3 {
    if hit.Some? then hit.value else Zero
  }

  /** The boost after the obstacle ray: set to ObstacleBoost on a hit, otherwise kept. */
  function BoostAfterRay(hit: Option<Vec3>, additionalSpeed: real): real {
    if hit.Some? then ObstacleBoost else additionalSpeed
  }

  /** The per-frame decay of the boost: only a positive boost decays, by dt, without a clamp at zero. */
  function DecayBoost(additionalSpeed: real, dt: real): (r: real)
    ensures 0.0 <= dt ==> r <= additionalSpeed
    ensures additionalSpeed <= 0.0 ==> r == additionalSpeed
    ensures additionalSpeed > 0.0 ==> r > -dt
  {
    if additionalSpeed > 0.0 then additionalSpeed - dt else additionalSpeed
  }

  /** The boost after n frames of length dt with no obstacle hit. */
  function DecayOver(additionalSpeed: real, dt: real, n: nat): (r: real)
    ensures 0.0 <= dt ==> r <= additionalSpeed
    decreases n
  {
    if n == 0 then additionalSpeed else DecayOver(DecayBoost(additionalSpeed, dt), dt, n - 1)
  }

  /** The total length of a run of frames. */
  function Total(dts: seq<real>): (t: real)
    ensures (forall i :: 0 <= i < |dts| ==> 0.0 <= dts[i]) ==> 0.0 <= t
  {
    if |dts| == 0 then 0.0 else dts[0] + Total(dts[1..])
  }

  /**
   * The boost after frames of lengths dts, in order, with no obstacle hit:
   * each frame's own `Time.deltaTime` is subtracted in turn.
   */
  function DecayFrames(additionalSpeed: real, dts: seq<real>): (r: real)
    ensures (forall i :: 0 <= i < |dts| ==> 0.0 <= dts[i]) ==> r <= additionalSpeed
    decreases |dts|
  {
    if |dts| == 0 then additionalSpeed
    else DecayFrames(DecayBoost(additionalSpeed, dts[0]), dts[1..])
  }

  /**
   * The record after the first half of a steering step: the boost decayed
   * (and possibly reset by the obstacle ray) and the six weighted terms
   * stored; `targetVec` is not yet written.
   */
  function WeightedTerms(m: MoveData, flock: Flock, position: Vec3, forward: Vec3,
                         neighbourPositions: seq<Vec3>, neighbourForwards: seq<Vec3>,
                         hit: Option<Vec3>, dt: real, norm: Vec3 -> Vec3): (w: MoveData)
    ensures w.speed == m.speed && w.egoVector == m.egoVector && w.targetVec == m.targetVec
  {
    m.(additionalSpeed := BoostAfterRay(hit, DecayBoost(m.additionalSpeed, dt)),
       cohesionVec := Scale(Cohesion(neighbourPositions, position, norm), flock.cohesionWeight),
       alignmentVec := Scale(Alignment(forward, neighbourForwards, norm), flock.alignmentWeight),
       separationVec := Scale(Separation(position, neighbourPositions, norm), flock.separationWeight),
       boundsVec := Scale(BoundsVector(flock.center, position, flock.spawnRange, norm), flock.boundsWeight),
       obstacleVec := Scale(ObstacleVector(hit), flock.obstacleWeight),
       egoVec := Scale(m.egoVector, flock.egoWeight))
  }

  /**
   * The raw target before smoothing: an enemy adds bounds, obstacle and the
   * unweighted ego vector; a normal unit adds all six weighted terms.
   */
  function RawTarget(w: MoveData, isEnemy: bool): (r: Vec3)
    ensures w.cohesionVec == Zero && w.alignmentVec == Zero && w.separationVec == Zero && w.egoVec == w.egoVector
            ==> r == Add(Add(w.boundsVec, w.obstacleVec), w.egoVector)
  {
    if isEnemy then Add(Add(w.boundsVec, w.obstacleVec), w.egoVector)
    else Add(Add(Add(Add(Add(w.cohesionVec, w.alignmentVec), w.separationVec), w.boundsVec), w.obstacleVec), w.egoVec)
  }

  /** Lerp from the current forward towards the raw target by dt, normalise, and fall back to the ego vector on zero. */
  function FinalDirection(forward: Vec3, raw: Vec3, dt: real, egoVector: Vec3, norm: Vec3 -> Vec3): (r: Vec3)
    ensures r == egoVector || r == norm(Lerp(forward, raw, dt))
    ensures r == Zero ==> egoVector == Zero
  {
    var t := norm(Lerp(forward, raw, dt));
    if t == Zero then egoVector else t
  }

  /** The record after a whole steering step (the shared part of `UpdateForSelf` and `UpdateForJob`). */
  function Steered(m: MoveData, flock: Flock, isEnemy: bool, position: Vec3, forward: Vec3,
                   neighbourPositions: seq<Vec3>, neighbourForwards: seq<Vec3>,
                   hit: Option<Vec3>, dt: real, norm: Vec3 -> Vec3): (r: MoveData)
    ensures r.speed == m.speed && r.egoVector == m.egoVector
  {
    var w := WeightedTerms(m, flock, position, forward, neighbourPositions, neighbourForwards, hit, dt, norm);
    w.(targetVec := FinalDirection(forward, RawTarget(w, isEnemy), dt, w.egoVector, norm))
  }

  /** `position += targetVec * (speed + additionalSpeed) * dt` */
  function Moved(position: Vec3, m: MoveData, dt: real): (r: Vec3)
    ensures dt == 0.0 || m.targetVec == Zero || m.speed + m.additionalSpeed == 0.0 ==> r == position
  {
    Add(position, Scale(Scale(m.targetVec, m.speed + m.additionalSpeed), dt))
  }

  // ---------------------------------------------------------------------
  // Properties of the aggregates

  /** With no neighbours cohesion and separation are zero and alignment is the own forward. */
  lemma NoNeighbourFallbacks(position: Vec3, forward: Vec3, norm: Vec3 -> Vec3)
    ensures Cohesion([], position, norm) == Zero
    ensures Separation(position, [], norm) == Zero
    ensures Alignment(forward, [], norm) == forward
  {
  }

  /** The separation offsets sum to n copies of the own position minus the neighbour positions. */
  lemma {:induction false} SumAway(position: Vec3, ns: seq<Vec3>)
    ensures Sum(Away(position, ns)) == Sub(Scale(position, |ns| as real), Sum(ns))
  {
    if |ns| > 0 {
      var init := ns[..|ns| - 1];
      var a := Away(position, ns);
      assert a[..|ns| - 1] == Away(position, init);
      SumAway(position, init);
      assert Sum(a) == Add(Sub(Scale(position, |init| as real), Sum(init)), Sub(position, ns[|ns| - 1]));
      OneMoreOffset(position, Sum(init), ns[|ns| - 1], |init| as real);
    }
  }

  /** Adding one more offset `p - q` to k of them gives k + 1 copies of p minus one more neighbour. */
  lemma OneMoreOffset(p: Vec3, s: Vec3, q: Vec3, k: real)
    ensures Add(Sub(Scale(p, k), s), Sub(p, q)) == Sub(Scale(p, k + 1.0), Add(s, q))
  {
    assert p.x * (k + 1.0) == p.x * k + p.x;
    assert p.y * (k + 1.0) == p.y * k + p.y;
    assert p.z * (k + 1.0) == p.z * k + p.z;
  }

  /**
   * Before normalisation, separation is exactly the negated cohesion offset:
   * both are the difference between the own position and the neighbours' mean.
   */
  lemma SeparationOpposesCohesion(position: Vec3, ns: seq<Vec3>, norm: Vec3 -> Vec3)
    requires |ns| > 0
    ensures Cohesion(ns, position, norm) == norm(Sub(Div(Sum(ns), |ns| as real), position))
    ensures Separation(position, ns, norm) == norm(Neg(Sub(Div(Sum(ns), |ns| as real), position)))
  {
    SumAway(position, ns);
    MeanOffsetVec(position, Sum(ns), |ns| as real);
  }

  /** One component of SeparationOpposesCohesion: (p*n - s)/n == -(s/n - p). */
  lemma MeanOffset(p: real, s: real, n: real)
    requires n != 0.0
    ensures (p * n - s) / n == -(s / n - p)
  {
    var q := s / n;
    assert q * n == s;
    assert p * n - s == (p - q) * n;
    assert ((p - q) * n) / n == p - q;
  }

  lemma MeanOffsetVec(p: Vec3, s: Vec3, n: real)
    requires n != 0.0
    ensures Div(Sub(Scale(p, n), s), n) == Neg(Sub(Div(s, n), p))
  {
    MeanOffset(p.x, s.x, n);
    MeanOffset(p.y, s.y, n);
    MeanOffset(p.z, s.z, n);
  }

  /** (p*n)/n == p, component-wise. */
  lemma ScaleDiv(p: Vec3, n: real)
    requires n != 0.0
    ensures Div(Scale(p, n), n) == p
  {
    assert p.x * n / n == p.x;
    assert p.y * n / n == p.y;
    assert p.z * n / n == p.z;
  }

  /** A unit standing at the mean of its neighbours gets zero cohesion AND zero separation. */
  lemma CentredNeighbours(position: Vec3, ns: seq<Vec3>, norm: Vec3 -> Vec3)
    requires ZeroPreserving(norm)
    requires Sum(ns) == Scale(position, |ns| as real)
    ensures Cohesion(ns, position, norm) == Zero
    ensures Separation(position, ns, norm) == Zero
  {
    if |ns| > 0 {
      SeparationOpposesCohesion(position, ns, norm);
      ScaleDiv(position, |ns| as real);
      assert Sub(position, position) == Zero;
      assert Neg(Zero) == Zero;
    }
  }

  /**
   * Three units one step apart on a line: the middle one, whose neighbours
   * are the two outer ones, has zero cohesion and zero separation.
   */
  lemma MiddleOfLine(middle: Vec3, step: Vec3, norm: Vec3 -> Vec3)
    requires ZeroPreserving(norm)
    ensures Cohesion([Sub(middle, step), Add(middle, step)], middle, norm) == Zero
    ensures Separation(middle, [Sub(middle, step), Add(middle, step)], norm) == Zero
  {
    var ns := [Sub(middle, step), Add(middle, step)];
    assert ns[..1][..0] == [];
    assert ns[..1] == [Sub(middle, step)];
    assert Sum(ns[..1]) == Add(Zero, Sub(middle, step));
    assert Sum(ns) == Add(Add(Zero, Sub(middle, step)), Add(middle, step));
    assert Sum(ns) == Scale(middle, 2.0);
    CentredNeighbours(middle, ns, norm);
  }

  /**
   * The own forward is summed together with the neighbours' forwards, yet
   * the divisor is the neighbour count alone.
   */
  lemma AlignmentCountsOwnForward(forward: Vec3, nf: seq<Vec3>, norm: Vec3 -> Vec3)
    requires |nf| > 0
    ensures Alignment(forward, nf, norm) == norm(Div(Sum([forward] + nf), |nf| as real))
  {
    SumPrepend(forward, nf);
  }

  /** When every neighbour faces the unit's way, alignment normalises (n+1)/n times the own forward. */
  lemma AlignedNeighbours(forward: Vec3, nf: seq<Vec3>, norm: Vec3 -> Vec3)
    requires |nf| > 0
    requires forall i :: 0 <= i < |nf| ==> nf[i] == forward
    ensures Alignment(forward, nf, norm) == norm(Scale(forward, (|nf| as real + 1.0) / |nf| as real))
  {
    SumConstant(nf, forward);
    var n := |nf| as real;
    OwnPlusCopies(forward.x, n);
    OwnPlusCopies(forward.y, n);
    OwnPlusCopies(forward.z, n);
    assert Div(Add(forward, Scale(forward, n)), n) == Scale(forward, (n + 1.0) / n);
  }

  /** One component of AlignedNeighbours: (f + f*n)/n == f*((n+1)/n). */
  lemma OwnPlusCopies(f: real, n: real)
    requires n != 0.0
    ensures (f + f * n) / n == f * ((n + 1.0) / n)
  {
    var k := (n + 1.0) / n;
    assert k * n == n + 1.0;
    assert f + f * n == (f * k) * n;
    assert ((f * k) * n) / n == f * k;
  }

  // ---------------------------------------------------------------------
  // Bounds

  /**
   * For the true distance m from the unit to the flock centre: strictly
   * inside `spawnRange` the bounds vector is zero; at or beyond it, it is
   * the normalised offset to the centre.
   */
  lemma BoundsByDistance(center: Vec3, position: Vec3, spawnRange: real, m: real, norm: Vec3 -> Vec3)
    requires 0.0 <= m && m * m == SqrMagnitude(Sub(center, position))
    ensures m < spawnRange ==> BoundsVector(center, position, spawnRange, norm) == Zero
    ensures spawnRange <= m ==> BoundsVector(center, position, spawnRange, norm) == norm(Sub(center, position))
  {
    MagnitudeAtLeastIsLengthTest(Sub(center, position), spawnRange, m);
  }

  // ---------------------------------------------------------------------
  // Boost

  /** The boost after one steering step: exactly ObstacleBoost on a hit; otherwise decayed by dt only when positive. */
  lemma BoostAfterStep(m: MoveData, flock: Flock, isEnemy: bool, position: Vec3, forward: Vec3,
                       np: seq<Vec3>, nf: seq<Vec3>, hit: Option<Vec3>, dt: real, norm: Vec3 -> Vec3)
    ensures var b := Steered(m, flock, isEnemy, position, forward, np, nf, hit, dt, norm).additionalSpeed;
            (hit.Some? ==> b == ObstacleBoost) &&
            (hit.None? && m.additionalSpeed <= 0.0 ==> b == m.additionalSpeed) &&
            (hit.None? && m.additionalSpeed > 0.0 ==> b == m.additionalSpeed - dt)
  {
  }

  /** A boost that is not positive never changes without a hit. */
  lemma {:induction false} DecayStops(b: real, dt: real, n: nat)
    requires b <= 0.0
    ensures DecayOver(b, dt, n) == b
    decreases n
  {
    if n > 0 {
      DecayStops(b, dt, n - 1);
    }
  }

  /** While the boost stays positive it falls linearly: b - n*dt after n frames. */
  lemma {:induction false} DecayLinear(b: real, dt: real, n: nat)
    requires 0.0 <= dt
    requires n > 0 ==> b - (n - 1) as real * dt > 0.0
    ensures DecayOver(b, dt, n) == b - n as real * dt
    decreases n
  {
    if n > 0 {
      assert b > 0.0 by {
        assert (n - 1) as real * dt >= 0.0;
      }
      DecayLinear(b - dt, dt, n - 1);
    }
  }

  /**
   * Without a hit the boost ends strictly above -dt and never rises: it can
   * become negative, but by less than one frame's dt.
   */
  lemma {:induction false} DecayBounded(b: real, dt: real, n: nat)
    requires 0.0 < dt && -dt < b
    ensures -dt < DecayOver(b, dt, n) <= b
    decreases n
  {
    if n > 0 {
      if b > 0.0 {
        DecayBounded(b - dt, dt, n - 1);
      } else {
        DecayStops(b, dt, n);
      }
    }
  }

  /** After n frames covering at least b seconds the boost is no longer positive. */
  lemma {:induction false} DecayRunsOut(b: real, dt: real, n: nat)
    requires 0.0 < dt && b <= n as real * dt
    ensures DecayOver(b, dt, n) <= 0.0
    decreases n
  {
    if n > 0 {
      if b > 0.0 {
        DecayRunsOut(b - dt, dt, n - 1);
      } else {
        DecayStops(b, dt, n);
      }
    } 
  }

  /** Frames of one common length are the special case of `DecayFrames` that `DecayOver` computes. */
  lemma {:induction false} DecayOverIsFrames(b: real, dt: real, n: nat)
    ensures DecayOver(b, dt, n) == DecayFrames(b, seq(n, _ => dt))
    decreases n
  {
    if n > 0 {
      assert seq(n, _ => dt)[1..] == seq(n - 1, _ => dt);
      DecayOverIsFrames(DecayBoost(b, dt), dt, n - 1);
    }
  }

  /** A boost that is not positive never changes, whatever the frame times. */
  lemma {:induction false} DecayFramesStops(b: real, dts: seq<real>)
    requires b <= 0.0
    ensures DecayFrames(b, dts) == b
    decreases |dts|
  {
    if |dts| > 0 {
      DecayFramesStops(b, dts[1..]);
    }
  }

  /** The frames before the last one total the first frame plus the rest's frames before the last. */
  lemma AllButLast(dts: seq<real>)
    requires |dts| > 1
    ensures Total(dts[..|dts| - 1]) == dts[0] + Total(dts[1..][..|dts| - 2])
  {
    assert dts[..|dts| - 1][1..] == dts[1..][..|dts| - 2];
  }

  /**
   * While the boost stays positive it falls by the total frame time: as long
   * as the frames before the last total less than b, the result is b minus
   * the total of all frames.
   */
  lemma {:induction false} DecayFramesLinear(b: real, dts: seq<real>)
    requires forall i :: 0 <= i < |dts| ==> 0.0 <= dts[i]
    requires |dts| > 0 ==> Total(dts[..|dts| - 1]) < b
    ensures DecayFrames(b, dts) == b - Total(dts)
    decreases |dts|
  {
    if |dts| > 0 {
      var rest := dts[1..];
      assert forall i :: 0 <= i < |rest| ==> 0.0 <= rest[i] by {
        forall i | 0 <= i < |rest| ensures 0.0 <= rest[i] {
          assert rest[i] == dts[i + 1];
        }
      }
      var front := dts[..|dts| - 1];
      assert forall i :: 0 <= i < |front| ==> 0.0 <= front[i];
      assert b > 0.0;
      if |dts| > 1 {
        AllButLast(dts);
        var restFront := rest[..|rest| - 1];
        assert forall i :: 0 <= i < |restFront| ==> 0.0 <= restFront[i];
      }
      DecayFramesLinear(b - dts[0], rest);
    }
  }

  /**
   * Without a hit the boost never rises and ends strictly above -dmax, where
   * dmax bounds every frame time: it can become negative, by less than the
   * longest frame.
   */
  lemma {:induction false} DecayFramesBounded(b: real, dts: seq<real>, dmax: real)
    requires forall i :: 0 <= i < |dts| ==> 0.0 <= dts[i] <= dmax
    requires -dmax < b
    ensures -dmax < DecayFrames(b, dts) <= b
    decreases |dts|
  {
    if |dts| > 0 {
      var rest := dts[1..];
      assert forall i :: 0 <= i < |rest| ==> 0.0 <= rest[i] <= dmax by {
        forall i | 0 <= i < |rest| ensures 0.0 <= rest[i] <= dmax {
          assert rest[i] == dts[i + 1];
        }
      }
      DecayFramesBounded(DecayBoost(b, dts[0]), rest, dmax);
    }
  }

  /** Once the frames add up to at least b seconds the boost is no longer positive. */
  lemma {:induction false} DecayFramesRunsOut(b: real, dts: seq<real>)
    requires forall i :: 0 <= i < |dts| ==> 0.0 <= dts[i]
    requires b <= Total(dts)
    ensures DecayFrames(b, dts) <= 0.0
    decreases |dts|
  {
    if |dts| > 0 {
      var rest := dts[1..];
      assert forall i :: 0 <= i < |rest| ==> 0.0 <= rest[i] by {
        forall i | 0 <= i < |rest| ensures 0.0 <= rest[i] {
          assert rest[i] == dts[i + 1];
        }
      }
      if b > 0.0 {
        DecayFramesRunsOut(b - dts[0], rest);
      } else {
        DecayFramesStops(b, dts);
      }
    }
  }

  /** The boost set by a hit goes negative: 10 seconds at dt = 3 leaves -2 after four frames. */
  lemma BoostOvershoots()
    ensures DecayOver(ObstacleBoost, 3.0, 4) == -2.0
  {
    DecayLinear(ObstacleBoost, 3.0, 4);
  }

  // ---------------------------------------------------------------------
  // Composition

  /**
   * An enemy's step does not depend on the cohesion, alignment, separation
   * or ego weights: two flocks differing only in those give the same
   * target and the same boost.
   */
  lemma EnemyIgnoresFlockWeights(m: MoveData, f1: Flock, f2: Flock, position: Vec3, forward: Vec3,
                                 np: seq<Vec3>, nf: seq<Vec3>, hit: Option<Vec3>, dt: real, norm: Vec3 -> Vec3)
    requires f1.boundsWeight == f2.boundsWeight && f1.obstacleWeight == f2.obstacleWeight
    requires f1.center == f2.center && f1.spawnRange == f2.spawnRange
    ensures Steered(m, f1, true, position, forward, np, nf, hit, dt, norm).targetVec
         == Steered(m, f2, true, position, forward, np, nf, hit, dt, norm).targetVec
    ensures Steered(m, f1, true, position, forward, np, nf, hit, dt, norm).additionalSpeed
         == Steered(m, f2, true, position, forward, np, nf, hit, dt, norm).additionalSpeed
  {
  }

  /** An enemy's raw target is bounds + obstacle + the unweighted ego vector. */
  lemma EnemyRawTarget(m: MoveData, flock: Flock, position: Vec3, forward: Vec3,
                       np: seq<Vec3>, nf: seq<Vec3>, hit: Option<Vec3>, dt: real, norm: Vec3 -> Vec3)
    ensures var w := WeightedTerms(m, flock, position, forward, np, nf, hit, dt, norm);
            RawTarget(w, true) ==
              Add(Add(Scale(BoundsVector(flock.center, position, flock.spawnRange, norm), flock.boundsWeight),
                      Scale(ObstacleVector(hit), flock.obstacleWeight)),
                  m.egoVector)
  {
  }

  /**
   * A normal unit feels every flocking weight in full: changing only the cohesion
   * weight from w2 to w1 moves the raw target by exactly (w1 - w2) times
   * the cohesion vector.
   */
  lemma NormalFeelsCohesionWeight(m: MoveData, flock: Flock, w1: real, w2: real, position: Vec3, forward: Vec3,
                                  np: seq<Vec3>, nf: seq<Vec3>, hit: Option<Vec3>, dt: real, norm: Vec3 -> Vec3)
    ensures var r1 := RawTarget(WeightedTerms(m, flock.(cohesionWeight := w1), position, forward, np, nf, hit, dt, norm), false);
            var r2 := RawTarget(WeightedTerms(m, flock.(cohesionWeight := w2), position, forward, np, nf, hit, dt, norm), false);
            Sub(r1, r2) == Scale(Cohesion(np, position, norm), w1 - w2)
  {
    var c := Cohesion(np, position, norm);
    assert c.x * w1 - c.x * w2 == c.x * (w1 - w2);
    assert c.y * w1 - c.y * w2 == c.y * (w1 - w2);
    assert c.z * w1 - c.z * w2 == c.z * (w1 - w2);
  }

  /** Likewise for the alignment weight: the raw target moves by the change of weight times the alignment vector. */
  lemma NormalFeelsAlignmentWeight(m: MoveData, flock: Flock, w1: real, w2: real, position: Vec3, forward: Vec3,
                                  np: seq<Vec3>, nf: seq<Vec3>, hit: Option<Vec3>, dt: real, norm: Vec3 -> Vec3)
    ensures var r1 := RawTarget(WeightedTerms(m, flock.(alignmentWeight := w1), position, forward, np, nf, hit, dt, norm), false);
            var r2 := RawTarget(WeightedTerms(m, flock.(alignmentWeight := w2), position, forward, np, nf, hit, dt, norm), false);
            Sub(r1, r2) == Scale(Alignment(forward, nf, norm), w1 - w2)
  {
    var c := Alignment(forward, nf, norm);
    assert c.x * w1 - c.x * w2 == c.x * (w1 - w2);
    assert c.y * w1 - c.y * w2 == c.y * (w1 - w2);
    assert c.z * w1 - c.z * w2 == c.z * (w1 - w2);
  }

  /** Likewise for the separation weight: the raw target moves by the change of weight times the separation vector. */
  lemma NormalFeelsSeparationWeight(m: MoveData, flock: Flock, w1: real, w2: real, position: Vec3, forward: Vec3,
                                  np: seq<Vec3>, nf: seq<Vec3>, hit: Option<Vec3>, dt: real, norm: Vec3 -> Vec3)
    ensures var r1 := RawTarget(WeightedTerms(m, flock.(separationWeight := w1), position, forward, np, nf, hit, dt, norm), false);
            var r2 := RawTarget(WeightedTerms(m, flock.(separationWeight := w2), position, forward, np, nf, hit, dt, norm), false);
            Sub(r1, r2) == Scale(Separation(position, np, norm), w1 - w2)
  {
    var c := Separation(position, np, norm);
    assert c.x * w1 - c.x * w2 == c.x * (w1 - w2);
    assert c.y * w1 - c.y * w2 == c.y * (w1 - w2);
    assert c.z * w1 - c.z * w2 == c.z * (w1 - w2);
  }

  /** Likewise for the ego weight: the raw target moves by the change of weight times the unit's ego vector. */
  lemma NormalFeelsEgoWeight(m: MoveData, flock: Flock, w1: real, w2: real, position: Vec3, forward: Vec3,
                                  np: seq<Vec3>, nf: seq<Vec3>, hit: Option<Vec3>, dt: real, norm: Vec3 -> Vec3)
    ensures var r1 := RawTarget(WeightedTerms(m, flock.(egoWeight := w1), position, forward, np, nf, hit, dt, norm), false);
            var r2 := RawTarget(WeightedTerms(m, flock.(egoWeight := w2), position, forward, np, nf, hit, dt, norm), false);
            Sub(r1, r2) == Scale(m.egoVector, w1 - w2)
  {
    var c := m.egoVector;
    assert c.x * w1 - c.x * w2 == c.x * (w1 - w2);
    assert c.y * w1 - c.y * w2 == c.y * (w1 - w2);
    assert c.z * w1 - c.z * w2 == c.z * (w1 - w2);
  }

  // ---------------------------------------------------------------------
  // Final direction and move

  /**
   * The final direction falls back to the ego vector exactly when the
   * normalised lerp is zero, and is that normalised lerp otherwise; a
   * frame of at least one second lerps all the way to the raw target.
   */
  lemma FinalDirectionCases(forward: Vec3, raw: Vec3, dt: real, egoVector: Vec3, norm: Vec3 -> Vec3)
    ensures norm(Lerp(forward, raw, dt)) == Zero ==> FinalDirection(forward, raw, dt, egoVector, norm) == egoVector
    ensures norm(Lerp(forward, raw, dt)) != Zero ==> FinalDirection(forward, raw, dt, egoVector, norm) == norm(Lerp(forward, raw, dt))
    ensures 1.0 <= dt && norm(raw) != Zero ==> FinalDirection(forward, raw, dt, egoVector, norm) == norm(raw)
    ensures dt <= 0.0 && norm(forward) != Zero ==> FinalDirection(forward, raw, dt, egoVector, norm) == norm(forward)
  {
  }

  /**
   * With the record unchanged, two frames of d1 and d2 seconds move the unit
   * as far as one frame of d1 + d2 seconds: the motion is linear in time.
   */
  lemma MovedSplitFrame(position: Vec3, m: MoveData, d1: real, d2: real)
    ensures Moved(Moved(position, m, d1), m, d2) == Moved(position, m, d1 + d2)
  {
    var v := Scale(m.targetVec, m.speed + m.additionalSpeed);
    assert v.x * d1 + v.x * d2 == v.x * (d1 + d2);
    assert v.y * d1 + v.y * d2 == v.y * (d1 + d2);
    assert v.z * d1 + v.z * d2 == v.z * (d1 + d2);
  }
}

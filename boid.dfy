/**
 * `BoidUnit`: one boid. The neighbour scan, the three aggregate loops over
 * the neighbour list, the obstacle ray with its boost side effect, and the
 * two per-frame updates, each proved to compute the functions of module
 * Steering. Engine queries are inputs: the overlap-sphere result is the
 * candidate sequence, `Vector3.Angle` is the `angle` parameter, the
 * raycast is an optional hit normal and `normalized` is `norm`.
 */
module Boid {
  import opened Vectors
  import opened Wrappers
  import opened Engine
  import opened Steering

  /** The inspector default of `maxNeighbourCount`. */
  const DefaultMaxNeighbourCount: real := 50.0

  /** The transforms of the given units, in order. */
  function TransformsOf(units: seq<BoidUnit>): (ts: seq<Transform>)
    ensures |ts| == |units|
    ensures forall i :: 0 <= i < |units| ==> ts[i] == units[i].transform
  {
    seq(|units|, i requires 0 <= i < |units| => units[i].transform)
  }

  /** The world positions of the given transforms, in order. */
  function Positions(ts: seq<Transform>): (ps: seq<Vec3>)
    reads ts
  {
    seq(|ts|, i requires 0 <= i < |ts| reads ts => ts[i].position)
  }

  /** The forward directions of the given transforms, in order. */
  function Forwards(ts: seq<Transform>): (fs: seq<Vec3>)
    reads ts
  {
    seq(|ts|, i requires 0 <= i < |ts| reads ts => ts[i].forward)
  }

  /** The field-of-view test `Vector3.Angle(forward, p - position) <= fovAngle` for a candidate at p. */
  predicate Visible(p: Vec3, position: Vec3, forward: Vec3, fovAngle: real, angle: (Vec3, Vec3) -> real) {
    angle(forward, Sub(p, position)) <= fovAngle
  }

  /** a is b with some elements left out, the rest kept in order. */
  predicate IsSubsequence<T(==)>(a: seq<T>, b: seq<T>)
    decreases |b|
  {
    if |a| == 0 then true
    else if |b| == 0 then false
    else (a[|a| - 1] == b[|b| - 1] && IsSubsequence(a[..|a| - 1], b[..|b| - 1]))
         || IsSubsequence(a, b[..|b| - 1])
  }

  /** The field-of-view test of every candidate position, in candidate order. */
  function VisibleFlags(ps: seq<Vec3>, position: Vec3, forward: Vec3, fovAngle: real,
                        angle: (Vec3, Vec3) -> real): (flags: seq<bool>)
    ensures |flags| == |ps|
    ensures forall i :: 0 <= i < |ps| ==> flags[i] == Visible(ps[i], position, forward, fovAngle, angle)
  {
    seq(|ps|, i requires 0 <= i < |ps| => Visible(ps[i], position, forward, fovAngle, angle))
  }

  /** The elements of cs whose flag is set, in order. */
  function Kept<T>(cs: seq<T>, keep: seq<bool>): (r: seq<T>)
    requires |keep| == |cs|
    ensures |r| <= |cs|
  {
    if |cs| == 0 then []
    else
      var k := |cs| - 1;
      Kept(cs[..k], keep[..k]) + (if keep[k] then [cs[k]] else [])
  }

  /**
   * The index at which the scan's `i > maxNeighbourCount` test first fires:
   * the least natural number above maxNeighbourCount.
   */
  function FirstBreakIndex(maxNeighbourCount: real): (k: nat)
    ensures k as real > maxNeighbourCount
    ensures k == 0 || (k - 1) as real <= maxNeighbourCount
  {
    if maxNeighbourCount < 0.0 then 0 else maxNeighbourCount.Floor + 1
  }

  /** How many of n candidates the scan examines before it breaks or runs out. */
  function ScanCount(n: nat, maxNeighbourCount: real): (k: nat)
    ensures k <= n
    ensures k == n || k == FirstBreakIndex(maxNeighbourCount) + 1
    ensures n > FirstBreakIndex(maxNeighbourCount) + 1 ==> k == FirstBreakIndex(maxNeighbourCount) + 1
  {
    if n <= FirstBreakIndex(maxNeighbourCount) + 1 then n else FirstBreakIndex(maxNeighbourCount) + 1
  }

  /**
   * The neighbour list one scan produces from the candidates `colls`,
   * whose positions are `ps`: the visible candidates among the examined ones.
   */
  function Scan(colls: seq<BoidUnit>, ps: seq<Vec3>, position: Vec3, forward: Vec3, fovAngle: real,
                maxNeighbourCount: real, angle: (Vec3, Vec3) -> real): (r: seq<BoidUnit>)
    requires |ps| == |colls|
    ensures |r| <= ScanCount(|colls|, maxNeighbourCount)
  {
    var k := ScanCount(|colls|, maxNeighbourCount);
    Kept(colls[..k], VisibleFlags(ps, position, forward, fovAngle, angle)[..k])
  }

  /** Walking further along b keeps every subsequence of a prefix of b. */
  lemma {:induction false} SubsequenceOfPrefix<T>(a: seq<T>, b: seq<T>, k: nat)
    requires k <= |b| && IsSubsequence(a, b[..k])
    ensures IsSubsequence(a, b)
    decreases |b| - k
  {
    if k < |b| {
      assert b[..k + 1][..k] == b[..k];
      assert IsSubsequence(a, b[..k + 1]);
      SubsequenceOfPrefix(a, b, k + 1);
    } else {
      assert b[..k] == b;
    }
  }

  /** One more element is appended exactly when its flag is set. */
  lemma KeptStep<T>(cs: seq<T>, keep: seq<bool>, i: nat)
    requires |keep| == |cs| && i < |cs|
    ensures Kept(cs[..i + 1], keep[..i + 1]) == Kept(cs[..i], keep[..i]) + (if keep[i] then [cs[i]] else [])
  {
    assert cs[..i + 1][..i] == cs[..i];
    assert keep[..i + 1][..i] == keep[..i];
  }

  /** The kept elements form a subsequence of cs. */
  lemma {:induction false} KeptIsSubsequence<T>(cs: seq<T>, keep: seq<bool>)
    requires |keep| == |cs|
    ensures IsSubsequence(Kept(cs, keep), cs)
  {
    if |cs| > 0 {
      var k := |cs| - 1;
      var r0 := Kept(cs[..k], keep[..k]);
      KeptIsSubsequence(cs[..k], keep[..k]);
      var r := Kept(cs, keep);
      if keep[k] {
        assert r[..|r| - 1] == r0;
      } else {
        assert r == r0;
      }
    }
  }

  /** When every flag is set, everything is kept. */
  lemma {:induction false} KeptAll<T>(cs: seq<T>, keep: seq<bool>)
    requires |keep| == |cs| && forall i :: 0 <= i < |keep| ==> keep[i]
    ensures Kept(cs, keep) == cs
  {
    if |cs| > 0 {
      var k := |cs| - 1;
      KeptAll(cs[..k], keep[..k]);
      assert cs == cs[..k] + [cs[k]];
    }
  }

  /** Every element whose flag is set is kept. */
  lemma {:induction false} KeptKeeps<T>(cs: seq<T>, keep: seq<bool>, j: nat)
    requires |keep| == |cs| && j < |cs| && keep[j]
    ensures cs[j] in Kept(cs, keep)
  {
    var k := |cs| - 1;
    if j < k {
      KeptKeeps(cs[..k], keep[..k], j);
    }
  }

  /** Only elements whose flag is set are kept. */
  lemma {:induction false} KeptMembers<T>(cs: seq<T>, keep: seq<bool>, u: T)
    requires |keep| == |cs| && u in Kept(cs, keep)
    ensures exists i :: 0 <= i < |cs| && keep[i] && cs[i] == u
  {
    var k := |cs| - 1;
    if u in Kept(cs[..k], keep[..k]) {
      KeptMembers(cs[..k], keep[..k], u);
      var i :| 0 <= i < k && keep[..k][i] && cs[..k][i] == u;
      assert keep[i] && cs[i] == u;
    } else {
      assert keep[k] && cs[k] == u;
    }
  }

  /**
   * The scan yields candidates in scan order, each of which passed the
   * field-of-view test; nothing else enters the list.
   */
  lemma ScanIsVisibleSubsequence(colls: seq<BoidUnit>, ps: seq<Vec3>, position: Vec3, forward: Vec3, fovAngle: real,
                                 maxNeighbourCount: real, angle: (Vec3, Vec3) -> real)
    requires |ps| == |colls|
    ensures var r := Scan(colls, ps, position, forward, fovAngle, maxNeighbourCount, angle);
            IsSubsequence(r, colls) &&
            forall u :: u in r ==> exists i :: 0 <= i < |colls| && colls[i] == u
                                              && Visible(ps[i], position, forward, fovAngle, angle)
  {
    var k := ScanCount(|colls|, maxNeighbourCount);
    KeptIsSubsequence(colls[..k], VisibleFlags(ps, position, forward, fovAngle, angle)[..k]);
    SubsequenceOfPrefix(Scan(colls, ps, position, forward, fovAngle, maxNeighbourCount, angle), colls, k);
    var flags := VisibleFlags(ps, position, forward, fovAngle, angle);
    forall u | u in Scan(colls, ps, position, forward, fovAngle, maxNeighbourCount, angle)
      ensures exists i :: 0 <= i < |colls| && colls[i] == u && Visible(ps[i], position, forward, fovAngle, angle)
    {
      KeptMembers(colls[..k], flags[..k], u);
      var i :| 0 <= i < k && flags[..k][i] && colls[..k][i] == u;
      assert colls[i] == u && flags[i];
    }
  }

  /**
   * For a whole-number maxNeighbourCount the scan collects at most
   * min(|colls|, maxNeighbourCount + 2) neighbours: the break fires only
   * after index maxNeighbourCount + 1 has been handled.
   */
  lemma ScanBound(colls: seq<BoidUnit>, ps: seq<Vec3>, position: Vec3, forward: Vec3, fovAngle: real,
                  maxNeighbourCount: nat, angle: (Vec3, Vec3) -> real)
    requires |ps| == |colls|
    ensures FirstBreakIndex(maxNeighbourCount as real) == maxNeighbourCount + 1
    ensures |Scan(colls, ps, position, forward, fovAngle, maxNeighbourCount as real, angle)|
            <= if |colls| < maxNeighbourCount + 2 then |colls| else maxNeighbourCount + 2
  {
  }

  /** The bound is reached: when every candidate is visible the scan keeps every examined one. */
  lemma ScanAllVisible(colls: seq<BoidUnit>, ps: seq<Vec3>, position: Vec3, forward: Vec3, fovAngle: real,
                       maxNeighbourCount: real, angle: (Vec3, Vec3) -> real)
    requires |ps| == |colls|
    requires forall i :: 0 <= i < |ps| ==> Visible(ps[i], position, forward, fovAngle, angle)
    ensures Scan(colls, ps, position, forward, fovAngle, maxNeighbourCount, angle)
         == colls[..ScanCount(|colls|, maxNeighbourCount)]
  {
    var k := ScanCount(|colls|, maxNeighbourCount);
    KeptAll(colls[..k], VisibleFlags(ps, position, forward, fovAngle, angle)[..k]);
  }

  /**
   * Nothing visible is dropped: every examined candidate that passes the
   * field-of-view test ends up among the neighbours.
   */
  lemma ScanKeepsVisible(colls: seq<BoidUnit>, ps: seq<Vec3>, j: nat, position: Vec3, forward: Vec3, fovAngle: real,
                         maxNeighbourCount: real, angle: (Vec3, Vec3) -> real)
    requires |ps| == |colls|
    requires j < ScanCount(|colls|, maxNeighbourCount) && Visible(ps[j], position, forward, fovAngle, angle)
    ensures colls[j] in Scan(colls, ps, position, forward, fovAngle, maxNeighbourCount, angle)
  {
    var k := ScanCount(|colls|, maxNeighbourCount);
    assert colls[..k][j] == colls[j];
    KeptKeeps(colls[..k], VisibleFlags(ps, position, forward, fovAngle, angle)[..k], j);
  }

  /**
   * With the default maxNeighbourCount of 50, a crowd of at least 52
   * visible candidates yields 52 neighbours, two more than the setting.
   */
  lemma DefaultScanKeepsFiftyTwo(colls: seq<BoidUnit>, ps: seq<Vec3>, position: Vec3, forward: Vec3, fovAngle: real,
                                 angle: (Vec3, Vec3) -> real)
    requires |ps| == |colls| && |colls| >= 52
    requires forall i :: 0 <= i < |ps| ==> Visible(ps[i], position, forward, fovAngle, angle)
    ensures |Scan(colls, ps, position, forward, fovAngle, DefaultMaxNeighbourCount, angle)| == 52
  {
    ScanAllVisible(colls, ps, position, forward, fovAngle, DefaultMaxNeighbourCount, angle);
    assert FirstBreakIndex(DefaultMaxNeighbourCount) == 51;
  }

  class BoidUnit {
    const transform: Transform
    var moveData: MoveData
    var myBoids: Flock
    var neighbours: seq<BoidUnit>
    var isEnemy: bool
    var fovAngle: real
    var maxNeighbourCount: real

    /** A unit on the given transform with the given inspector settings, not yet initialised. */
    constructor (transform: Transform, fovAngle: real, maxNeighbourCount: real)
      ensures this.transform == transform
      ensures this.fovAngle == fovAngle && this.maxNeighbourCount == maxNeighbourCount
      ensures moveData == EmptyMoveData && neighbours == [] && !isEnemy
    {
      this.transform := transform;
      this.fovAngle := fovAngle;
      this.maxNeighbourCount := maxNeighbourCount;
      moveData := EmptyMoveData;
      myBoids := Flock(0.0, 0.0, 0.0, 0.0, 0.0, 0.0, Zero, 0.0, 0.0);
      neighbours := [];
      isEnemy := false;
    }

    /**
     * `InitializeUnit`: a fresh record with the given speed and no boost.
     * `enemyRoll` is the value drawn from [0, 1); below the flock's enemy
     * share the unit becomes an enemy. The role is only ever set, never cleared.
     * The method then starts the neighbour loop and the ego loop, and each
     * runs its first pass before the method returns. So the neighbour list
     * ends as one scan of `colls`, and the given speed is overwritten by the
     * first draw `drawnSpeed`, with `drawnEgo` as the first ego vector.
     */
    method InitializeUnit(boids: Flock, speed: real, enemyRoll: real,
                          colls: seq<BoidUnit>, angle: (Vec3, Vec3) -> real,
                          drawnSpeed: real, drawnEgo: Vec3)
      modifies this`moveData, this`myBoids, this`isEnemy, this`neighbours
      ensures moveData == EmptyMoveData.(speed := drawnSpeed, egoVector := drawnEgo)
      ensures myBoids == boids
      ensures isEnemy == (old(isEnemy) || enemyRoll < boids.enemyPercentage)
      ensures neighbours == Scan(colls, Positions(TransformsOf(colls)), transform.position, transform.forward,
                                 fovAngle, maxNeighbourCount, angle)
    {
      moveData := EmptyMoveData;
      myBoids := boids;
      moveData := moveData.(speed := speed);
      moveData := moveData.(additionalSpeed := 0.0);
      if enemyRoll < myBoids.enemyPercentage {
        isEnemy := true;
      }
      FindNeighbour(colls, angle);
      CalcEgoVector(drawnSpeed, drawnEgo);
    }

    /**
     * One pass of the ego loop: `drawnSpeed` is the speed drawn from the
     * flock's speed range and `drawnEgo` the point drawn inside the unit sphere.
     */
    method CalcEgoVector(drawnSpeed: real, drawnEgo: Vec3)
      modifies this`moveData
      ensures moveData == old(moveData).(speed := drawnSpeed, egoVector := drawnEgo)
    {
      moveData := moveData.(speed := drawnSpeed);
      moveData := moveData.(egoVector := drawnEgo);
    }

    /**
     * One neighbour scan over the overlap-sphere result `colls`: clear the
     * list, then walk the candidates, adding each visible one, and stop
     * after the first index above maxNeighbourCount.
     */
    method FindNeighbour(colls: seq<BoidUnit>, angle: (Vec3, Vec3) -> real)
      modifies this`neighbours
      ensures neighbours == old(Scan(colls, Positions(TransformsOf(colls)), transform.position, transform.forward,
                                     fovAngle, maxNeighbourCount, angle))
    {
      var position, forward := transform.position, transform.forward;
      ghost var ps := Positions(TransformsOf(colls));
      ghost var flags := VisibleFlags(ps, position, forward, fovAngle, angle);
      neighbours := [];
      var i := 0;
      while i < |colls|
        invariant 0 <= i <= |colls| && i <= FirstBreakIndex(maxNeighbourCount)
        invariant neighbours == Kept(colls[..i], flags[..i])
      {
        KeptStep(colls, flags, i);
        if angle(forward, Sub(colls[i].transform.position, position)) <= fovAngle {
          neighbours := neighbours + [colls[i]];
        }
        if i as real > maxNeighbourCount {
          i := i + 1;
          break;
        }
        i := i + 1;
      }
      assert i == ScanCount(|colls|, maxNeighbourCount);
      assert neighbours == Scan(colls, ps, position, forward, fovAngle, maxNeighbourCount, angle);
    }

    /** Cohesion from the neighbours' current positions. */
    method CalculateCohesionVector(norm: Vec3 -> Vec3) returns (v: Vec3)
      ensures v == Cohesion(Positions(TransformsOf(neighbours)), transform.position, norm)
    {
      var cohesionVec := Zero;
      ghost var ps := Positions(TransformsOf(neighbours));
      if |neighbours| > 0 {
        for i := 0 to |neighbours|
          invariant cohesionVec == Sum(ps[..i])
        {
          assert ps[..i + 1][..i] == ps[..i];
          cohesionVec := Add(cohesionVec, neighbours[i].transform.position);
        }
      } else {
        return cohesionVec;
      }
      assert ps[..|neighbours|] == ps;
      cohesionVec := Div(cohesionVec, |neighbours| as real);
      cohesionVec := Sub(cohesionVec, transform.position);
      v := norm(cohesionVec);
    }

    /** Alignment from the own forward and the neighbours' current forwards. */
    method CalculateAlignmentVector(norm: Vec3 -> Vec3) returns (v: Vec3)
      ensures v == Alignment(transform.forward, Forwards(TransformsOf(neighbours)), norm)
    {
      var alignmentVec := transform.forward;
      ghost var fs := Forwards(TransformsOf(neighbours));
      if |neighbours| > 0 {
        for i := 0 to |neighbours|
          invariant alignmentVec == Add(transform.forward, Sum(fs[..i]))
        {
          assert fs[..i + 1][..i] == fs[..i];
          alignmentVec := Add(alignmentVec, neighbours[i].transform.forward);
        }
      } else {
        return alignmentVec;
      }
      assert fs[..|neighbours|] == fs;
      alignmentVec := Div(alignmentVec, |neighbours| as real);
      v := norm(alignmentVec);
    }

    /** Separation from the neighbours' current positions. */
    method CalculateSeparationVector(norm: Vec3 -> Vec3) returns (v: Vec3)
      ensures v == Separation(transform.position, Positions(TransformsOf(neighbours)), norm)
    {
      var separationVec := Zero;
      ghost var away := Away(transform.position, Positions(TransformsOf(neighbours)));
      if |neighbours| > 0 {
        for i := 0 to |neighbours|
          invariant separationVec == Sum(away[..i])
        {
          assert away[..i + 1][..i] == away[..i];
          separationVec := Add(separationVec, Sub(transform.position, neighbours[i].transform.position));
        }
      } else {
        return separationVec;
      }
      assert away[..|neighbours|] == away;
      separationVec := Div(separationVec, |neighbours| as real);
      v := norm(separationVec);
    }

    /** The obstacle ray: on a hit, the hit normal and the boost set to ObstacleBoost; on a miss, zero and no change. */
    method CalculateObstacleVector(hit: Option<Vec3>) returns (v: Vec3)
      modifies this`moveData
      ensures hit.Some? ==> v == hit.value && moveData == old(moveData).(additionalSpeed := ObstacleBoost)
      ensures hit.None? ==> v == Zero && moveData == old(moveData)
    {
      var obstacleVec := Zero;
      if hit.Some? {
        obstacleVec := hit.value;
        moveData := moveData.(additionalSpeed := ObstacleBoost);
      }
      v := obstacleVec;
    }

    /** The steering part shared by `UpdateForSelf` and `UpdateForJob`: decay, weigh, compose, smooth. */
    method Steer(dt: real, hit: Option<Vec3>, norm: Vec3 -> Vec3)
      modifies this`moveData
      ensures moveData == Steered(old(moveData), myBoids, isEnemy, transform.position, transform.forward,
                                  Positions(TransformsOf(neighbours)), Forwards(TransformsOf(neighbours)), hit, dt, norm)
    {
      WeighTerms(dt, hit, norm);
      ComposeTarget(dt, norm);
    }

    /** The frame's boost decay: a positive boost loses dt, with no clamp at zero. */
    method DecayAdditionalSpeed(dt: real)
      modifies this`moveData
      ensures moveData == old(moveData).(additionalSpeed := DecayBoost(old(moveData).additionalSpeed, dt))
    {
      if moveData.additionalSpeed > 0.0 {
        moveData := moveData.(additionalSpeed := moveData.additionalSpeed - dt);
      }
    }

    /** The boost decay, then the six weighted terms stored in the record. */
    method WeighTerms(dt: real, hit: Option<Vec3>, norm: Vec3 -> Vec3)
      modifies this`moveData
      ensures moveData == WeightedTerms(old(moveData), myBoids, transform.position, transform.forward,
                                        Positions(TransformsOf(neighbours)), Forwards(TransformsOf(neighbours)), hit, dt, norm)
    {
      DecayAdditionalSpeed(dt);
      StoreFlockingTerms(norm);
      StoreEnvironmentTerms(hit, norm);
    }

    /** Cohesion, alignment and separation, each weighted and stored. */
    method StoreFlockingTerms(norm: Vec3 -> Vec3)
      modifies this`moveData
      ensures var ps, fs := Positions(TransformsOf(neighbours)), Forwards(TransformsOf(neighbours));
              moveData == old(moveData).(
                cohesionVec := Scale(Cohesion(ps, transform.position, norm), myBoids.cohesionWeight),
                alignmentVec := Scale(Alignment(transform.forward, fs, norm), myBoids.alignmentWeight),
                separationVec := Scale(Separation(transform.position, ps, norm), myBoids.separationWeight))
    {
      ghost var ts := TransformsOf(neighbours);
      ghost var ps, fs := Positions(ts), Forwards(ts);
      var cohesion := CalculateCohesionVector(norm);
      moveData := moveData.(cohesionVec := Scale(cohesion, myBoids.cohesionWeight));
      var alignment := CalculateAlignmentVector(norm);
      moveData := moveData.(alignmentVec := Scale(alignment, myBoids.alignmentWeight));
      var separation := CalculateSeparationVector(norm);
      moveData := moveData.(separationVec := Scale(separation, myBoids.separationWeight));
      assert TransformsOf(neighbours) == ts;
      assert Positions(ts) == ps && Forwards(ts) == fs;
    }

    /** Bounds, obstacle (with its boost side effect) and ego, each weighted and stored. */
    method StoreEnvironmentTerms(hit: Option<Vec3>, norm: Vec3 -> Vec3)
      modifies this`moveData
      ensures moveData == old(moveData).(
                additionalSpeed := BoostAfterRay(hit, old(moveData).additionalSpeed),
                boundsVec := Scale(BoundsVector(myBoids.center, transform.position, myBoids.spawnRange, norm),
                                   myBoids.boundsWeight),
                obstacleVec := Scale(ObstacleVector(hit), myBoids.obstacleWeight),
                egoVec := Scale(old(moveData).egoVector, myBoids.egoWeight))
    {
      var bounds := BoundsVector(myBoids.center, transform.position, myBoids.spawnRange, norm);
      moveData := moveData.(boundsVec := Scale(bounds, myBoids.boundsWeight));
      var obstacle := CalculateObstacleVector(hit);
      moveData := moveData.(obstacleVec := Scale(obstacle, myBoids.obstacleWeight));
      moveData := moveData.(egoVec := Scale(moveData.egoVector, myBoids.egoWeight));
    }

    /** The role-dependent sum, then the lerp from the current forward, normalisation and the ego fallback. */
    method ComposeTarget(dt: real, norm: Vec3 -> Vec3)
      modifies this`moveData
      ensures moveData == old(moveData).(targetVec := FinalDirection(transform.forward, RawTarget(old(moveData), isEnemy),
                                                                    dt, old(moveData).egoVector, norm))
    {
      if isEnemy {
        moveData := moveData.(targetVec := Add(Add(moveData.boundsVec, moveData.obstacleVec), moveData.egoVector));
      } else {
        moveData := moveData.(targetVec := Add(Add(Add(Add(Add(moveData.cohesionVec, moveData.alignmentVec),
                                                           moveData.separationVec), moveData.boundsVec),
                                                   moveData.obstacleVec), moveData.egoVec));
      }

      moveData := moveData.(targetVec := Lerp(transform.forward, moveData.targetVec, dt));
      moveData := moveData.(targetVec := norm(moveData.targetVec));
      if moveData.targetVec == Zero {
        moveData := moveData.(targetVec := moveData.egoVector);
      }
    }

    /** `Update`: the per-frame entry point, choosing the job mode or the self mode. */
    method Update(useJob: bool, dt: real, hit: Option<Vec3>, norm: Vec3 -> Vec3)
      modifies this`moveData, transform`position
      ensures moveData == Steered(old(moveData), myBoids, isEnemy, old(transform.position), transform.forward,
                                  old(Positions(TransformsOf(neighbours))), old(Forwards(TransformsOf(neighbours))),
                                  hit, dt, norm)
      ensures transform.position == if useJob then old(transform.position) else Moved(old(transform.position), moveData, dt)
    {
      if useJob {
        UpdateForJob(dt, hit, norm);
      } else {
        UpdateForSelf(dt, hit, norm);
      }
    }

    /** `UpdateForSelf`: steer, then move the own transform by the new record. */
    method UpdateForSelf(dt: real, hit: Option<Vec3>, norm: Vec3 -> Vec3)
      modifies this`moveData, transform`position
      ensures moveData == Steered(old(moveData), myBoids, isEnemy, old(transform.position), transform.forward,
                                  old(Positions(TransformsOf(neighbours))), old(Forwards(TransformsOf(neighbours))), hit, dt, norm)
      ensures transform.position == Moved(old(transform.position), moveData, dt)
    {
      Steer(dt, hit, norm);
      transform.position := Add(transform.position,
                                Scale(Scale(moveData.targetVec, moveData.speed + moveData.additionalSpeed), dt));
    }

    /** `UpdateForJob`: the same steering, leaving the transform to the position job. */
    method UpdateForJob(dt: real, hit: Option<Vec3>, norm: Vec3 -> Vec3)
      modifies this`moveData
      ensures moveData == Steered(old(moveData), myBoids, isEnemy, transform.position, transform.forward,
                                  Positions(TransformsOf(neighbours)), Forwards(TransformsOf(neighbours)), hit, dt, norm)
    {
      Steer(dt, hit, norm);
    }
  }
}

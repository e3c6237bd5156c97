/**
 * `BoidUpdater`: the transform list handed to the position job, and the
 * job itself. The list grows by append and shrinks by swap-back removal;
 * `BoidUpdate` snapshots every boid's record and the job then moves each
 * transform by its own snapshot entry. The parallel job is modelled as a
 * sequential pass over the indices, run to completion.
 */
module Updater {
  import opened Vectors
  import opened Engine
  import opened Steering
  import opened Boid

  /** No element occurs twice. */
  predicate Distinct<T(==)>(s: seq<T>) {
    forall i, j :: 0 <= i < j < |s| ==> s[i] != s[j]
  }

  /** `RemoveAtSwapBack(idx)`: the last element moves into slot idx, then the last slot is dropped. */
  function SwapBack<T>(s: seq<T>, idx: nat): (r: seq<T>)
    requires idx < |s|
    ensures |r| == |s| - 1
    ensures idx < |r| ==> r[idx] == s[|s| - 1]
    ensures forall j :: 0 <= j < |r| && j != idx ==> r[j] == s[j]
  {
    s[idx := s[|s| - 1]][..|s| - 1]
  }

  /** Removing the last slot just truncates. */
  lemma SwapBackLast<T>(s: seq<T>)
    requires |s| > 0
    ensures SwapBack(s, |s| - 1) == s[..|s| - 1]
  {
  }

  /** Swap-back removal loses exactly the removed element: the rest is a permutation of what is left. */
  lemma SwapBackMultiset<T>(s: seq<T>, idx: nat)
    requires idx < |s|
    ensures multiset(SwapBack(s, idx)) + multiset{s[idx]} == multiset(s)
  {
    var n := |s|;
    if idx == n - 1 {
      assert s == s[..n - 1] + [s[n - 1]];
    } else {
      var r := SwapBack(s, idx);
      var init := s[..n - 1];
      assert r == init[idx := s[n - 1]];
      assert s == init + [s[n - 1]];
      assert init == init[..idx] + [s[idx]] + init[idx + 1..];
      assert r == init[..idx] + [s[n - 1]] + init[idx + 1..];
    }
  }

  /** Swap-back removal keeps distinct elements distinct. */
  lemma SwapBackDistinct<T>(s: seq<T>, idx: nat)
    requires idx < |s| && Distinct(s)
    ensures Distinct(SwapBack(s, idx))
  {
    var r := SwapBack(s, idx);
    forall i, j | 0 <= i < j < |r|
      ensures r[i] != r[j]
    {
      var si := if i == idx then |s| - 1 else i;
      var sj := if j == idx then |s| - 1 else j;
      assert r[i] == s[si] && r[j] == s[sj] && si != sj;
    }
  }

  /**
   * Removing slot idx from the boid list and from the transform list in the
   * same way keeps slot i of the one the transform of slot i of the other.
   */
  lemma SwapBackCommutes(units: seq<BoidUnit>, idx: nat)
    requires idx < |units|
    ensures TransformsOf(SwapBack(units, idx)) == SwapBack(TransformsOf(units), idx)
  {
  }

  /** Ten boids, remove slot 3: nine remain, all distinct, and the former last is now in slot 3. */
  lemma RemoveThreeOfTen<T>(s: seq<T>)
    requires |s| == 10 && Distinct(s)
    ensures |SwapBack(s, 3)| == 9 && SwapBack(s, 3)[3] == s[9] && Distinct(SwapBack(s, 3))
    ensures multiset(SwapBack(s, 3)) == multiset(s) - multiset{s[3]}
  {
    SwapBackDistinct(s, 3);
    SwapBackMultiset(s, 3);
  }

  /** `boidList.Select(e => e.moveData).ToArray()`: the record of each boid, in list order. */
  function MoveDataOf(units: seq<BoidUnit>): (ms: seq<MoveData>)
    reads units
    ensures |ms| == |units|
    ensures forall i :: 0 <= i < |units| ==> ms[i] == units[i].moveData
  {
    seq(|units|, i requires 0 <= i < |units| reads units => units[i].moveData)
  }

  class BoidUpdater {
    var transformAccessArray: seq<Transform>
    /** The position job's snapshot and frame time. */
    var targetData: seq<MoveData>
    var jobDeltaTime: real

    constructor ()
      ensures transformAccessArray == [] && targetData == [] && jobDeltaTime == 0.0
    {
      transformAccessArray := [];
      targetData := [];
      jobDeltaTime := 0.0;
    }

    /** `Init`: a new transform list holding the transform of every boid of the list, in order. */
    method Init(boidList: seq<BoidUnit>)
      modifies this`transformAccessArray
      ensures transformAccessArray == TransformsOf(boidList)
    {
      transformAccessArray := [];
      for i := 0 to |boidList|
        invariant transformAccessArray == TransformsOf(boidList[..i])
      {
        assert TransformsOf(boidList[..i + 1]) == TransformsOf(boidList[..i]) + [boidList[i].transform];
        AddBoid(boidList[i]);
      }
      assert boidList[..|boidList|] == boidList;
    }

    /** `AddBoid`: append the unit's transform. */
    method AddBoid(unit: BoidUnit)
      modifies this`transformAccessArray
      ensures transformAccessArray == old(transformAccessArray) + [unit.transform]
    {
      transformAccessArray := transformAccessArray + [unit.transform];
    }

    /** `RemoveBoid`: swap-back removal of slot idx, which must be in range. */
    method RemoveBoid(idx: int)
      requires 0 <= idx < |transformAccessArray|
      modifies this`transformAccessArray
      ensures transformAccessArray == SwapBack(old(transformAccessArray), idx)
    {
      var last := |transformAccessArray| - 1;
      transformAccessArray := transformAccessArray[idx := transformAccessArray[last]][..last];
    }

    /**
     * `BoidUpdate`: snapshot every boid's record and the frame time, then
     * run the position job over the transform list. The job reads the
     * snapshot at every transform index, so the list may not be longer than
     * the boid list, and it writes through distinct transforms.
     */
    method BoidUpdate(boidList: seq<BoidUnit>, deltaTime: real)
      requires |transformAccessArray| <= |boidList|
      requires Distinct(transformAccessArray)
      modifies this`targetData, this`jobDeltaTime, transformAccessArray
      ensures targetData == MoveDataOf(boidList) && |targetData| == |boidList|
      ensures jobDeltaTime == deltaTime
      ensures forall i :: 0 <= i < |transformAccessArray| ==>
                transformAccessArray[i].position
                  == Moved(old(transformAccessArray[i].position), boidList[i].moveData, deltaTime)
      ensures forall i :: 0 <= i < |transformAccessArray| ==>
                transformAccessArray[i].forward == old(transformAccessArray[i].forward)
      ensures deltaTime == 0.0 ==> forall i :: 0 <= i < |transformAccessArray| ==>
                transformAccessArray[i].position == old(transformAccessArray[i].position)
      ensures transformAccessArray == TransformsOf(boidList) ==> forall i :: 0 <= i < |boidList| ==>
                boidList[i].transform.position
                  == Moved(old(boidList[i].transform.position), boidList[i].moveData, deltaTime)
    {
      targetData := MoveDataOf(boidList);
      jobDeltaTime := deltaTime;
      RunPositionJob();
    }

    /** The scheduled job: `Execute` for every index of the transform list. */
    method RunPositionJob()
      requires |transformAccessArray| <= |targetData|
      requires Distinct(transformAccessArray)
      modifies transformAccessArray
      ensures forall i :: 0 <= i < |transformAccessArray| ==>
                transformAccessArray[i].position
                  == Moved(old(transformAccessArray[i].position), targetData[i], jobDeltaTime)
      ensures forall i :: 0 <= i < |transformAccessArray| ==>
                transformAccessArray[i].forward == old(transformAccessArray[i].forward)
    {
      var ts := transformAccessArray;
      for index := 0 to |ts|
        invariant forall j :: 0 <= j < index ==>
                    ts[j].position == Moved(old(ts[j].position), targetData[j], jobDeltaTime)
        invariant forall j :: index <= j < |ts| ==> ts[j].position == old(ts[j].position)
        invariant forall j :: 0 <= j < |ts| ==> ts[j].forward == old(ts[j].forward)
      {
        Execute(index, ts[index]);
      }
    }

    /** `Execute(index, transform)`: move the transform by snapshot entry index only. */
    method Execute(index: nat, transform: Transform)
      requires index < |targetData|
      modifies transform`position
      ensures transform.position == Moved(old(transform.position), targetData[index], jobDeltaTime)
    {
      var data := targetData[index];
      transform.position := Add(transform.position,
                                Scale(Scale(data.targetVec, data.speed + data.additionalSpeed), jobDeltaTime));
    }
  }
}

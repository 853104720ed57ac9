/** The surface probes of Utility/Raycast.cs. `Physics.Raycast` is an oracle: a function from
    the ray (origin, direction, maximum distance) to the hit it reports, if any, for the layer
    mask the caller fixed. The angle between up and a hit's normal is reported by the engine
    with the hit (`Vector3.Angle` is not modelled). */
module Raycasts {
  import opened Wrappers
  import opened Vectors

  datatype RaycastHit = RaycastHit(
    point: Vec3,
    normal: Vec3,
    upAngle: real)   // Vector3.Angle(Vector3.up, normal), in degrees

  /** The `out` hit of a ray that hits nothing (C# `default(RaycastHit)`; the angle to a zero
      normal is 0). */
  const NoHit := RaycastHit(Zero, Zero, 0.0)

  /** Physics.Raycast for one layer mask: the hit within the given distance, if any. */
  type Raycaster = (Vec3, Vec3, real) -> Option<RaycastHit>

  const AngleLeeway: real := 2.0

  /** A hit is on a wall when its normal is within the leeway of horizontal. */
  predicate HitWall(hit: RaycastHit)
    ensures HitWall(hit) <==> 88.0 <= hit.upAngle <= 92.0
  {
    90.0 - AngleLeeway <= hit.upAngle <= 90.0 + AngleLeeway
  }

  datatype CastResult = CastResult(ok: bool, hit: RaycastHit)

  /** A single ray that counts only when it hits a wall within `maxDist`. The hit is reported
      whenever the ray hits something, wall or not. */
  function WallCast(cast: Raycaster, origin: Vec3, dir: Vec3, maxDist: real): (r: CastResult)
    ensures r.ok <==> cast(origin, dir, maxDist).Some? && 88.0 <= cast(origin, dir, maxDist).value.upAngle <= 92.0
    ensures r.hit == GetOr(cast(origin, dir, maxDist), NoHit)
  {
    match cast(origin, dir, maxDist)
    case Some(h) => CastResult(HitWall(h), h)
    case None => CastResult(false, NoHit)
  }

  datatype LadderData = LadderData(hit: RaycastHit, highestPos: Vec3)

  /** The `out` data of a failed ladder scan (C# `default(LadderData)`). */
  const NoLadder := LadderData(NoHit, Zero)

  /** The origin of probe `i` of `rayCount`: the fraction i/(rayCount-1) of the way from
      `start` to `end`. (With a single probe the source divides 0 by 0; see `Ladder`.) */
  function ProbePos(start: Vec3, end: Vec3, i: int, rayCount: int): Vec3
    requires rayCount != 1
  {
    Lerp(start, end, i as real / (rayCount - 1) as real)
  }

  /** Whether probe `i` hits a wall within the ladder's fixed reach of 1. */
  predicate WallProbe(cast: Raycaster, start: Vec3, end: Vec3, dir: Vec3, i: int, rayCount: int)
    requires rayCount != 1
  {
    WallCast(cast, ProbePos(start, end, i, rayCount), dir, 1.0).ok
  }

  /** The index one past the unbroken run of wall hits that starts at probe `i`. */
  function RunEnd(cast: Raycaster, start: Vec3, end: Vec3, dir: Vec3, rayCount: int, i: nat): (k: nat)
    requires rayCount != 1
    ensures i <= k && (k == i || k <= rayCount)
    ensures forall j :: i <= j < k ==> WallProbe(cast, start, end, dir, j, rayCount)
    ensures k < rayCount ==> !WallProbe(cast, start, end, dir, k, rayCount)
    decreases rayCount - i
  {
    if i >= rayCount || !WallProbe(cast, start, end, dir, i, rayCount) then i
    else RunEnd(cast, start, end, dir, rayCount, i + 1)
  }

  datatype LadderResult = LadderResult(success: bool, data: LadderData)

  /** What the ladder scan computes: success when the first probe hits a wall, and then the
      hit and origin of the last probe of the leading run of wall hits. */
  function LadderOf(cast: Raycaster, start: Vec3, end: Vec3, dir: Vec3, rayCount: int): (r: LadderResult)
    requires rayCount != 1
    ensures r.success <==> rayCount > 0 && WallProbe(cast, start, end, dir, 0, rayCount)
    ensures !r.success ==> r.data == NoLadder
  {
    var k := RunEnd(cast, start, end, dir, rayCount, 0);
    if k == 0 then LadderResult(false, NoLadder)
    else
      var pos := ProbePos(start, end, k - 1, rayCount);
      LadderResult(true, LadderData(WallCast(cast, pos, dir, 1.0).hit, pos))
  }

  /** Probes `rayCount` evenly spaced points from `start` to `end`, in order, and stops at the
      first probe that does not hit a wall. The source computes the probe fraction as
      `i / (rayCount - 1)`, which for a single probe is 0/0 (NaN in floats); its callers use 3
      and 10 probes, and the model requires `rayCount != 1`. */
  method Ladder(start: Vec3, end: Vec3, rayDir: Vec3, rayCount: int, cast: Raycaster)
    returns (success: bool, data: LadderData)
    requires rayCount != 1
    ensures LadderResult(success, data) == LadderOf(cast, start, end, rayDir, rayCount)
  {
    data := NoLadder;
    success := false;
    var i := 0;
    while i < rayCount
      invariant 0 <= i && (i == 0 || i <= rayCount)
      invariant RunEnd(cast, start, end, rayDir, rayCount, 0) == RunEnd(cast, start, end, rayDir, rayCount, i)
      invariant success <==> i > 0
      invariant i == 0 ==> data == NoLadder
      invariant i > 0 ==> data == LadderData(WallCast(cast, ProbePos(start, end, i - 1, rayCount), rayDir, 1.0).hit,
                                             ProbePos(start, end, i - 1, rayCount))
    {
      var curRayPos := ProbePos(start, end, i, rayCount);
      var probe := WallCast(cast, curRayPos, rayDir, 1.0);
      if probe.ok {
        data := LadderData(probe.hit, curRayPos);
        success := true;
        i := i + 1;
        continue;
      }
      break;
    }
  }

  /** The scan reaches the end point exactly when every probe hits a wall. This is what the
      controller's full-height checks rely on. When the end points coincide, every probe is
      the same ray, so one wall hit is a wall hit for all. */
  lemma LadderReachesEndIffAllWalls(cast: Raycaster, start: Vec3, end: Vec3, dir: Vec3, rayCount: int)
    requires rayCount >= 2
    ensures (forall j :: 0 <= j < rayCount ==> WallProbe(cast, start, end, dir, j, rayCount)) ==>
              LadderOf(cast, start, end, dir, rayCount).success &&
              LadderOf(cast, start, end, dir, rayCount).data.highestPos == end
    ensures LadderOf(cast, start, end, dir, rayCount).success &&
            LadderOf(cast, start, end, dir, rayCount).data.highestPos == end ==>
              forall j :: 0 <= j < rayCount ==> WallProbe(cast, start, end, dir, j, rayCount)
  {
    var k := RunEnd(cast, start, end, dir, rayCount, 0);
    var n := (rayCount - 1) as real;
    if forall j :: 0 <= j < rayCount ==> WallProbe(cast, start, end, dir, j, rayCount) {
      assert k == rayCount;
      assert (k - 1) as real / n == 1.0;
    }
    if start == end && k > 0 {
      forall j | 0 <= j < rayCount
        ensures WallProbe(cast, start, end, dir, j, rayCount)
      {
        assert ProbePos(start, end, j, rayCount) == ProbePos(start, end, 0, rayCount);
      }
    }
    if start != end && k > 0 && ProbePos(start, end, k - 1, rayCount) == end {
      LerpReachesEndOnlyAtOne(start, end, (k - 1) as real / n);
      assert (k - 1) as real == n by {
        assert (k - 1) as real == ((k - 1) as real / n) * n;
      }
    }
  }

  /** Once a probe misses, later probes cannot change the result: two oracles that agree on the
      probes up to and including the first one that fails give the same scan. */
  lemma {:induction false} LadderIgnoresLaterProbes(c1: Raycaster, c2: Raycaster, start: Vec3, end: Vec3, dir: Vec3, rayCount: int)
    requires rayCount != 1
    requires forall j :: 0 <= j <= RunEnd(c1, start, end, dir, rayCount, 0) && j < rayCount ==>
               c1(ProbePos(start, end, j, rayCount), dir, 1.0) == c2(ProbePos(start, end, j, rayCount), dir, 1.0)
    ensures LadderOf(c1, start, end, dir, rayCount) == LadderOf(c2, start, end, dir, rayCount)
  {
    var k := RunEnd(c1, start, end, dir, rayCount, 0);
    RunEndAgrees(c1, c2, start, end, dir, rayCount, 0, k);
  }

  lemma {:induction false} RunEndAgrees(c1: Raycaster, c2: Raycaster, start: Vec3, end: Vec3, dir: Vec3, rayCount: int, i: nat, k: nat)
    requires rayCount != 1
    requires k == RunEnd(c1, start, end, dir, rayCount, i)
    requires forall j :: i <= j <= k && j < rayCount ==>
               c1(ProbePos(start, end, j, rayCount), dir, 1.0) == c2(ProbePos(start, end, j, rayCount), dir, 1.0)
    ensures RunEnd(c2, start, end, dir, rayCount, i) == k
    decreases rayCount - i
  {
    if i < rayCount && WallProbe(c1, start, end, dir, i, rayCount) {
      RunEndAgrees(c1, c2, start, end, dir, rayCount, i + 1, k);
    }
  }
}

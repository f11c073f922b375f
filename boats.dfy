/** The two racing boats (static/javaScript/boats.js): where they are, how a
    stroke moves one forward, the cosmetic bobbing with its cache of sine and
    cosine values, and the reset to the start line. The meshes, materials and
    the model loader are left out; a boat is its position and rotation. */
module Boats {
  import opened Config

  /** Position and rotation (Euler angles, radians) of one boat. */
  datatype Pose = Pose(x: real, y: real, z: real, rotX: real, rotY: real, rotZ: real)

  /** The lane of boat 0 and boat 1. */
  function LaneX(index: nat): real
  {
    if index == 0 then BOAT_1_X else BOAT_2_X
  }

  /** The pose a boat is given when it is created: at the start line in its lane,
      turned by pi when it is a clone of the loaded model, unturned when it is a
      fallback box boat. */
  function CreatedPose(index: nat, modelLoaded: bool): (p: Pose)
    ensures p.x == LaneX(index) && p.y == BOAT_BASE_Y && p.z == START_POSITION_Z
    ensures p.rotX == 0.0 && p.rotZ == 0.0
    ensures p.rotY == (if modelLoaded then PI else 0.0)
  {
    Pose(LaneX(index), BOAT_BASE_Y, START_POSITION_Z, 0.0, if modelLoaded then PI else 0.0, 0.0)
  }

  /** The pose resetBoats gives boat 0 and boat 1. */
  function StartPose(index: nat): Pose
  {
    Pose(LaneX(index), BOAT_BASE_Y, START_POSITION_Z, 0.0, PI, 0.0)
  }

  /** The boats after resetBoats: the first two back at the start, any others untouched. */
  function ResetPoses(bs: seq<Pose>): (r: seq<Pose>)
    ensures |r| == |bs|
    ensures forall i :: 0 <= i < |r| ==> r[i] == if i < 2 then StartPose(i) else bs[i]
  {
    if |bs| == 0 then bs
    else if |bs| == 1 then [StartPose(0)]
    else [StartPose(0), StartPose(1)] + bs[2..]
  }

  /** Resetting twice is resetting once. */
  lemma ResetIdempotent(bs: seq<Pose>)
    ensures ResetPoses(ResetPoses(bs)) == ResetPoses(bs)
  {
    if |bs| >= 2 {
      assert ResetPoses(bs)[2..] == bs[2..];
    }
  }

  /** A reset restores the freshly created boats exactly when the model was loaded;
      fallback boats come back turned round by pi. */
  lemma ResetRestoresCreation(modelLoaded: bool)
    ensures var created := [CreatedPose(0, modelLoaded), CreatedPose(1, modelLoaded)];
      ResetPoses(created) == created <==> modelLoaded
  {
    var created := [CreatedPose(0, modelLoaded), CreatedPose(1, modelLoaded)];
    if !modelLoaded {
      assert ResetPoses(created)[0].rotY == PI != created[0].rotY;
    }
  }

  /** Phases that share a cache key lie less than a tenth apart, so a cache hit returns the
      sine of a phase at most that far from the one asked for. */
  lemma SameKeyNearby(t1: real, t2: real)
    requires CacheKey(t1) == CacheKey(t2)
    ensures -0.1 < t1 - t2 < 0.1
  {
  }

  /** The cosmetic pose change of animateBoatCached: the height follows the sine value and,
      on every eighth stroke only, the roll and pitch follow sine and cosine. */
  function Bob(p: Pose, sinTime: real, cosTime: real, rotate: bool): (r: Pose)
    ensures r.x == p.x && r.z == p.z && r.rotY == p.rotY
    ensures r.y == BOAT_BASE_Y + sinTime * WAVE_AMPLITUDE * 0.5
    ensures !rotate ==> r.rotX == p.rotX && r.rotZ == p.rotZ
  {
    var q := p.(y := BOAT_BASE_Y + sinTime * WAVE_AMPLITUDE * 0.5);
    if rotate then q.(rotX := sinTime * 0.02, rotZ := cosTime * 0.03) else q
  }

  /** The wave phase that animates boat index. */
  function WavePhase(waveTime: real, index: nat): real
  {
    waveTime * WAVE_FREQUENCY + index as real * 1.57
  }

  /** Math.floor(time * 10): the cache key of a phase. */
  function CacheKey(time: real): int
  {
    (time * 10.0).Floor
  }

  /** The cache is cleared when an insertion finds it holding more than this many entries. */
  const CACHE_LIMIT: nat := 100

  /** The number of strokes a boat needs from the start line to the finish line, with
      positions as exact reals. */
  const STROKES_TO_FINISH: nat := 375

  /** With exact reals, a boat that only rows forward crosses the finish line at its 375th
      stroke and not before. */
  lemma StrokesToFinish(n: nat)
    ensures START_POSITION_Z + n as real * BOAT_SPEED >= FINISH_LINE_Z <==> n >= STROKES_TO_FINISH
  {
  }

  /** Both caches hold the same keys, at most one more than the clearing limit, and every
      entry is the sine (cosine) of a phase that falls under its key; sampleTime records,
      for every cached key, the phase whose values were stored under it. */
  ghost predicate CachesAgree(sin: real -> real, cos: real -> real, sinCache: map<int, real>,
                              cosCache: map<int, real>, sampleTime: map<int, real>)
  {
    sinCache.Keys == sampleTime.Keys &&
    cosCache.Keys == sampleTime.Keys &&
    |sampleTime| <= CACHE_LIMIT + 1 &&
    forall k :: k in sampleTime ==>
      CacheKey(sampleTime[k]) == k && sinCache[k] == sin(sampleTime[k]) && cosCache[k] == cos(sampleTime[k])
  }

  /** Storing the values of a phase whose key is absent keeps the caches in agreement,
      provided the caches held no more than the limit. */
  lemma StoreKeeps(sin: real -> real, cos: real -> real, sinCache: map<int, real>,
                   cosCache: map<int, real>, sampleTime: map<int, real>, time: real)
    requires CachesAgree(sin, cos, sinCache, cosCache, sampleTime)
    requires CacheKey(time) !in sinCache && |sinCache| <= CACHE_LIMIT
    ensures CachesAgree(sin, cos, sinCache[CacheKey(time) := sin(time)], cosCache[CacheKey(time) := cos(time)],
                        sampleTime[CacheKey(time) := time])
  {
    assert |sinCache| == |sampleTime| by {
      assert sinCache.Keys == sampleTime.Keys;
    }
  }

  class BoatManager {
    /** Math.sin and Math.cos. */
    const sin: real -> real
    const cos: real -> real

    var boats: seq<Pose>
    var waveTime: real
    var animationFrame: nat
    var sinCache: map<int, real>
    var cosCache: map<int, real>
    ghost var sampleTime: map<int, real>

    ghost predicate Valid()
      reads this
    {
      CachesAgree(sin, cos, sinCache, cosCache, sampleTime)
    }

    constructor(sin: real -> real, cos: real -> real)
      ensures Valid()
      ensures this.sin == sin && this.cos == cos
      ensures boats == [] && waveTime == 0.0 && animationFrame == 0
      ensures sinCache == map[] && cosCache == map[]
    {
      this.sin := sin;
      this.cos := cos;
      boats := [];
      waveTime := 0.0;
      animationFrame := 0;
      sinCache := map[];
      cosCache := map[];
      sampleTime := map[];
    }

    /** createBoats: clones of the model when it loaded, fallback boats when loading
        failed; either way boats 0 and 1 are (re)placed at the start line. */
    method CreateBoats(modelLoaded: bool)
      requires Valid()
      modifies this
      ensures Valid()
      ensures |boats| == if |old(boats)| > 2 then |old(boats)| else 2
      ensures boats[0] == CreatedPose(0, modelLoaded) && boats[1] == CreatedPose(1, modelLoaded)
      ensures boats[2..] == old(if |boats| > 2 then boats[2..] else [])
      ensures waveTime == old(waveTime) && animationFrame == old(animationFrame)
      ensures sinCache == old(sinCache) && cosCache == old(cosCache) && sampleTime == old(sampleTime)
    {
      var rest := if |boats| > 2 then boats[2..] else [];
      boats := [CreatedPose(0, modelLoaded), CreatedPose(1, modelLoaded)] + rest;
    }

    /** animateBoatCached: looks the phase up in the caches, computing and storing it on a
        miss (clearing both caches first when they hold more than the limit), then bobs the boat. */
    method AnimateBoatCached(index: nat)
      requires Valid() && index < |boats|
      modifies this
      ensures Valid()
      ensures var key := CacheKey(WavePhase(waveTime, index));
        key in sinCache &&
        boats == old(boats)[index := Bob(old(boats[index]), sinCache[key], cosCache[key], animationFrame % 8 == 0)] &&
        (key in old(sinCache) ==> sinCache == old(sinCache) && cosCache == old(cosCache)) &&
        (key !in old(sinCache) ==>
          sinCache[key] == sin(WavePhase(waveTime, index)) && cosCache[key] == cos(WavePhase(waveTime, index)) &&
          (|old(sinCache)| > CACHE_LIMIT ==> sinCache.Keys == {key}) &&
          (|old(sinCache)| <= CACHE_LIMIT ==> sinCache.Keys == old(sinCache).Keys + {key}))
      ensures waveTime == old(waveTime) && animationFrame == old(animationFrame)
    {
      var time := WavePhase(waveTime, index);
      var key := CacheKey(time);
      var sinTime, cosTime;
      if key in sinCache {
        sinTime := sinCache[key];
        cosTime := cosCache[key];
      } else {
        sinTime := sin(time);
        cosTime := cos(time);
        StoreSample(time);
      }
      boats := boats[index := Bob(boats[index], sinTime, cosTime, animationFrame % 8 == 0)];
    }

    /** The cache-miss path: both caches are cleared when they hold more than the limit,
        then the sine and cosine of time are stored under its key. */
    method StoreSample(time: real)
      requires Valid() && CacheKey(time) !in sinCache
      modifies this
      ensures Valid()
      ensures sinCache == (if |old(sinCache)| > CACHE_LIMIT then map[] else old(sinCache))[CacheKey(time) := sin(time)]
      ensures cosCache == (if |old(sinCache)| > CACHE_LIMIT then map[] else old(cosCache))[CacheKey(time) := cos(time)]
      ensures boats == old(boats) && waveTime == old(waveTime) && animationFrame == old(animationFrame)
    {
      if |sinCache| > CACHE_LIMIT {
        ClearCaches();
      }
      var key := CacheKey(time);
      StoreKeeps(sin, cos, sinCache, cosCache, sampleTime, time);
      sinCache := sinCache[key := sin(time)];
      cosCache := cosCache[key := cos(time)];
      sampleTime := sampleTime[key := time];
    }

    method ClearCaches()
      modifies this
      ensures Valid()
      ensures sinCache == map[] && cosCache == map[]
      ensures boats == old(boats) && waveTime == old(waveTime) && animationFrame == old(animationFrame)
    {
      sinCache := map[];
      cosCache := map[];
      sampleTime := map[];
    }

    /** moveBoat: a stroke of a boat that exists moves it BOAT_SPEED forward, counts the
        stroke, and on every fourth stroke runs the cosmetic animation. */
    method MoveBoat(index: int, isMoving: bool)
      requires Valid()
      modifies this
      ensures Valid()
      ensures |boats| == |old(boats)|
      ensures !isMoving || !(0 <= index < |old(boats)|) ==>
        boats == old(boats) && animationFrame == old(animationFrame) &&
        sinCache == old(sinCache) && cosCache == old(cosCache)
      ensures isMoving && 0 <= index < |old(boats)| ==>
        animationFrame == old(animationFrame) + 1 &&
        boats[index].z == old(boats[index].z) + BOAT_SPEED &&
        boats[index].x == old(boats[index].x) && boats[index].rotY == old(boats[index].rotY) &&
        (forall j :: 0 <= j < |boats| && j != index ==> boats[j] == old(boats[j])) &&
        (animationFrame % 4 != 0 ==>
          boats[index] == old(boats[index]).(z := old(boats[index].z) + BOAT_SPEED) &&
          sinCache == old(sinCache) && cosCache == old(cosCache)) &&
        (animationFrame % 4 == 0 ==>
          var key := CacheKey(WavePhase(waveTime, index));
          key in sinCache &&
          boats[index] == Bob(old(boats[index]).(z := old(boats[index].z) + BOAT_SPEED),
                              sinCache[key], cosCache[key], animationFrame % 8 == 0))
      ensures waveTime == old(waveTime)
    {
      if !(0 <= index < |boats|) || !isMoving {
        return;
      }
      boats := boats[index := boats[index].(z := boats[index].z + BOAT_SPEED)];
      animationFrame := animationFrame + 1;
      if animationFrame % 4 == 0 {
        AnimateBoatCached(index);
      }
    }

    /** updateWaveTime: the wave clock advances by half a unit per call, whatever the frame time. */
    method UpdateWaveTime()
      requires Valid()
      modifies this
      ensures Valid()
      ensures waveTime == old(waveTime) + 0.5
      ensures boats == old(boats) && animationFrame == old(animationFrame)
      ensures sinCache == old(sinCache) && cosCache == old(cosCache) && sampleTime == old(sampleTime)
    {
      waveTime := waveTime + 0.5;
    }

    method ResetBoats()
      requires Valid()
      modifies this
      ensures Valid()
      ensures boats == ResetPoses(old(boats))
      ensures waveTime == old(waveTime) && animationFrame == old(animationFrame)
      ensures sinCache == old(sinCache) && cosCache == old(cosCache) && sampleTime == old(sampleTime)
    {
      boats := ResetPoses(boats);
    }

    /** dispose: removes every boat and empties both caches. */
    method Dispose()
      modifies this
      ensures Valid()
      ensures boats == [] && sinCache == map[] && cosCache == map[]
      ensures waveTime == old(waveTime) && animationFrame == old(animationFrame)
    {
      ClearCaches();
      boats := [];
    }
  }
}

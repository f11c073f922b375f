/** The river scenery (static/javaScript/environment.js), reduced to what it
    computes: the frame counter of update(), the water chunks laid end to end,
    and where the finish line, grass patches and trees are placed. Meshes,
    materials and model loading are left out; an object added to the scene is
    its position. */
module Scenery {
  import opened Util
  import opened Config

  datatype Vec3 = Vec3(x: real, y: real, z: real)

  datatype PerfMode = High | Low

  /** The layout settings the environment reads from its configuration object.
      0.0 stands for a setting that is absent (both are falsy for `||`). */
  datatype LayoutConfig = LayoutConfig(
    waterWidth: real, waterLength: real, riverWidth: real, riverLength: real,
    bankWidth: real, finishLineZ: real)

  /** The settings of the game's configuration object. */
  const GAME_LAYOUT: LayoutConfig :=
    LayoutConfig(WATER_WIDTH, WATER_LENGTH, RIVER_WIDTH, RIVER_LENGTH, BANK_WIDTH, FINISH_LINE_Z)

  /** a || b on numbers. */
  function OrNum(a: real, b: real): (r: real)
    ensures a != 0.0 ==> r == a
    ensures a == 0.0 ==> r == b
  {
    if a != 0.0 then a else b
  }

  function ChunkCount(mode: PerfMode): nat
  {
    if mode == High then 3 else 2
  }

  /** WATER_LENGTH || RIVER_LENGTH. */
  function ChunkLength(c: LayoutConfig): real
  {
    OrNum(c.waterLength, c.riverLength)
  }

  /** Where water chunk i is placed. */
  function ChunkPosition(c: LayoutConfig, i: nat): Vec3
  {
    Vec3(0.0, -0.5, -ChunkLength(c) * i as real)
  }

  /** Consecutive chunks touch: each starts one chunk length further along -z. */
  lemma ChunksAbut(c: LayoutConfig, i: nat)
    ensures ChunkPosition(c, i + 1).z == ChunkPosition(c, i).z - ChunkLength(c)
    ensures ChunkPosition(c, 0).z == 0.0
  {
  }

  /** WATER_WIDTH || RIVER_WIDTH || 50. */
  function RiverWidth(c: LayoutConfig): real
  {
    OrNum(OrNum(c.waterWidth, c.riverWidth), 50.0)
  }

  /** BANK_WIDTH || 30. */
  function BankWidth(c: LayoutConfig): real
  {
    OrNum(c.bankWidth, 30.0)
  }

  /** FINISH_LINE_Z || 100. */
  function FinishZ(c: LayoutConfig): real
  {
    OrNum(c.finishLineZ, 100.0)
  }

  /** The two posts and the banner of the finish line. */
  function FinishLinePieces(c: LayoutConfig): (r: seq<Vec3>)
    ensures |r| == 3
    ensures forall i :: 0 <= i < |r| ==> r[i].z == FinishZ(c)
    ensures r[0].x < r[2].x < r[1].x
  {
    [Vec3(-18.0, 8.0, FinishZ(c)), Vec3(20.0, 8.0, FinishZ(c)), Vec3(0.0, 5.0, FinishZ(c))]
  }

  /** With the game's settings the finish line stands where boats finish and the chunks are 500 long. */
  lemma GameLayout()
    ensures FinishZ(GAME_LAYOUT) == FINISH_LINE_Z
    ensures ChunkLength(GAME_LAYOUT) == 500.0
    ensures RiverWidth(GAME_LAYOUT) == 50.0 && BankWidth(GAME_LAYOUT) == 95.0
  {
  }

  function GrassLeftX(c: LayoutConfig): real
  {
    -(RiverWidth(c) / 2.0 + BankWidth(c) * 0.6)
  }

  function GrassRightX(c: LayoutConfig): real
  {
    RiverWidth(c) / 2.0 + BankWidth(c) * 0.3
  }

  const GRASS_SPACING: real := 40.0
  const PATCHES_PER_SIDE: nat := 3
  const TREE_SPACING: real := 60.0
  const PALMS_PER_SIDE: nat := 2

  /** Left and right grass patch of row i. */
  function GrassRow(c: LayoutConfig, i: nat): seq<Vec3>
  {
    [Vec3(GrassLeftX(c), -1.0, (i as real - 1.0) * GRASS_SPACING),
     Vec3(GrassRightX(c), -1.0, (i as real - 1.0) * GRASS_SPACING)]
  }

  /** Tree i of a row of trees at xPos. */
  function TreePosition(xPos: real, i: nat): Vec3
  {
    Vec3(xPos, 0.0, (i as real - 0.5) * TREE_SPACING)
  }

  function PalmLeftX(c: LayoutConfig): real { -RiverWidth(c) / 2.0 - 25.0 }
  function PalmRightX(c: LayoutConfig): real { RiverWidth(c) / 2.0 + 25.0 }

  /** The two small oaks, one per bank, level with the origin. */
  function OakPositions(c: LayoutConfig): seq<Vec3>
  {
    [Vec3(-RiverWidth(c) / 2.0 - 15.0, 0.0, 0.0), Vec3(RiverWidth(c) / 2.0 + 15.0, 0.0, 0.0)]
  }

  /** For positive widths every bank object stands outside the water, on its own side. */
  lemma BanksOutsideRiver(c: LayoutConfig)
    requires c.waterWidth >= 0.0 && c.riverWidth >= 0.0 && c.bankWidth >= 0.0
    ensures GrassLeftX(c) < -RiverWidth(c) / 2.0 && GrassRightX(c) > RiverWidth(c) / 2.0
    ensures PalmLeftX(c) < -RiverWidth(c) / 2.0 && PalmRightX(c) > RiverWidth(c) / 2.0
    ensures OakPositions(c)[0].x < -RiverWidth(c) / 2.0 && OakPositions(c)[1].x > RiverWidth(c) / 2.0
  {
  }

  /** update() advances waveTime by one per call and, only on calls that start on a
      multiple of 5, tests whether the new value is a multiple of 10. That never holds. */
  lemma VertexPassUnreachable(w: int)
    requires w % 5 == 0
    ensures (w + 1) % 10 == 1 || (w + 1) % 10 == 6
  {
    var k := w / 5;
    assert w == 5 * k;
    if k % 2 == 0 {
      assert w + 1 == 10 * (k / 2) + 1;
    } else {
      assert w + 1 == 10 * (k / 2) + 6;
    }
  }

  /** Where the water overlay plane sits. */
  const WATER_OVERLAY: Vec3 := Vec3(0.0, 0.01, 0.0)

  class Environment {
    const performanceMode: PerfMode
    const config: LayoutConfig
    var riverChunks: seq<Vec3>
    /** The first water chunk, the one update() would animate. */
    var water: Option<Vec3>
    var waveTime: int
    /** How many times update() rewrote the water vertices. */
    var vertexPasses: nat
    /** Positions of everything added to the scene, in order. */
    var placed: seq<Vec3>

    constructor(config: LayoutConfig, performanceMode: PerfMode)
      ensures this.config == config && this.performanceMode == performanceMode
      ensures riverChunks == [] && water == None && waveTime == 0 && vertexPasses == 0 && placed == []
    {
      this.config := config;
      this.performanceMode := performanceMode;
      riverChunks := [];
      water := None;
      waveTime := 0;
      vertexPasses := 0;
      placed := [];
    }

    /** createOptimizedWater: 3 chunks in high performance mode, 2 in low, chunk i at
        z = -chunkLength * i; the first one is the water the update animates. */
    method CreateOptimizedWater()
      modifies this
      ensures |riverChunks| == ChunkCount(performanceMode)
      ensures forall i :: 0 <= i < |riverChunks| ==> riverChunks[i] == ChunkPosition(config, i)
      ensures water == Some(riverChunks[0])
      ensures placed == old(placed) + riverChunks
      ensures waveTime == old(waveTime) && vertexPasses == old(vertexPasses)
    {
      var chunkCount := ChunkCount(performanceMode);
      riverChunks := [];
      var i := 0;
      while i < chunkCount
        invariant 0 <= i <= chunkCount
        invariant |riverChunks| == i
        invariant forall j :: 0 <= j < i ==> riverChunks[j] == ChunkPosition(config, j)
        invariant i > 0 ==> water == Some(riverChunks[0])
        invariant placed == old(placed) + riverChunks
        invariant waveTime == old(waveTime) && vertexPasses == old(vertexPasses)
      {
        var chunk := ChunkPosition(config, i);
        placed := placed + [chunk];
        riverChunks := riverChunks + [chunk];
        if i == 0 {
          water := Some(chunk);
        }
        i := i + 1;
      }
    }

    /** createFinishLine: two posts and the banner, all at the finish-line z. */
    method CreateFinishLine()
      modifies this
      ensures placed == old(placed) + FinishLinePieces(config)
      ensures riverChunks == old(riverChunks) && water == old(water)
      ensures waveTime == old(waveTime) && vertexPasses == old(vertexPasses)
    {
      var finishZ := FinishZ(config);
      placed := placed + [Vec3(-18.0, 8.0, finishZ)];
      placed := placed + [Vec3(20.0, 8.0, finishZ)];
      placed := placed + [Vec3(0.0, 5.0, finishZ)];
    }

    /** The grass model's load callback: three rows, a patch on each bank per row,
        at z = (i - 1) * 40. */
    method PlaceGrassPatches()
      modifies this
      ensures |placed| == |old(placed)| + 2 * PATCHES_PER_SIDE
      ensures forall i :: 0 <= i < PATCHES_PER_SIDE ==>
        placed[|old(placed)| + 2 * i] == GrassRow(config, i)[0] &&
        placed[|old(placed)| + 2 * i + 1] == GrassRow(config, i)[1]
      ensures placed[..|old(placed)|] == old(placed)
      ensures riverChunks == old(riverChunks) && water == old(water)
      ensures waveTime == old(waveTime) && vertexPasses == old(vertexPasses)
    {
      var i := 0;
      while i < PATCHES_PER_SIDE
        invariant 0 <= i <= PATCHES_PER_SIDE
        invariant |placed| == |old(placed)| + 2 * i
        invariant placed[..|old(placed)|] == old(placed)
        invariant forall j :: 0 <= j < i ==>
          placed[|old(placed)| + 2 * j] == GrassRow(config, j)[0] &&
          placed[|old(placed)| + 2 * j + 1] == GrassRow(config, j)[1]
        invariant riverChunks == old(riverChunks) && water == old(water)
        invariant waveTime == old(waveTime) && vertexPasses == old(vertexPasses)
      {
        var zPos := (i as real - 1.0) * GRASS_SPACING;
        placed := placed + [Vec3(GrassLeftX(config), -1.0, zPos)];
        placed := placed + [Vec3(GrassRightX(config), -1.0, zPos)];
        i := i + 1;
      }
    }

    /** placeMinimalTrees: count trees at xPos, tree i at z = (i - 0.5) * 60. */
    method PlaceMinimalTrees(xPos: real, count: nat)
      modifies this
      ensures |placed| == |old(placed)| + count
      ensures placed[..|old(placed)|] == old(placed)
      ensures forall i :: 0 <= i < count ==> placed[|old(placed)| + i] == TreePosition(xPos, i)
      ensures riverChunks == old(riverChunks) && water == old(water)
      ensures waveTime == old(waveTime) && vertexPasses == old(vertexPasses)
    {
      var i := 0;
      while i < count
        invariant 0 <= i <= count
        invariant |placed| == |old(placed)| + i
        invariant placed[..|old(placed)|] == old(placed)
        invariant forall j :: 0 <= j < i ==> placed[|old(placed)| + j] == TreePosition(xPos, j)
        invariant riverChunks == old(riverChunks) && water == old(water)
        invariant waveTime == old(waveTime) && vertexPasses == old(vertexPasses)
      {
        placed := placed + [TreePosition(xPos, i)];
        i := i + 1;
      }
    }

    /** The palm model's load callback: two palms on each bank. */
    method PlacePalms()
      modifies this
      ensures placed == old(placed) + [TreePosition(PalmLeftX(config), 0), TreePosition(PalmLeftX(config), 1),
                                       TreePosition(PalmRightX(config), 0), TreePosition(PalmRightX(config), 1)]
      ensures riverChunks == old(riverChunks) && water == old(water)
      ensures waveTime == old(waveTime) && vertexPasses == old(vertexPasses)
    {
      PlaceMinimalTrees(PalmLeftX(config), PALMS_PER_SIDE);
      ghost var left := placed;
      PlaceMinimalTrees(PalmRightX(config), PALMS_PER_SIDE);
      assert placed == left + placed[|left|..];
    }

    /** The oak model's load callback. */
    method PlaceOaks()
      modifies this
      ensures placed == old(placed) + OakPositions(config)
      ensures riverChunks == old(riverChunks) && water == old(water)
      ensures waveTime == old(waveTime) && vertexPasses == old(vertexPasses)
    {
      placed := placed + [Vec3(-RiverWidth(config) / 2.0 - 15.0, 0.0, 0.0)];
      placed := placed + [Vec3(RiverWidth(config) / 2.0 + 15.0, 0.0, 0.0)];
    }

    /** addOptimizedWaterOverlay: a flat translucent plane just above the water. */
    method AddWaterOverlay()
      modifies this
      ensures placed == old(placed) + [WATER_OVERLAY]
      ensures riverChunks == old(riverChunks) && water == old(water)
      ensures waveTime == old(waveTime) && vertexPasses == old(vertexPasses)
    {
      placed := placed + [WATER_OVERLAY];
    }

    /** init: the water chunks, the finish line and the overlay, in that order. The bank
        models arrive later through their load callbacks (PlaceGrassPatches, PlacePalms,
        PlaceOaks). */
    method Init()
      modifies this
      ensures |riverChunks| == ChunkCount(performanceMode) && water == Some(riverChunks[0])
      ensures forall i :: 0 <= i < |riverChunks| ==> riverChunks[i] == ChunkPosition(config, i)
      ensures placed == old(placed) + riverChunks + FinishLinePieces(config) + [WATER_OVERLAY]
      ensures waveTime == old(waveTime) && vertexPasses == old(vertexPasses)
    {
      CreateOptimizedWater();
      CreateFinishLine();
      AddWaterOverlay();
    }

    /** update(): one more frame; the vertex animation it guards never runs. */
    method Update()
      modifies this
      ensures waveTime == old(waveTime) + 1
      ensures vertexPasses == old(vertexPasses)
      ensures riverChunks == old(riverChunks) && water == old(water) && placed == old(placed)
    {
      if waveTime % 5 != 0 {
        waveTime := waveTime + 1;
        return;
      }
      VertexPassUnreachable(waveTime);
      waveTime := waveTime + 1;
      if water.Some? && waveTime % 10 == 0 {
        vertexPasses := vertexPasses + 1;
      }
    }
  }
}

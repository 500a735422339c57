/**
 * A Railcraft fluid block: two fire-related fields and three particle
 * colour channels set through fluent setters, and the render state it
 * derives from its surroundings. Heights, "is fluid" flags, side face
 * shapes and the height-averaging rule all come from the host and are
 * inputs here; heights are reals, with no float rounding.
 */
module Fluids {
  import opened Facings

  /** The part of the extended block state this block computes. */
  datatype RenderState = RenderState(flowDirection: real, sideOverlays: seq<bool>, levelCorners: seq<real>)

  /** `Math.min(1, x)`. */
  function AtMostOne(x: real): (r: real)
    ensures r <= 1.0
    ensures r == x || r == 1.0
    ensures x <= 1.0 ==> r == x
  {
    if x < 1.0 then x else 1.0
  }

  /**
   * The grid cells touching corner (i, j) of the centre cell, other than the
   * centre (1, 1) itself, are fluid: the corner then sits under falling fluid.
   */
  predicate FluidAboveCorner(fluidAbove: (int, int) -> bool, i: int, j: int) {
    exists a, b :: i <= a <= i + 1 && j <= b <= j + 1 && (a != 1 || b != 1) && fluidAbove(a, b)
  }

  /** Each corner touches its diagonal neighbour and the two edge neighbours beside it. */
  lemma FluidAboveCorners(fluidAbove: (int, int) -> bool)
    ensures FluidAboveCorner(fluidAbove, 0, 0) <==> fluidAbove(0, 0) || fluidAbove(0, 1) || fluidAbove(1, 0)
    ensures FluidAboveCorner(fluidAbove, 0, 1) <==> fluidAbove(0, 2) || fluidAbove(0, 1) || fluidAbove(1, 2)
    ensures FluidAboveCorner(fluidAbove, 1, 0) <==> fluidAbove(2, 0) || fluidAbove(2, 1) || fluidAbove(1, 0)
    ensures FluidAboveCorner(fluidAbove, 1, 1) <==> fluidAbove(2, 2) || fluidAbove(2, 1) || fluidAbove(1, 2)
  {
  }

  /** The host's average of the heights of grid cells (i, j) to (i + 1, j + 1). */
  function CellAverage(height: (int, int) -> real, average: (real, real, real, real) -> real, i: int, j: int): real {
    average(height(i, j), height(i, j + 1), height(i + 1, j), height(i + 1, j + 1))
  }

  /**
   * Height of corner (i, j), for i, j in {0, 1}, before clamping. Grid cell
   * (a, b) is the block at offset (a - 1, b - 1) from this one.
   */
  function CornerHeight(height: (int, int) -> real, fluidAbove: (int, int) -> bool,
                        average: (real, real, real, real) -> real, i: int, j: int): real
  {
    if height(1, 1) == 1.0 then 1.0
    else if FluidAboveCorner(fluidAbove, i, j) then 1.0
    else CellAverage(height, average, i, j)
  }

  /**
   * The four corner levels, in the order the block state lists them:
   * corner (0,0), (0,1), (1,1), (1,0), each clamped to at most 1.
   */
  function LevelCorners(height: (int, int) -> real, fluidAbove: (int, int) -> bool,
                        average: (real, real, real, real) -> real): (r: seq<real>)
    ensures |r| == 4
    ensures forall k :: 0 <= k < 4 ==> r[k] <= 1.0
    ensures height(1, 1) == 1.0 ==> r == [1.0, 1.0, 1.0, 1.0]
  {
    [AtMostOne(CornerHeight(height, fluidAbove, average, 0, 0)),
     AtMostOne(CornerHeight(height, fluidAbove, average, 0, 1)),
     AtMostOne(CornerHeight(height, fluidAbove, average, 1, 1)),
     AtMostOne(CornerHeight(height, fluidAbove, average, 1, 0))]
  }

  /**
   * A corner under falling fluid is at full height: its diagonal neighbour or
   * either edge neighbour beside it is fluid.
   */
  lemma CornerUnderFluidIsFull(height: (int, int) -> real, fluidAbove: (int, int) -> bool,
                               average: (real, real, real, real) -> real)
    ensures fluidAbove(0, 0) || fluidAbove(0, 1) || fluidAbove(1, 0) ==>
      CornerHeight(height, fluidAbove, average, 0, 0) == 1.0
    ensures fluidAbove(0, 2) || fluidAbove(0, 1) || fluidAbove(1, 2) ==>
      CornerHeight(height, fluidAbove, average, 0, 1) == 1.0
    ensures fluidAbove(2, 0) || fluidAbove(2, 1) || fluidAbove(1, 0) ==>
      CornerHeight(height, fluidAbove, average, 1, 0) == 1.0
    ensures fluidAbove(2, 2) || fluidAbove(2, 1) || fluidAbove(1, 2) ==>
      CornerHeight(height, fluidAbove, average, 1, 1) == 1.0
  {
    FluidAboveCorners(fluidAbove);
  }

  /**
   * Below a centre that is not full and with no fluid above the corner, the
   * corner takes the average of the 2x2 cell it belongs to.
   */
  lemma CornerOtherwiseAveraged(height: (int, int) -> real, fluidAbove: (int, int) -> bool,
                                average: (real, real, real, real) -> real, i: int, j: int)
    requires height(1, 1) != 1.0
    requires forall a, b :: i <= a <= i + 1 && j <= b <= j + 1 && (a != 1 || b != 1) ==> !fluidAbove(a, b)
    ensures CornerHeight(height, fluidAbove, average, i, j) ==
      average(height(i, j), height(i, j + 1), height(i + 1, j), height(i + 1, j + 1))
  {
  }

  /** Sets every corner of the 2x2 grid to full height. */
  method FillFull(corner: array2<real>)
    requires corner.Length0 == 2 && corner.Length1 == 2
    modifies corner
    ensures forall a, b :: 0 <= a < 2 && 0 <= b < 2 ==> corner[a, b] == 1.0
  {
    for i := 0 to 2
      invariant forall a, b :: 0 <= a < i && 0 <= b < 2 ==> corner[a, b] == 1.0
    {
      for j := 0 to 2
        invariant forall a, b :: 0 <= a < i && 0 <= b < 2 ==> corner[a, b] == 1.0
        invariant forall b :: 0 <= b < j ==> corner[i, b] == 1.0
      {
        corner[i, j] := 1.0;
      }
    }
  }

  /** Fills the 3x3 height grid around an already-filled centre cell. */
  method GatherHeights(h: array2<real>, height: (int, int) -> real)
    requires h.Length0 == 3 && h.Length1 == 3
    requires h[1, 1] == height(1, 1)
    modifies h
    ensures forall a, b :: 0 <= a < 3 && 0 <= b < 3 ==> h[a, b] == height(a, b)
  {
    for i := 0 to 3
      invariant h[1, 1] == height(1, 1)
      invariant forall a, b :: 0 <= a < i && 0 <= b < 3 ==> h[a, b] == height(a, b)
    {
      for j := 0 to 3
        invariant h[1, 1] == height(1, 1)
        invariant forall a, b :: 0 <= a < i && 0 <= b < 3 ==> h[a, b] == height(a, b)
        invariant forall b :: 0 <= b < j ==> h[i, b] == height(i, b)
      {
        if i != 1 || j != 1 {
          h[i, j] := height(i, j);
        }
      }
    }
  }

  /**
   * Sets each corner to the average of the 2x2 block of grid cells it
   * touches; the grid `h` holds the heights `height` gives.
   */
  method AverageCells(corner: array2<real>, h: array2<real>, height: (int, int) -> real,
                      average: (real, real, real, real) -> real)
    requires corner.Length0 == 2 && corner.Length1 == 2
    requires h.Length0 == 3 && h.Length1 == 3
    requires corner != h
    requires forall a, b :: 0 <= a < 3 && 0 <= b < 3 ==> h[a, b] == height(a, b)
    modifies corner
    ensures forall a, b :: 0 <= a < 2 && 0 <= b < 2 ==>
      corner[a, b] == CellAverage(height, average, a, b)
  {
    for i := 0 to 2
      invariant forall a, b :: 0 <= a < i && 0 <= b < 2 ==>
        corner[a, b] == CellAverage(height, average, a, b)
    {
      for j := 0 to 2
        invariant forall a, b :: 0 <= a < i && 0 <= b < 2 ==>
          corner[a, b] == CellAverage(height, average, a, b)
        invariant forall b :: 0 <= b < j ==>
          corner[i, b] == CellAverage(height, average, i, b)
      {
        corner[i, j] := average(h[i, j], h[i, j + 1], h[i + 1, j], h[i + 1, j + 1]);
      }
    }
  }

  /**
   * Forces to full height every corner with falling fluid above it: the
   * diagonal neighbour or either edge neighbour beside the corner is fluid.
   */
  method RaiseCornersUnderFluid(corner: array2<real>, fluidAbove: (int, int) -> bool)
    requires corner.Length0 == 2 && corner.Length1 == 2
    modifies corner
    ensures forall a, b :: 0 <= a < 2 && 0 <= b < 2 ==>
      corner[a, b] == if FluidAboveCorner(fluidAbove, a, b) then 1.0 else old(corner[a, b])
  {
    var n := fluidAbove(0, 1);
    var s := fluidAbove(2, 1);
    var w := fluidAbove(1, 0);
    var e := fluidAbove(1, 2);
    var nw := fluidAbove(0, 0);
    var ne := fluidAbove(0, 2);
    var sw := fluidAbove(2, 0);
    var se := fluidAbove(2, 2);
    if nw || n || w {
      corner[0, 0] := 1.0;
    }
    if ne || n || e {
      corner[0, 1] := 1.0;
    }
    if sw || s || w {
      corner[1, 0] := 1.0;
    }
    if se || s || e {
      corner[1, 1] := 1.0;
    }
    FluidAboveCorners(fluidAbove);
  }

  class BlockRailcraftFluid {
    var particleRed: real
    var particleGreen: real
    var particleBlue: real
    var flammable: bool
    var flammability: int

    constructor ()
      ensures !flammable && flammability == 0
      ensures particleRed == 0.0 && particleGreen == 0.0 && particleBlue == 0.0
    {
      particleRed, particleGreen, particleBlue := 0.0, 0.0, 0.0;
      flammable := false;
      flammability := 0;
    }

    /** `canDrain`: the fluid can always be drained. */
    function CanDrain(): (r: bool)
      ensures r
    {
      true
    }

    /** `getFilledPercentage`: a fluid block always counts as full. */
    function FilledPercentage(): (r: real)
      ensures r == 1.0
    {
      1.0
    }

    /** `isFlammable`: the stored flag. */
    predicate IsFlammable()
      reads this
      ensures IsFlammable() <==> flammable
    {
      flammable
    }

    /** `getFlammability`: the stored flammability. */
    function Flammability(): (r: int)
      reads this
      ensures r == flammability
    {
      flammability
    }

    /** `getFireSpreadSpeed`: fire spreads at speed 300 over a flammable fluid and not at all otherwise. */
    function FireSpreadSpeed(): (r: int)
      reads this
      ensures r == 0 || r == 300
      ensures r > 0 <==> IsFlammable()
    {
      if flammable then 300 else 0
    }

    /** `isFireSource`: a flammable fluid with flammability 0 burns indefinitely. */
    predicate IsFireSource()
      reads this
      ensures IsFireSource() <==> IsFlammable() && Flammability() == 0
      ensures IsFireSource() ==> FireSpreadSpeed() == 300
    {
      flammable && flammability == 0
    }

    method SetFlammable(flammable: bool) returns (self: BlockRailcraftFluid)
      modifies this
      ensures self == this && this.flammable == flammable
      ensures flammability == old(flammability)
      ensures particleRed == old(particleRed) && particleGreen == old(particleGreen) && particleBlue == old(particleBlue)
    {
      this.flammable := flammable;
      return this;
    }

    method SetFlammability(flammability: int) returns (self: BlockRailcraftFluid)
      modifies this
      ensures self == this && this.flammability == flammability
      ensures flammable == old(flammable)
      ensures particleRed == old(particleRed) && particleGreen == old(particleGreen) && particleBlue == old(particleBlue)
    {
      this.flammability := flammability;
      return this;
    }

    method SetParticleColor(red: real, green: real, blue: real) returns (self: BlockRailcraftFluid)
      modifies this
      ensures self == this
      ensures particleRed == red && particleGreen == green && particleBlue == blue
      ensures flammable == old(flammable) && flammability == old(flammability)
    {
      particleRed := red;
      particleGreen := green;
      particleBlue := blue;
      return this;
    }

    /**
     * `getExtendedState`: gathers the heights of the 3x3 neighbourhood into a
     * grid, derives the four corner heights, forces corners under falling
     * fluid to full height, and records which sides show an overlay.
     * `height(a, b)` and `fluidAbove(a, b)` are the host's answers for grid
     * cell (a, b); `solidFace(side)` says whether the neighbour on that side
     * shows a solid face towards this block.
     */
    method ExtendedState(flowDirection: real, height: (int, int) -> real, fluidAbove: (int, int) -> bool,
                         average: (real, real, real, real) -> real, solidFace: Facing -> bool)
      returns (state: RenderState)
      ensures state.flowDirection == flowDirection
      ensures |state.sideOverlays| == 4
      ensures forall k :: 0 <= k < 4 ==> state.sideOverlays[k] == solidFace(HorizontalByIndex(k))
      ensures state.levelCorners == LevelCorners(height, fluidAbove, average)
    {
      var h := new real[3, 3];
      var corner := new real[2, 2];
      h[1, 1] := height(1, 1);
      if h[1, 1] == 1.0 {
        FillFull(corner);
      } else {
        GatherHeights(h, height);
        AverageCells(corner, h, height, average);
        RaiseCornersUnderFluid(corner, fluidAbove);
      }
      assert forall a, b :: 0 <= a < 2 && 0 <= b < 2 ==>
        corner[a, b] == CornerHeight(height, fluidAbove, average, a, b);

      var overlays: seq<bool> := [];
      for i := 0 to 4
        invariant |overlays| == i
        invariant forall k :: 0 <= k < i ==> overlays[k] == solidFace(HorizontalByIndex(k))
      {
        overlays := overlays + [solidFace(HorizontalByIndex(i))];
      }

      state := RenderState(flowDirection, overlays,
        [AtMostOne(corner[0, 0]), AtMostOne(corner[0, 1]), AtMostOne(corner[1, 1]), AtMostOne(corner[1, 0])]);
    }
  }
}

/**
 * The signal tile entity's own state: the direction the signal faces and
 * the light and blink states it last acted on. The signal aspect (computed
 * by the concrete signal) and the global blink phase are inputs; the host's
 * block-update and light-recalculation requests are counted in ghost fields.
 */
module Signals {
  import opened Wrappers
  import opened Facings

  /** What the tile asks of its current signal aspect. */
  datatype AspectView = AspectView(isLit: bool, isBlinkAspect: bool)

  /** NBT key under which the facing byte is stored. */
  const FacingKey := "Facing"

  /**
   * The facing after `rotateBlock(axis)`: vertical axes are refused;
   * rotating about the current facing turns the signal around, any other
   * horizontal axis becomes the new facing.
   */
  function Rotation(facing: Facing, axis: Facing): (r: Option<Facing>)
    ensures r.Some? <==> axis.IsHorizontal()
    ensures r.Some? ==> r.value == axis || r.value == axis.Opposite()
    ensures r.Some? ==> (r.value == axis <==> facing != axis)
    ensures r.Some? ==> r.value != facing && r.value.IsHorizontal()
  {
    if axis == Up || axis == Down then None
    else if facing == axis then Some(axis.Opposite())
    else Some(axis)
  }

  /** `getLightValue`: a lit aspect gives light level 5, an unlit one none. */
  function LightValue(aspect: AspectView): (r: int)
    ensures r == 5 <==> aspect.isLit
    ensures r == 0 <==> !aspect.isLit
  {
    if aspect.isLit then 5 else 0
  }

  /** `NBTTagCompound.getByte`: the stored byte, or 0 for a missing key. */
  function GetByte(data: map<string, int8>, key: string): (b: int8)
    ensures key !in data ==> b == 0
  {
    if key in data then data[key] else 0
  }

  class TileSignal {
    var facing: Facing
    var prevLightState: bool
    var prevBlinkState: bool
    /** Calls to `markBlockForUpdate`. */
    ghost var blockUpdates: nat
    /** Calls to the world's block-light recalculation. */
    ghost var lightUpdates: nat

    constructor ()
      ensures facing == North
      ensures !prevLightState && !prevBlinkState
      ensures blockUpdates == 0 && lightUpdates == 0
    {
      facing := North;
      prevLightState := false;
      prevBlinkState := false;
      blockUpdates := 0;
      lightUpdates := 0;
    }

    method RotateBlock(axis: Facing) returns (rotated: bool)
      modifies this
      ensures rotated <==> axis.IsHorizontal()
      ensures facing == Rotation(old(facing), axis).GetOr(old(facing))
      ensures rotated ==> facing.IsHorizontal() && facing != old(facing)
      ensures blockUpdates == old(blockUpdates) + (if rotated then 1 else 0)
      ensures prevLightState == old(prevLightState) && prevBlinkState == old(prevBlinkState)
      ensures lightUpdates == old(lightUpdates)
    {
      if axis == Up || axis == Down {
        return false;
      }
      if facing == axis {
        facing := axis.Opposite();
      } else {
        facing := axis;
      }
      blockUpdates := blockUpdates + 1;
      return true;
    }

    /**
     * Client-side lighting check, run on ticks where `clock` is a multiple of
     * `interval`. Divisibility does not depend on how the remainder is
     * rounded, so Java's truncating `%` and Dafny's agree on the test.
     */
    method UpdateLighting(clock: int, interval: int, aspect: AspectView, blinkOn: bool)
      requires interval > 0
      modifies this
      ensures clock % interval != 0 ==> unchanged(this)
      ensures facing == old(facing)
      ensures clock % interval == 0 ==> prevLightState == aspect.isLit
      ensures clock % interval == 0 ==>
        prevBlinkState == (if aspect.isBlinkAspect then blinkOn else old(prevBlinkState))
      ensures lightUpdates == old(lightUpdates) + (if prevLightState != old(prevLightState) then 1 else 0)
      ensures blockUpdates == old(blockUpdates) +
        (if prevLightState != old(prevLightState) || prevBlinkState != old(prevBlinkState) then 1 else 0)
    {
      if clock % interval == 0 {
        var needsUpdate := false;
        var blinkState := blinkOn;
        if prevBlinkState != blinkState && aspect.isBlinkAspect {
          prevBlinkState := blinkState;
          needsUpdate := true;
        }
        var lightState := aspect.isLit;
        if prevLightState != lightState {
          prevLightState := lightState;
          lightUpdates := lightUpdates + 1;
          needsUpdate := true;
        }
        if needsUpdate {
          blockUpdates := blockUpdates + 1;
        }
      }
    }

    /** `updateEntity`: the lighting check runs only on the client side. */
    method UpdateEntity(isHost: bool, clock: int, interval: int, aspect: AspectView, blinkOn: bool)
      requires interval > 0
      modifies this
      ensures isHost || clock % interval != 0 ==> unchanged(this)
      ensures facing == old(facing)
      ensures !isHost && clock % interval == 0 ==> prevLightState == aspect.isLit
      ensures !isHost && clock % interval == 0 ==>
        prevBlinkState == (if aspect.isBlinkAspect then blinkOn else old(prevBlinkState))
      ensures lightUpdates == old(lightUpdates) + (if prevLightState != old(prevLightState) then 1 else 0)
      ensures blockUpdates == old(blockUpdates) +
        (if prevLightState != old(prevLightState) || prevBlinkState != old(prevBlinkState) then 1 else 0)
    {
      if !isHost {
        UpdateLighting(clock, interval, aspect, blinkOn);
      }
    }

    method SetFacing(f: Facing)
      modifies this
      ensures facing == f
      ensures prevLightState == old(prevLightState) && prevBlinkState == old(prevBlinkState)
      ensures blockUpdates == old(blockUpdates) && lightUpdates == old(lightUpdates)
    {
      facing := f;
    }

    /** `onBlockPlacedBy`: the signal faces the horizontal side the host picked. */
    method OnBlockPlacedBy(closestHorizontalSide: Facing)
      modifies this
      ensures facing == closestHorizontalSide
      ensures prevLightState == old(prevLightState) && prevBlinkState == old(prevBlinkState)
      ensures blockUpdates == old(blockUpdates) && lightUpdates == old(lightUpdates)
    {
      facing := closestHorizontalSide;
    }

    /** The facing as the byte written to NBT and to packets. */
    function FacingByte(): (b: int8)
      reads this
      ensures FromOrdinal(b as int) == Some(facing)
    {
      ToByte(facing)
    }

    /** `writeToNBT`: stores the facing byte under its key, leaving other keys alone. */
    method WriteToNBT(data: map<string, int8>) returns (written: map<string, int8>)
      ensures FacingKey in written && FromOrdinal(written[FacingKey] as int) == Some(facing)
      ensures forall k :: k in data && k != FacingKey ==> k in written && written[k] == data[k]
      ensures forall k :: k in written ==> k in data || k == FacingKey
    {
      written := data[FacingKey := FacingByte()];
    }

    /**
     * `readFromNBT`: looks the facing up from the stored byte (0, so DOWN,
     * when the key is missing). `decoded` is false when the byte names no
     * direction; the facing is then left as it was.
     */
    method ReadFromNBT(data: map<string, int8>) returns (decoded: bool)
      modifies this
      ensures decoded <==> FromOrdinal(GetByte(data, FacingKey) as int).Some?
      ensures decoded ==> facing == FromOrdinal(GetByte(data, FacingKey) as int).value
      ensures !decoded ==> facing == old(facing)
      ensures FacingKey !in data ==> facing == Down
      ensures prevLightState == old(prevLightState) && prevBlinkState == old(prevBlinkState)
      ensures blockUpdates == old(blockUpdates) && lightUpdates == old(lightUpdates)
    {
      var b := GetByte(data, FacingKey);
      var f := FromOrdinal(b as int);
      decoded := f.Some?;
      if decoded {
        facing := f.value;
      }
    }

    /** `writePacketData`: appends the facing byte to the stream. */
    method WritePacketData(out: seq<int8>) returns (written: seq<int8>)
      ensures |written| == |out| + 1 && written[..|out|] == out
      ensures FromOrdinal(written[|out|] as int) == Some(facing)
    {
      written := out + [FacingByte()];
    }

    /**
     * `readPacketData`: takes one byte off the stream and requests a block
     * update. An empty stream ends the read before anything changes (the
     * end-of-stream exception); `decoded` is false then and when the byte
     * names no direction.
     */
    method ReadPacketData(input: seq<int8>) returns (rest: seq<int8>, decoded: bool)
      modifies this
      ensures input == [] ==> rest == [] && !decoded && unchanged(this)
      ensures input != [] ==> rest == input[1..] && blockUpdates == old(blockUpdates) + 1
      ensures input != [] ==> decoded == FromOrdinal(input[0] as int).Some?
      ensures decoded ==> facing == FromOrdinal(input[0] as int).value
      ensures !decoded ==> facing == old(facing)
      ensures prevLightState == old(prevLightState) && prevBlinkState == old(prevBlinkState)
      ensures lightUpdates == old(lightUpdates)
    {
      if input == [] {
        return [], false;
      }
      var f := FromOrdinal(input[0] as int);
      decoded := f.Some?;
      if decoded {
        facing := f.value;
      }
      rest := input[1..];
      blockUpdates := blockUpdates + 1;
    }
  }

  /** Saving a tile to NBT and loading it into another restores its facing. */
  method NBTRoundTrip(source: TileSignal, target: TileSignal, data: map<string, int8>)
    modifies target
    ensures target.facing == source.facing
  {
    var written := source.WriteToNBT(data);
    var decoded := target.ReadFromNBT(written);
  }

  /** A facing sent in a packet is the facing the receiving tile ends up with. */
  method PacketRoundTrip(source: TileSignal, target: TileSignal, out: seq<int8>)
    modifies target
    ensures target.facing == source.facing
  {
    var written := source.WritePacketData(out);
    var rest, decoded := target.ReadPacketData(written[|out|..]);
  }

  /** Rotating twice about the axis the signal faces turns it back to where it was. */
  method RotateTwiceAboutFacing(tile: TileSignal)
    requires tile.facing.IsHorizontal()
    modifies tile
    ensures tile.facing == old(tile.facing)
  {
    var axis := tile.facing;
    var first := tile.RotateBlock(axis);
    var second := tile.RotateBlock(axis);
  }
}

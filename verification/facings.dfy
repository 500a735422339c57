/**
 * The host's six-valued direction enum, in its declaration order
 * (DOWN, UP, NORTH, SOUTH, WEST, EAST), with the ordinal byte the signal
 * tile persists and the lookup that turns the byte back into a direction.
 */
module Facings {
  import opened Wrappers

  /** Java's `byte`. */
  newtype int8 = x: int | -128 <= x < 128

  datatype Facing = Down | Up | North | South | West | East {

    /** Position in the enum declaration. */
    function Ordinal(): (n: nat)
      ensures n < 6
    {
      match this
      case Down => 0
      case Up => 1
      case North => 2
      case South => 3
      case West => 4
      case East => 5
    }

    predicate IsVertical() {
      this == Up || this == Down
    }

    predicate IsHorizontal() {
      !IsVertical()
    }

    /** `getOpposite`: the other direction on the same axis. */
    function Opposite(): (o: Facing)
      ensures o != this
      ensures o.IsHorizontal() == IsHorizontal()
      ensures o.Ordinal() / 2 == Ordinal() / 2
    {
      match this
      case Down => Up
      case Up => Down
      case North => South
      case South => North
      case West => East
      case East => West
    }
  }

  /**
   * `getOrientation`: the direction with the given ordinal; an index outside
   * the enum has none.
   */
  function FromOrdinal(n: int): (r: Option<Facing>)
    ensures r.Some? <==> 0 <= n < 6
    ensures r.Some? ==> r.value.Ordinal() == n
  {
    if n == 0 then Some(Down)
    else if n == 1 then Some(Up)
    else if n == 2 then Some(North)
    else if n == 3 then Some(South)
    else if n == 4 then Some(West)
    else if n == 5 then Some(East)
    else None
  }

  /** `(byte) facing.ordinal()`: every ordinal fits a byte, so the cast loses nothing. */
  function ToByte(f: Facing): (b: int8)
    ensures 0 <= b < 6
    ensures FromOrdinal(b as int) == Some(f)
  {
    f.Ordinal() as int8
  }

  /** Decoding a byte that decodes at all gives back the only facing that encodes to it. */
  lemma ByteDecodeInjective(b: int8, f: Facing)
    requires FromOrdinal(b as int) == Some(f)
    ensures ToByte(f) == b
  {
  }

  /**
   * `byHorizontalIndex`: the host's horizontal order SOUTH, WEST, NORTH, EAST,
   * indexed by the absolute value of the index's truncated remainder by 4.
   */
  function HorizontalByIndex(i: int): (f: Facing)
    ensures f.IsHorizontal()
  {
    var k := (if i < 0 then -i else i) % 4;
    if k == 0 then South else if k == 1 then West else if k == 2 then North else East
  }
}

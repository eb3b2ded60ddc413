/**
 * Tone curves and the 256-entry lookup tables built from them.
 *
 * Every table in filters.py is a list comprehension over range(256) whose
 * element is a·i + b, optionally wrapped in min(255, ·) and/or max(0, ·), and
 * then narrowed to uint8 by np.array(..., dtype=np.uint8). The gain a is a
 * decimal literal (0.85, 0.9, 0.95, 1.05, 1.1); here it is the exact rational
 * gainNum / gainDen, and every quantity is kept multiplied by gainDen so that
 * the arithmetic stays on integers.
 */
module ToneCurve {

  /** One unsigned 8-bit sample (numpy's uint8). */
  type Byte = x: int | 0 <= x < 256

  /** The number of entries of every channel table: one per uint8 value. */
  const TableSize := 256

  /**
   * The element expression of one table-building comprehension:
   * a·i + b with a = gainNum / gainDen and b = offset; capHigh says the
   * expression is wrapped in min(255, ·), floorLow that the result of that is
   * wrapped in max(0, ·).
   */
  datatype Curve = Curve(gainNum: nat, gainDen: nat, offset: int, capHigh: bool, floorLow: bool)

  /** The curve i ↦ i, written in the source as `[i for i in range(256)]`. */
  const Identity := Curve(1, 1, 0, false, false)

  /** (a·i + b) · gainDen, exactly. */
  function Scaled(c: Curve, i: int): int {
    c.gainNum * i + c.offset * c.gainDen
  }

  /**
   * A curve whose every value 0..255 narrows to a uint8: where the source has
   * no max(0, ·) the offset is non-negative, and where it has no min(255, ·)
   * the value at 255 stays below 256.
   */
  predicate WellFormed(c: Curve) {
    && c.gainDen > 0
    && (c.floorLow || c.offset >= 0)
    && (c.capHigh || Scaled(c, 255) < 256 * c.gainDen)
  }

  /** min(255, ·) and then max(0, ·), as the curve has them, on the scaled value. */
  function Clamped(c: Curve, i: int): int {
    var v := Scaled(c, i);
    var capped := if c.capHigh && v > 255 * c.gainDen then 255 * c.gainDen else v;
    if c.floorLow && capped < 0 then 0 else capped
  }

  /**
   * The uint8 narrowing of the non-negative value num / den: numpy's cast
   * truncates toward zero, which for a non-negative value is the floor.
   */
  function CastToUint8(num: int, den: int): (b: Byte)
    requires den > 0 && 0 <= num < 256 * den
    ensures b * den <= num < (b + 1) * den
  {
    FloorDivAtLeast(num, den, 256);
    num / den
  }

  /** Entry i of the table built from curve c. */
  function Entry(c: Curve, i: int): Byte
    requires WellFormed(c) && 0 <= i < TableSize
  {
    ClampedInRange(c, i);
    CastToUint8(Clamped(c, i), c.gainDen)
  }

  /** The table `np.array([<curve at i> for i in range(256)], dtype=np.uint8)`. */
  function BuildLut(c: Curve): (t: seq<Byte>)
    requires WellFormed(c)
    ensures |t| == TableSize
  {
    seq(TableSize, i requires 0 <= i < TableSize => Entry(c, i))
  }

  /** A table that maps every sample to itself. */
  predicate IsIdentityLut(t: seq<Byte>) {
    |t| == TableSize && forall i :: 0 <= i < TableSize ==> t[i] == i
  }

  /** A table that never maps a larger sample below a smaller one. */
  predicate NonDecreasing(t: seq<Byte>) {
    forall i, j :: 0 <= i <= j < |t| ==> t[i] <= t[j]
  }

  /** clamp(v, 0, 255). */
  function ClampByte(v: int): Byte {
    if v < 0 then 0 else if v > 255 then 255 else v
  }

  // ---------------------------------------------------------------------
  // Arithmetic on floor division by a positive denominator

  lemma MulMonotone(d: int, x: int, y: int)
    requires d >= 0 && x <= y
    ensures d * x <= d * y
  {
    assert d * y - d * x == d * (y - x);
  }

  /** For a positive d, the floor of v / d is at least k exactly when v is at least k·d. */
  lemma FloorDivAtLeast(v: int, d: int, k: int)
    requires d > 0
    ensures v / d >= k <==> v >= k * d
  {
    var q, r := v / d, v % d;
    assert v == d * q + r && 0 <= r < d;
    if q >= k {
      MulMonotone(d, k, q);
    } else {
      MulMonotone(d, q, k - 1);
    }
  }

  lemma FloorDivMonotone(u: int, v: int, d: int)
    requires d > 0 && u <= v
    ensures u / d <= v / d
  {
    FloorDivAtLeast(u, d, u / d);
    FloorDivAtLeast(v, d, u / d);
  }

  // ---------------------------------------------------------------------
  // Properties of one curve

  /** Every clamped value of a well-formed curve narrows to a uint8. */
  lemma ClampedInRange(c: Curve, i: int)
    requires WellFormed(c) && 0 <= i < TableSize
    ensures 0 <= Clamped(c, i) < 256 * c.gainDen
  {
    MulMonotone(c.gainNum, 0, i);
    MulMonotone(c.gainNum, i, 255);
  }

  /**
   * Clamping before the cast, as the source does, gives the same entry as
   * clamp(floor(a·i + b), 0, 255): the min and max in the comprehensions are
   * either present or never engaged.
   */
  lemma EntryIsClampOfFloor(c: Curve, i: int)
    requires WellFormed(c) && 0 <= i < TableSize
    ensures Entry(c, i) == ClampByte(Scaled(c, i) / c.gainDen)
  {
    var v, d := Scaled(c, i), c.gainDen;
    MulMonotone(c.gainNum, 0, i);
    MulMonotone(c.gainNum, i, 255);
    FloorDivAtLeast(v, d, 0);
    FloorDivAtLeast(v, d, 256);
    FloorDivAtLeast(v, d, 255);
    FloorDivAtLeast(255 * d, d, 255);
    FloorDivAtLeast(255 * d, d, 256);
    FloorDivAtLeast(Clamped(c, i), d, 0);
    FloorDivAtLeast(Clamped(c, i), d, 1);
  }

  /** An entry is 0 exactly when a·i + b is below 1. */
  lemma EntryZeroIff(c: Curve, i: int)
    requires WellFormed(c) && 0 <= i < TableSize
    ensures Entry(c, i) == 0 <==> Scaled(c, i) < c.gainDen
  {
    EntryIsClampOfFloor(c, i);
    FloorDivAtLeast(Scaled(c, i), c.gainDen, 1);
  }

  /** An entry is 255 exactly when a·i + b reaches 255. */
  lemma EntrySaturatesIff(c: Curve, i: int)
    requires WellFormed(c) && 0 <= i < TableSize
    ensures Entry(c, i) == 255 <==> Scaled(c, i) >= 255 * c.gainDen
  {
    EntryIsClampOfFloor(c, i);
    FloorDivAtLeast(Scaled(c, i), c.gainDen, 255);
  }

  /** Gains are non-negative, so entries never decrease with the index. */
  lemma EntryMonotone(c: Curve, i: int, j: int)
    requires WellFormed(c) && 0 <= i <= j < TableSize
    ensures Entry(c, i) <= Entry(c, j)
  {
    MulMonotone(c.gainNum, i, j);
    EntryIsClampOfFloor(c, i);
    EntryIsClampOfFloor(c, j);
    FloorDivMonotone(Scaled(c, i), Scaled(c, j), c.gainDen);
  }

  lemma BuildLutNonDecreasing(c: Curve)
    requires WellFormed(c)
    ensures NonDecreasing(BuildLut(c))
  {
    var t := BuildLut(c);
    forall i, j | 0 <= i <= j < |t| ensures t[i] <= t[j] {
      EntryMonotone(c, i, j);
    }
  }

  /** The comprehension `[i for i in range(256)]` gives the identity table. */
  lemma IdentityLut()
    ensures WellFormed(Identity) && IsIdentityLut(BuildLut(Identity))
  {
  }

  /**
   * A curve whose value at 255 stays below 255 never saturates: its
   * min(255, ·) is never engaged.
   */
  lemma NeverSaturates(c: Curve, i: int)
    requires WellFormed(c) && 0 <= i < TableSize
    requires Scaled(c, 255) < 255 * c.gainDen
    ensures Entry(c, i) < 255
  {
    EntryMonotone(c, i, 255);
    EntrySaturatesIff(c, 255);
  }
}

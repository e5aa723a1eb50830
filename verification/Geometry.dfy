/** Fixed-point conversion of a coordinate in thousandths of the display into pixels. */
module Geometry {
  import opened Common

  const THOUSAND: nat := 1000

  function ThousandthToPx(relativeLength: uint32, fullLength: uint32): Option<uint32> {
    var px := relativeLength * fullLength / THOUSAND;
    if px <= UINT32_MAX then Some(px) else None
  }

  /** The 64-bit product of two 32-bit factors never wraps. */
  lemma ProductFits(x: uint32, y: uint32)
    ensures x * y < TWO_TO_THE_64
  {
    MulMonotone(x, UINT32_MAX, y);
  }

  lemma Unwrapped(n: nat)
    requires n < TWO_TO_THE_64
    ensures n % TWO_TO_THE_64 == n
  {
  }

  method ConvertThousandthToPx(relativeLength: uint32, fullLength: uint32) returns (pxLength: Option<uint32>)
    ensures pxLength == ThousandthToPx(relativeLength, fullLength)
  {
    ProductFits(relativeLength, fullLength);
    var product := relativeLength * fullLength;
    Unwrapped(product);
    var pxLengthUint64 := product % TWO_TO_THE_64 / THOUSAND;
    if pxLengthUint64 > UINT32_MAX {
      return None;
    }
    return Some(pxLengthUint64);
  }

  /** The conversion succeeds exactly when the product stays below a thousand times
      2^32, and then rounds down by less than one pixel. */
  lemma ConversionIsFloor(relativeLength: uint32, fullLength: uint32)
    ensures var px := ThousandthToPx(relativeLength, fullLength);
            && (px.Some? <==> relativeLength * fullLength < 1000 * TWO_TO_THE_32)
            && (px.Some? ==> 0 <= relativeLength * fullLength - 1000 * px.value < 1000)
  {
  }

  lemma MulMonotone(m: int, n: int, d: int)
    requires m <= n && 0 <= d
    ensures m * d <= n * d
  {
  }

  /** Every centre the manager accepts converts on every display, and lands
      strictly inside a non-empty frame. */
  lemma AcceptedCentreInsideFrame(centre: uint32, fullLength: uint32)
    requires centre < 1000
    ensures ThousandthToPx(centre, fullLength).Some?
    ensures fullLength > 0 ==> ThousandthToPx(centre, fullLength).value < fullLength
  {
    MulMonotone(centre, 999, fullLength);
    ConversionIsFloor(centre, fullLength);
  }

  lemma ConversionMonotone(r0: uint32, r1: uint32, f0: uint32, f1: uint32)
    requires r0 <= r1 && f0 <= f1 && ThousandthToPx(r1, f1).Some?
    ensures ThousandthToPx(r0, f0).Some? && ThousandthToPx(r0, f0).value <= ThousandthToPx(r1, f1).value
  {
    MulMonotone(r0, r1, f0);
    MulMonotone(f0, f1, r1);
    ConversionIsFloor(r0, f0);
    ConversionIsFloor(r1, f1);
  }
}

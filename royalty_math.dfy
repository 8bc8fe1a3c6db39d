/** Basis-point arithmetic of the royalty instructions: the whole royalty of a sale and one
    recipient's part of it. The source widens to 128 bits before multiplying, so the products
    below never overflow; the only failures are a division by zero and a quotient that does not
    fit back into 64 bits. */
module RoyaltyMath {
  import opened Common

  /** One basis point is a ten-thousandth of the price. */
  const BASIS_POINTS_PER_WHOLE: nat := 10000

  const TWO_POW_64: nat := 0x1_0000_0000_0000_0000

  /** `x / d` is the largest `q` with `q * d <= x`. */
  lemma FloorDivIsLargest(x: nat, d: nat, q: nat)
    requires d > 0 && q * d <= x
    ensures q <= x / d
  {
    var r := x / d;
    assert q * d < (r + 1) * d;
    MulCancelStrict(q, r + 1, d);
  }

  lemma MulCancelStrict(a: nat, b: nat, d: nat)
    requires a * d < b * d
    ensures a < b
  {
    if a >= b {
      MulMonotone(d, b, a);
    }
  }

  lemma MulMonotone(a: nat, b: nat, c: nat)
    requires b <= c
    ensures a * b <= a * c
  {
  }

  /** Multiplying by a positive number preserves and reflects the order. */
  lemma MulCancel(a: nat, b: nat, d: nat)
    requires d > 0 && a * d <= b * d
    ensures a <= b
  {
    if a > b {
      MulMonotone(d, b + 1, a);
    }
  }

  lemma DivOfMultiple(q: nat, d: nat)
    requires d > 0
    ensures q * d / d == q
  {
    FloorDivIsLargest(q * d, d, q);
    var r := q * d / d;
    assert r * d <= q * d;
    MulCancel(r, q, d);
  }

  /** The floor quotient brackets the dividend. */
  lemma FloorDivBracket(x: nat, d: nat)
    requires d > 0
    ensures (x / d) * d <= x < (x / d + 1) * d
  {
  }

  /** A floor quotient is at most `bound` exactly when the dividend is below `(bound + 1) * d`. */
  lemma QuotientFits(x: nat, d: nat, bound: nat)
    requires d > 0
    ensures x / d <= bound <==> x < (bound + 1) * d
  {
    FloorDivBracket(x, d);
    if x / d <= bound {
      MulMonotone(d, x / d + 1, bound + 1);
    } else {
      MulMonotone(d, bound + 1, x / d);
    }
  }

  /** `calculate_royalty_amount` exactly as written: the 128-bit quotient is cast back with
      `as u64`, which keeps its low 64 bits, so the checked operations never fail. */
  function RoyaltyAmountAsWritten(salePrice: u64, basisPoints: u16): (r: Result<u64>)
    ensures r.Ok?
    ensures (r.value - salePrice * basisPoints / BASIS_POINTS_PER_WHOLE) % TWO_POW_64 == 0
  {
    Ok((salePrice * basisPoints / BASIS_POINTS_PER_WHOLE) % TWO_POW_64)
  }

  /** With a rate of 20000 basis points on the largest price, the cast silently returns a
      royalty far below the price times two, instead of failing. */
  lemma RoyaltyAmountAsWrittenTruncates()
    ensures RoyaltyAmountAsWritten(U64_MAX, 20000).value < U64_MAX
    ensures U64_MAX * 20000 / BASIS_POINTS_PER_WHOLE > U64_MAX
  {
    assert U64_MAX * 20000 / BASIS_POINTS_PER_WHOLE == 2 * U64_MAX;
    assert (2 * U64_MAX) % TWO_POW_64 == U64_MAX - 1;
  }

  /** `calculate_royalty_amount` with the out-of-range quotient reported as
      `ProgramError::ArithmeticOverflow`, as `calculate_recipient_share` does: the floor of
      `salePrice * basisPoints / 10000`. */
  function RoyaltyAmount(salePrice: u64, basisPoints: u16): (r: Result<u64>)
    ensures r.Ok? <==> salePrice * basisPoints < (U64_MAX + 1) * BASIS_POINTS_PER_WHOLE
    ensures r.Ok? ==> r.value * BASIS_POINTS_PER_WHOLE <= salePrice * basisPoints
                        < (r.value + 1) * BASIS_POINTS_PER_WHOLE
    ensures r.Err? ==> r.error == ProgramArithmeticOverflow
  {
    var quotient := salePrice * basisPoints / BASIS_POINTS_PER_WHOLE;
    FloorDivBracket(salePrice * basisPoints, BASIS_POINTS_PER_WHOLE);
    QuotientFits(salePrice * basisPoints, BASIS_POINTS_PER_WHOLE, U64_MAX);
    if quotient > U64_MAX then Err(ProgramArithmeticOverflow) else Ok(quotient)
  }

  /** A rate of at most 100% never fails and never exceeds the price. */
  lemma RoyaltyAmountBounded(salePrice: u64, basisPoints: u16)
    requires basisPoints <= BASIS_POINTS_PER_WHOLE
    ensures RoyaltyAmount(salePrice, basisPoints).Ok?
    ensures RoyaltyAmount(salePrice, basisPoints).value <= salePrice
  {
    MulMonotone(salePrice, basisPoints, BASIS_POINTS_PER_WHOLE);
    FloorDivIsLargest(salePrice * basisPoints, BASIS_POINTS_PER_WHOLE, salePrice * basisPoints / BASIS_POINTS_PER_WHOLE);
  }

  /** On every rate up to 100% the written cast and the checked version agree. */
  lemma RoyaltyAmountAgreesWhenBounded(salePrice: u64, basisPoints: u16)
    requires basisPoints <= BASIS_POINTS_PER_WHOLE
    ensures RoyaltyAmountAsWritten(salePrice, basisPoints) == RoyaltyAmount(salePrice, basisPoints)
  {
    RoyaltyAmountBounded(salePrice, basisPoints);
  }

  /** `calculate_recipient_share`: the floor of `total * recipientBasisPoints / totalBasisPoints`;
      a zero divisor and a quotient beyond 64 bits are `ProgramError::ArithmeticOverflow`. */
  function RecipientShare(total: u64, recipientBasisPoints: u16, totalBasisPoints: u16): (r: Result<u64>)
    ensures r.Ok? <==> totalBasisPoints > 0
                       && total * recipientBasisPoints < (U64_MAX + 1) * totalBasisPoints
    ensures r.Ok? ==> r.value * totalBasisPoints <= total * recipientBasisPoints
                        < (r.value + 1) * totalBasisPoints
    ensures r.Err? ==> r.error == ProgramArithmeticOverflow
  {
    if totalBasisPoints == 0 then Err(ProgramArithmeticOverflow)
    else
      var quotient := total * recipientBasisPoints / totalBasisPoints;
      FloorDivBracket(total * recipientBasisPoints, totalBasisPoints);
      QuotientFits(total * recipientBasisPoints, totalBasisPoints, U64_MAX);
      if quotient > U64_MAX then Err(ProgramArithmeticOverflow) else Ok(quotient)
  }

  /** The mathematical share used by the specifications: the same floor, without the failure
      cases. */
  function ShareOf(total: nat, recipientBasisPoints: nat, totalBasisPoints: nat): nat
    requires totalBasisPoints > 0
  {
    total * recipientBasisPoints / totalBasisPoints
  }

  /** A recipient's part of at most the whole rate never fails and never exceeds the total. */
  lemma RecipientShareBounded(total: u64, recipientBasisPoints: u16, totalBasisPoints: u16)
    requires 0 < totalBasisPoints && recipientBasisPoints <= totalBasisPoints
    ensures RecipientShare(total, recipientBasisPoints, totalBasisPoints)
            == Ok(ShareOf(total, recipientBasisPoints, totalBasisPoints))
    ensures ShareOf(total, recipientBasisPoints, totalBasisPoints) <= total
  {
    var x := total * recipientBasisPoints;
    var q := x / totalBasisPoints;
    FloorDivBracket(x, totalBasisPoints);
    MulMonotone(total, recipientBasisPoints, totalBasisPoints);
    MulCancel(q, total, totalBasisPoints);
  }

  /** Flooring each part separately never pays more than flooring their sum. */
  lemma ShareSuperadditive(total: nat, x: nat, y: nat, totalBasisPoints: nat)
    requires totalBasisPoints > 0
    ensures ShareOf(total, x, totalBasisPoints) + ShareOf(total, y, totalBasisPoints)
            <= ShareOf(total, x + y, totalBasisPoints)
  {
    var qx, qy := total * x / totalBasisPoints, total * y / totalBasisPoints;
    FloorDivBracket(total * x, totalBasisPoints);
    FloorDivBracket(total * y, totalBasisPoints);
    assert (qx + qy) * totalBasisPoints == qx * totalBasisPoints + qy * totalBasisPoints;
    assert total * (x + y) == total * x + total * y;
    FloorDivIsLargest(total * (x + y), totalBasisPoints, qx + qy);
  }

  /** The share of the whole rate is the whole total. */
  lemma ShareOfWhole(total: nat, totalBasisPoints: nat)
    requires totalBasisPoints > 0
    ensures ShareOf(total, totalBasisPoints, totalBasisPoints) == total
  {
    DivOfMultiple(total, totalBasisPoints);
  }
}

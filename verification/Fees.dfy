/** Fee arithmetic: two nested divisions that round down, and how far they can be from the exact values. */
module Fees {
  import opened Base

  const BASIS: int := 10_000

  function FeeOf(batchSize: nat, rateBps: nat): nat {
    batchSize * rateBps / BASIS
  }

  function ShareOf(fee: nat, shareBps: nat): nat {
    fee * shareBps / BASIS
  }

  lemma MulMonotone(x: int, y: int, s: nat)
    requires x <= y
    ensures x * s <= y * s
  {
  }

  lemma MulBelow(x: int, xMax: nat, y: int, yMax: nat)
    requires 0 <= x <= xMax && 0 <= y <= yMax
    ensures 0 <= x * y <= xMax * yMax
  {
  }

  /** No product or quotient of 32-bit inputs leaves the 128-bit range, whatever the share. */
  lemma {:induction false} FeeRange(batchSize: U32, rateBps: U32, shareBps: U32)
    requires rateBps <= BASIS
    ensures 0 <= batchSize * rateBps <= U32_MAX * BASIS
    ensures FeeOf(batchSize, rateBps) <= batchSize
    ensures 0 <= FeeOf(batchSize, rateBps) * shareBps <= U32_MAX * U32_MAX
    ensures ShareOf(FeeOf(batchSize, rateBps), shareBps) <= U32_MAX * U32_MAX / BASIS
  {
    MulBelow(batchSize, U32_MAX, rateBps, BASIS);
    MulMonotone(rateBps, BASIS, batchSize);
    assert batchSize * rateBps <= batchSize * BASIS;
    MulBelow(FeeOf(batchSize, rateBps), U32_MAX, shareBps, U32_MAX);
  }

  /** The split of one batch against the exact values, for any share: the treasury's part is never
      above its exact value and short of it by less than 1 + shareBps / 10000. For a share of at most
      10000 that is less than two units, nothing is lost, and the relay's part is rounded up. */
  lemma {:induction false} SplitBounds(batchSize: U32, rateBps: U32, shareBps: U32)
    requires rateBps <= BASIS
    ensures var fee := FeeOf(batchSize, rateBps);
            var share := ShareOf(fee, shareBps);
            var exact := batchSize * rateBps * shareBps;
            && fee <= batchSize
            && BASIS * BASIS * share <= exact < BASIS * BASIS * (share + 1) + BASIS * shareBps
            && (shareBps <= BASIS ==>
                  && share <= fee && exact < BASIS * BASIS * (share + 2)
                  && BASIS * (fee - share) - BASIS < fee * (BASIS - shareBps) <= BASIS * (fee - share))
  {
    var fee := FeeOf(batchSize, rateBps);
    var share := ShareOf(fee, shareBps);
    FeeRange(batchSize, rateBps, shareBps);
    MulMonotone(BASIS * fee, batchSize * rateBps, shareBps);
    MulMonotone(batchSize * rateBps, BASIS * fee + BASIS - 1, shareBps);
    assert BASIS * fee * shareBps == BASIS * (fee * shareBps);
    assert (BASIS * fee + BASIS - 1) * shareBps == BASIS * (fee * shareBps) + (BASIS - 1) * shareBps;
    if shareBps <= BASIS {
      MulMonotone(shareBps, BASIS, fee);
      assert fee * shareBps <= fee * BASIS;
      assert fee * (BASIS - shareBps) == fee * BASIS - fee * shareBps;
    }
  }

  /** `initialize` does not check the treasury share. Payouts stay non-negative for every batch
      exactly when it is at most 10000. */
  lemma PayoutNonNegativeIff(rateBps: U32, shareBps: U32)
    requires 1 <= rateBps <= BASIS
    ensures (forall b: U32 :: FeeOf(b, rateBps) - ShareOf(FeeOf(b, rateBps), shareBps) >= 0) <==> shareBps <= BASIS
  {
    if shareBps <= BASIS {
      forall b: U32
        ensures FeeOf(b, rateBps) - ShareOf(FeeOf(b, rateBps), shareBps) >= 0
      {
        SplitBounds(b, rateBps, shareBps);
      }
    } else {
      var b: U32 := U32_MAX;
      var fee := FeeOf(b, rateBps);
      MulMonotone(1, rateBps, b);
      assert fee >= BASIS;
      MulMonotone(BASIS + 1, shareBps, fee);
      assert (BASIS + 1) * fee == BASIS * fee + fee;
      assert FeeOf(b, rateBps) - ShareOf(FeeOf(b, rateBps), shareBps) < 0;
    }
  }

  datatype Split = Split(share: I128, payout: I128)

  /** The checked arithmetic that divides a fee between treasury and relay; none of its steps fails. */
  function SplitFee(fee: I128, shareBps: U32): (r: Option<Split>)
    requires 0 <= fee <= U32_MAX
    ensures r.Some? && r.value.share == ShareOf(fee, shareBps) && r.value.share + r.value.payout == fee
  {
    MulBelow(fee, U32_MAX, shareBps, U32_MAX);
    var product := CheckedMul(fee, shareBps);
    if product.None? then None
    else
      var share := CheckedDiv(product.value, BASIS);
      if share.None? then None
      else
        var payout := CheckedSub(fee, share.value);
        if payout.None? then None else Some(Split(share.value, payout.value))
  }

  // ---- Many batches at one rate ----

  function TotalSize(batches: seq<nat>): nat {
    if batches == [] then 0 else TotalSize(batches[..|batches| - 1]) + batches[|batches| - 1]
  }

  function TotalFees(batches: seq<nat>, rateBps: nat): nat {
    if batches == [] then 0
    else TotalFees(batches[..|batches| - 1], rateBps) + FeeOf(batches[|batches| - 1], rateBps)
  }

  /** Splitting work into n batches never costs a relay more than n - 1 units of fee, and gains none. */
  lemma {:induction false} SplittingLosesLittle(batches: seq<nat>, rateBps: nat)
    ensures TotalFees(batches, rateBps) <= FeeOf(TotalSize(batches), rateBps)
    ensures batches != [] ==> FeeOf(TotalSize(batches), rateBps) < TotalFees(batches, rateBps) + |batches|
  {
    if batches != [] {
      var rest, last := batches[..|batches| - 1], batches[|batches| - 1];
      SplittingLosesLittle(rest, rateBps);
      assert (TotalSize(rest) + last) * rateBps == TotalSize(rest) * rateBps + last * rateBps;
    }
  }
}

/** When each distributor call completes in a sound world, what it leaves behind, and whom it may touch. */
module SettlementCalls {
  import opened Base
  import opened Council
  import opened Token
  import opened Fees
  import opened Settlement
  import opened SettlementSafety
  import Treasury

  /** The part of a batch that goes to its relay. */
  function PayoutOf(c: FeeConfig, batchSize: U32): int {
    FeeOf(batchSize, c.rateBps) - ShareOf(FeeOf(batchSize, c.rateBps), c.shareBps)
  }

  /** A completed batch credits the named relay with the rest of the fee, changes no other record,
      and writes its entry, in any treasury. */
  lemma DistributeCredits(w: World, env: Env, relay: Address, batchId: U64, batchSize: U32)
    requires ValidConfig(w.fd) && Distribute(w, env, relay, batchId, batchSize).Done?
    ensures var next := Distribute(w, env, relay, batchId, batchSize).world.fd;
            var c, fee := w.fd.config.value, FeeOf(batchSize, w.fd.config.value.rateBps);
            var before, after := EarningsOf(w.fd.earnings, relay), EarningsOf(next.earnings, relay);
            && next == w.fd.(earnings := next.earnings, fees := next.fees)
            && after.totalEarned == before.totalEarned + PayoutOf(c, batchSize)
            && after.unclaimed == before.unclaimed + PayoutOf(c, batchSize)
            && after.totalClaimed == before.totalClaimed
            && (forall r :: r != relay ==> EarningsOf(next.earnings, r) == EarningsOf(w.fd.earnings, r))
            && batchId !in w.fd.fees && batchId in next.fees && next.fees - {batchId} == w.fd.fees
            && next.fees[batchId].batchId == batchId && next.fees[batchId].relay == relay
            && next.fees[batchId].amount == fee && next.fees[batchId].treasuryShare == ShareOf(fee, c.shareBps)
            && next.fees[batchId].settledAt == env.timestamp
  {
  }

  lemma DistributeErrors(w: World, env: Env, relay: Address, batchId: U64, batchSize: U32)
    requires ValidConfig(w.fd)
    ensures var o := Distribute(w, env, relay, batchId, batchSize);
            && (o == Failed(BatchAlreadyDistributed) <==> batchId in w.fd.fees)
            && (o == Failed(InvalidBatchSize) <==> batchId !in w.fd.fees && batchSize == 0)
            && (o.Failed? ==> o.error in {BatchAlreadyDistributed, InvalidBatchSize, Overflow})
  {
  }

  /** When `claim` completes in a sound world: it pays all of the unclaimed amount, once. */
  lemma ClaimExactly(w: World, env: Env, relay: Address)
    requires Sound(w) && w.fd.self !in env.auths
    ensures var o := Claim(w, env, relay);
            var owed := EarningsOf(w.fd.earnings, relay).unclaimed;
            && (o.Done? <==> && relay in env.auths && 0 < owed <= BalanceOf(w.vault.bal, w.fd.self)
                             && BalanceOf(w.vault.bal, relay) + owed <= I128_MAX)
            && (o == Failed(NothingToClaim) <==> relay in env.auths && owed == 0)
            && (o.Failed? ==> o.error == NothingToClaim)
            && (o.Done? ==>
                  var next := o.world;
                  && o.value == owed && next.vault.tr == w.vault.tr
                  && (forall a :: BalanceOf(next.vault.bal, a) == BalanceOf(w.vault.bal, a)
                                    + (if a == relay then owed else 0) - (if a == w.fd.self then owed else 0))
                  && next.fd == w.fd.(earnings := next.fd.earnings)
                  && EarningsOf(next.fd.earnings, relay).unclaimed == 0
                  && EarningsOf(next.fd.earnings, relay).totalEarned == EarningsOf(w.fd.earnings, relay).totalEarned
                  && EarningsOf(next.fd.earnings, relay).totalClaimed
                     == EarningsOf(w.fd.earnings, relay).totalClaimed + owed
                  && forall r :: r != relay ==> EarningsOf(next.fd.earnings, r) == EarningsOf(w.fd.earnings, r))
  {
    EarningsBounded(w.fd, relay);
    assert RelaySound(w.fd, relay);
    if Transfer(w.vault.bal, w.fd.self, relay, EarningsOf(w.fd.earnings, relay).unclaimed).Some? {
      TransferConserves(w.vault.bal, w.fd.self, relay, EarningsOf(w.fd.earnings, relay).unclaimed);
    }
  }

  lemma InitializeExactly(w: World, council: AdminCouncil, rateBps: U32, shareBps: U32)
    ensures var o := Initialize(w, council, rateBps, shareBps);
            && (o.Done? <==> w.fd.config.None? && 1 <= rateBps <= BASIS && Accepted(council))
            && (o == Failed(AlreadyInitialized) <==> w.fd.config.Some?)
            && (o == Failed(InvalidFeeRate) <==> w.fd.config.None? && !(1 <= rateBps <= BASIS))
            && (o == Failed(InvalidCouncilConfig) <==>
                w.fd.config.None? && 1 <= rateBps <= BASIS && !Accepted(council))
            && (o.Done? ==> o.world == w.(fd := w.fd.(config := Some(FeeConfig(rateBps, shareBps, council)))))
  {
  }

  /** The new rate is stored, with share and council as they were. */
  lemma SetFeeRateExactly(w: World, env: Env, rateBps: U32)
    ensures var o := SetFeeRate(w, env, rateBps);
            && (o.Done? <==> && w.fd.config.Some? && Approves(w.fd.config.value.council, env.auths)
                             && 1 <= rateBps <= BASIS)
            && (o == Failed(InvalidFeeRate) <==> && w.fd.config.Some? && !(1 <= rateBps <= BASIS)
                                                 && Approves(w.fd.config.value.council, env.auths))
            && (o.Failed? ==> o.error == InvalidFeeRate)
            && (o.Done? ==>
                  var c := w.fd.config.value;
                  o.world == w.(fd := w.fd.(config := Some(FeeConfig(rateBps, c.shareBps, c.council)))))
  {
  }

  /** Nobody but the two contracts and those who signed ever has fewer tokens after a contract call. */
  lemma OnlySignersPay(w: World, tx: Tx, a: Address)
    requires Sound(w) && Legitimate(w, tx) && !tx.call.TokenTransfer?
    requires a !in tx.env.auths && a != w.fd.self && a != w.vault.tr.self
    ensures BalanceOf(Apply(w, tx).vault.bal, a) >= BalanceOf(w.vault.bal, a)
  {
    match tx.call
    case CallDistribute(relay, id, size) => DistributePays(w, tx.env, relay, id, size, a);
    case CallClaim(relay) => ClaimExactly(w, tx.env, relay);
    case CallTreasury(CallDeposit(from, x)) =>
      if Transfer(w.vault.bal, from, w.vault.tr.self, x).Some? {
        TransferConserves(w.vault.bal, from, w.vault.tr.self, x);
      }
    case CallTreasury(CallWithdraw(to, x)) =>
      if Transfer(w.vault.bal, w.vault.tr.self, to, x).Some? {
        TransferConserves(w.vault.bal, w.vault.tr.self, to, x);
      }
    case _ =>
  }

  lemma DistributePays(w: World, env: Env, relay: Address, batchId: U64, batchSize: U32, a: Address)
    requires ValidConfig(w.fd) && a != w.fd.self && a != w.vault.tr.self
    ensures BalanceOf(WorldAfter(w, Distribute(w, env, relay, batchId, batchSize)).vault.bal, a)
            == BalanceOf(w.vault.bal, a)
  {
    var o := Distribute(w, env, relay, batchId, batchSize);
    if o.Done? && o.world.vault != w.vault {
      var share := o.world.fd.fees[batchId].treasuryShare;
      TransferConserves(w.vault.bal, w.fd.self, w.vault.tr.self, share);
      TransferConserves(Transfer(w.vault.bal, w.fd.self, w.vault.tr.self, share).value,
                        w.fd.self, w.vault.tr.self, share);
    }
  }
}

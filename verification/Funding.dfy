/** What the distributor must be given: the double transfer of shares, and covering every claim. */
module Funding {
  import opened Base
  import opened MapSum
  import opened Token
  import opened Fees
  import opened Settlement
  import opened SettlementSafety
  import opened Claims
  import opened TreasurySafety
  import Treasury

  /** Everything the distributor was ever given: initial tokens, direct payments, treasury withdrawals to it. */
  ghost function Given(w0: World, txs: seq<Tx>): int
    requires Fresh(w0) && AllLegitimate(w0, txs)
  {
    CrossContractConservation(w0, txs);
    var tr := Run(w0, txs).vault.tr;
    BalanceOf(w0.vault.bal, w0.fd.self) + Sent(w0, txs, w0.fd.self) + WithdrawnTo(tr.entries, tr.entryCount, w0.fd.self)
  }

  // ---- Shares move twice ----

  /** The equations one would expect if a share moved once: the treasury holds what it records, and
      the distributor lost each share once. */
  ghost predicate SharesMovedOnce(w0: World, txs: seq<Tx>)
    requires Fresh(w0) && AllLegitimate(w0, txs)
  {
    CrossContractConservation(w0, txs);
    var w := Run(w0, txs);
    var t, d := w0.vault.tr.self, w0.fd.self;
    && BalanceOf(w.vault.bal, t) == BalanceOf(w0.vault.bal, t) + Sent(w0, txs, t)
         + w.vault.tr.balance + w.vault.tr.stats.lifetimeAllocated
         + WithdrawnTo(w.vault.tr.entries, w.vault.tr.entryCount, t)
    && BalanceOf(w.vault.bal, d) == Given(w0, txs) - SumBy(w.fd.earnings, ClaimedIn) - SumBy(w.fd.fees, ShareIn)
  }

  lemma SharesZeroIff(fees: map<U64, FeeEntry>)
    requires forall id :: id in fees ==> fees[id].treasuryShare >= 0
    ensures SumBy(fees, ShareIn) == 0 <==> forall id :: id in fees ==> fees[id].treasuryShare == 0
  {
    SumByNonNegative(fees, ShareIn);
    if forall id :: id in fees ==> fees[id].treasuryShare == 0 {
      SumByBounds(fees, ShareIn, 0, 0);
    } else {
      var id :| id in fees && fees[id].treasuryShare != 0;
      assert ShareIn(fees[id]) <= SumBy(fees, ShareIn);
    }
  }

  /** A batch that completes and leaves something to the treasury: the share depends on the
      configuration and the size only, so a caller knows it beforehand. */
  predicate MovesShare(w: World, tx: Tx)
    requires ValidConfig(w.fd)
  {
    && tx.call.CallDistribute? && w.fd.config.Some?
    && ShareOf(FeeOf(tx.call.batchSize, w.fd.config.value.rateBps), w.fd.config.value.shareBps) > 0
    && Distribute(w, tx.env, tx.call.relay, tx.call.batchId, tx.call.batchSize).Done?
  }

  /** One completed batch leaves the treasury with exactly its share more than it records. */
  lemma {:induction false} BatchSurplus(w: World, env: Env, relay: Address, batchId: U64, batchSize: U32)
    requires Sound(w) && Distribute(w, env, relay, batchId, batchSize).Done?
    ensures var next := Distribute(w, env, relay, batchId, batchSize).world;
            var share := ShareOf(FeeOf(batchSize, w.fd.config.value.rateBps), w.fd.config.value.shareBps);
            && Sound(next)
            && TreasurySurplus(next.vault) == TreasurySurplus(w.vault) + share
            && SumBy(next.fd.fees, ShareIn) == SumBy(w.fd.fees, ShareIn) + share
  {
    DistributeMove(w, env, relay, batchId, batchSize);
    DistributeKeepsSums(w, env, relay, batchId, batchSize);
  }

  lemma ShareStep(w: World, tx: Tx)
    requires Sound(w)
    ensures SumBy(Apply(w, tx).fd.fees, ShareIn) >= SumBy(w.fd.fees, ShareIn)
    ensures SumBy(Apply(w, tx).fd.fees, ShareIn) > SumBy(w.fd.fees, ShareIn) <==> MovesShare(w, tx)
  {
    match tx.call
    case CallDistribute(relay, id, size) =>
      if Distribute(w, tx.env, relay, id, size).Done? {
        BatchSurplus(w, tx.env, relay, id, size);
      }
    case _ =>
  }

  ghost predicate NoShareMoves(w0: World, txs: seq<Tx>)
    requires ValidConfig(w0.fd)
  {
    forall i :: 0 <= i < |txs| ==> !MovesShare(Run(w0, txs[..i]), txs[i])
  }

  lemma NoShareSplits(w0: World, txs: seq<Tx>)
    requires ValidConfig(w0.fd) && txs != []
    ensures var init := txs[..|txs| - 1];
            NoShareMoves(w0, txs) <==> NoShareMoves(w0, init) && !MovesShare(Run(w0, init), txs[|txs| - 1])
  {
    var init := txs[..|txs| - 1];
    assert forall i :: 0 <= i < |init| ==> init[..i] == txs[..i] && init[i] == txs[i];
    if NoShareMoves(w0, init) && !MovesShare(Run(w0, init), txs[|txs| - 1]) {
      forall i | 0 <= i < |txs|
        ensures !MovesShare(Run(w0, txs[..i]), txs[i])
      {
        if i < |init| {
          assert !MovesShare(Run(w0, init[..i]), init[i]);
        }
      }
    }
  }

  lemma {:induction false} ShareTotalIff(w0: World, txs: seq<Tx>)
    requires Fresh(w0) && AllLegitimate(w0, txs)
    ensures SumBy(Run(w0, txs).fd.fees, ShareIn) >= 0
    ensures SumBy(Run(w0, txs).fd.fees, ShareIn) == 0 <==> NoShareMoves(w0, txs)
  {
    if txs != [] {
      var init := txs[..|txs| - 1];
      ShareTotalIff(w0, init);
      CrossContractConservation(w0, init);
      ShareStep(Run(w0, init), txs[|txs| - 1]);
      NoShareSplits(w0, txs);
    }
  }

  /** They hold exactly in the runs in which no completed batch had a positive share, that is, whose
      fee entries all have a treasury share of zero. */
  lemma {:induction false} SharesMovedOnceIff(w0: World, txs: seq<Tx>)
    requires Fresh(w0) && AllLegitimate(w0, txs)
    ensures SharesMovedOnce(w0, txs) <==> NoShareMoves(w0, txs)
    ensures SharesMovedOnce(w0, txs) <==>
            forall id :: id in Run(w0, txs).fd.fees ==> Run(w0, txs).fd.fees[id].treasuryShare == 0
  {
    CrossContractConservation(w0, txs);
    ShareTotalIff(w0, txs);
    var fd := Run(w0, txs).fd;
    assert forall id :: id in fd.fees ==> EntrySound(fd, id);
    SharesZeroIff(fd.fees);
  }

  // ---- Covering every claim ----

  lemma UnclaimedTotal(fd: State)
    requires DistributorInvariant(fd)
    ensures SumBy(fd.earnings, UnclaimedIn) == SumBy(fd.earnings, EarnedIn) - SumBy(fd.earnings, ClaimedIn)
  {
    forall relay | relay in fd.earnings
      ensures UnclaimedIn(fd.earnings[relay]) == EarnedIn(fd.earnings[relay]) - ClaimedIn(fd.earnings[relay])
    {
      assert RelaySound(fd, relay);
    }
    SumByDifference(fd.earnings, UnclaimedIn, EarnedIn, ClaimedIn);
  }

  lemma {:induction false} HeldIsGiven(w0: World, txs: seq<Tx>)
    requires Fresh(w0) && AllLegitimate(w0, txs)
    ensures var w := Run(w0, txs);
            && Sound(w) && w.fd.self == w0.fd.self && w.vault.tr.self == w0.vault.tr.self
            && BalanceOf(w.vault.bal, w0.fd.self) - SumBy(w.fd.earnings, UnclaimedIn)
               == Given(w0, txs) - SumBy(w.fd.fees, AmountIn) - SumBy(w.fd.fees, ShareIn)
  {
    CrossContractConservation(w0, txs);
    FreshIsSound(w0);
    RunIsSound(w0, txs);
    UnclaimedTotal(Run(w0, txs).fd);
  }

  /** The distributor can cover all that relays have not claimed yet exactly when it was given, over
      its life, every fee in full and every treasury share once more. */
  lemma {:induction false} CoveredIff(w0: World, txs: seq<Tx>)
    requires Fresh(w0) && AllLegitimate(w0, txs)
    ensures var fd := Run(w0, txs).fd;
            && (SumBy(fd.earnings, UnclaimedIn) <= BalanceOf(Run(w0, txs).vault.bal, w0.fd.self) <==>
                Given(w0, txs) >= SumBy(fd.earnings, EarnedIn) + 2 * SumBy(fd.fees, ShareIn))
            && SumBy(fd.earnings, EarnedIn) + 2 * SumBy(fd.fees, ShareIn)
               == SumBy(fd.fees, AmountIn) + SumBy(fd.fees, ShareIn)
  {
    HeldIsGiven(w0, txs);
    assert DistributorInvariant(Run(w0, txs).fd);
  }

  /** Any set of distinct relays: their claims all complete exactly when each is ready and what the
      distributor was given, plus what it may leave unpaid to everybody else, covers fees and shares. */
  lemma {:induction false} PaidIff(w0: World, txs: seq<Tx>, order: seq<Request>)
    requires Fresh(w0) && AllLegitimate(w0, txs)
    requires Distinct(order) && w0.fd.self !in Relays(order)
    ensures var w := Run(w0, txs);
            ClaimAll(w, order).Some? <==>
            && AllReady(w, order)
            && Given(w0, txs) + SumBy(w.fd.earnings - Relays(order), UnclaimedIn)
               >= SumBy(w.fd.fees, AmountIn) + SumBy(w.fd.fees, ShareIn)
  {
    HeldIsGiven(w0, txs);
    var w := Run(w0, txs);
    ClaimAllExactly(w, order);
    if AllReady(w, order) {
      OwedIsUnclaimed(w, order);
    }
  }

  lemma OwedIsUnclaimed(w: World, order: seq<Request>)
    requires AllReady(w, order)
    ensures SumBy(w.fd.earnings, UnclaimedIn)
            == OwedTo(w, Relays(order)) + SumBy(w.fd.earnings - Relays(order), UnclaimedIn)
  {
    var relays := Relays(order);
    SumByPartition(w.fd.earnings, UnclaimedIn, relays);
    forall r | r in relays
      ensures r in w.fd.earnings
    {
      var i :| 0 <= i < |order| && order[i].relay == r;
      assert Ready(w, order[i]);
    }
    assert Records(w.fd.earnings, relays) == map r | r in w.fd.earnings && r in relays :: w.fd.earnings[r];
  }

  /** The two contracts' own addresses: `distribute` credits any address, and these cannot sign a claim. */
  function Contracts(w: World): set<Address> {
    {w.fd.self, w.vault.tr.self}
  }

  /** What was credited to the contracts themselves stays where it is. */
  ghost function Stranded(w: World): int {
    EarningsOf(w.fd.earnings, w.fd.self).unclaimed + EarningsOf(w.fd.earnings, w.vault.tr.self).unclaimed
  }

  lemma NothingElse(fd: State, rest: map<Address, Earnings>)
    requires DistributorInvariant(fd)
    requires forall r :: r in rest ==> r in fd.earnings && rest[r] == fd.earnings[r] && rest[r].unclaimed <= 0
    ensures SumBy(rest, UnclaimedIn) <= 0
    ensures (fd.config.Some? ==> fd.config.value.shareBps <= BASIS) ==> SumBy(rest, UnclaimedIn) == 0
  {
    var oversized := fd.config.Some? && fd.config.value.shareBps > BASIS;
    var lo := if oversized then -(U64_MAX + 1) * MAX_SHARE else 0;
    forall r | r in rest
      ensures lo <= UnclaimedIn(rest[r]) <= 0
    {
      EarningsBounded(fd, r);
      assert RelaySound(fd, r);
    }
    SumByBounds(rest, UnclaimedIn, lo, 0);
  }

  lemma OthersAreStranded(w: World, relays: set<Address>)
    requires Sound(w) && relays !! Contracts(w)
    requires forall r :: r !in Contracts(w) && r !in relays ==> EarningsOf(w.fd.earnings, r).unclaimed <= 0
    ensures SumBy(w.fd.earnings - relays, UnclaimedIn) <= Stranded(w)
    ensures (w.fd.config.Some? ==> w.fd.config.value.shareBps <= BASIS)
            ==> SumBy(w.fd.earnings - relays, UnclaimedIn) == Stranded(w)
  {
    var others := w.fd.earnings - relays;
    var rest := others - {w.fd.self} - {w.vault.tr.self};
    forall r | r in rest
      ensures rest[r].unclaimed <= 0
    {
      assert EarningsOf(w.fd.earnings, r).unclaimed <= 0;
    }
    NothingElse(w.fd, rest);
    SumByRemove(others, UnclaimedIn, w.fd.self);
    SumByRemove(others - {w.fd.self}, UnclaimedIn, w.vault.tr.self);
  }

  /** Every relay that can claim gets paid, in any order, exactly when all are ready and the
      distributor was given enough for all fees and every share once more, less what was credited to
      the contracts themselves. */
  lemma {:induction false} EverybodyPaidIff(w0: World, txs: seq<Tx>, order: seq<Request>)
    requires Fresh(w0) && AllLegitimate(w0, txs)
    requires Distinct(order) && Contracts(w0) !! Relays(order)
    requires forall r :: r !in Contracts(w0) && EarningsOf(Run(w0, txs).fd.earnings, r).unclaimed > 0
                         ==> r in Relays(order)
    ensures var w := Run(w0, txs);
            ClaimAll(w, order).Some? <==>
            && AllReady(w, order)
            && Given(w0, txs) + Stranded(w) >= SumBy(w.fd.fees, AmountIn) + SumBy(w.fd.fees, ShareIn)
  {
    HeldIsGiven(w0, txs);
    PaidIff(w0, txs, order);
    var w := Run(w0, txs);
    OthersAreStranded(w, Relays(order));
    if w.fd.config.Some? && w.fd.config.value.shareBps > BASIS && order != [] {
      OversizedNeverReady(w, order);
    }
  }

  lemma OversizedNeverReady(w: World, order: seq<Request>)
    requires DistributorInvariant(w.fd) && w.fd.config.Some? && w.fd.config.value.shareBps > BASIS && order != []
    ensures !AllReady(w, order)
  {
    assert RelaySound(w.fd, order[0].relay);
    assert !Ready(w, order[0]);
  }

  /** A claim needs the relay's signature, so nothing is ever paid out on a contract's own record. */
  lemma {:induction false} ContractsNeverClaim(w0: World, txs: seq<Tx>, c: Address)
    requires Fresh(w0) && AllLegitimate(w0, txs) && c in Contracts(w0)
    ensures EarningsOf(Run(w0, txs).fd.earnings, c).totalClaimed == 0
    ensures EarningsOf(Run(w0, txs).fd.earnings, c).unclaimed == SumBy(Run(w0, txs).fd.fees, PayoutTo(c))
  {
    HeldIsGiven(w0, txs);
    assert RelaySound(Run(w0, txs).fd, c);
    if txs != [] {
      ContractsNeverClaim(w0, txs[..|txs| - 1], c);
      OthersClaim(Run(w0, txs[..|txs| - 1]), txs[|txs| - 1], c);
    }
  }

  lemma OthersClaim(w: World, tx: Tx, c: Address)
    requires ValidConfig(w.fd) && c !in tx.env.auths
    ensures EarningsOf(Apply(w, tx).fd.earnings, c).totalClaimed == EarningsOf(w.fd.earnings, c).totalClaimed
  {
  }
}

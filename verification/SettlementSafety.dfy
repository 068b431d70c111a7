/** Distributor, treasury and token together: conservation, earnings and overflow over every run. */
module SettlementSafety {
  import opened Base
  import opened MapSum
  import opened Council
  import opened Token
  import opened Fees
  import opened Settlement
  import Treasury
  import opened TreasurySafety

  // ---- The distributor's own stores ----

  function ShareIn(e: FeeEntry): int { e.treasuryShare }

  function ClaimedIn(r: Earnings): int { r.totalClaimed }

  function AmountIn(e: FeeEntry): int { e.amount }

  function EarnedIn(r: Earnings): int { r.totalEarned }

  function UnclaimedIn(r: Earnings): int { r.unclaimed }

  function PayoutTo(relay: Address): FeeEntry -> int {
    (e: FeeEntry) => if e.relay == relay then e.amount - e.treasuryShare else 0
  }

  const MAX_SHARE: int := U32_MAX * U32_MAX / BASIS

  ghost predicate EntrySound(fd: State, id: U64)
    requires id in fd.fees && fd.config.Some?
  {
    var e := fd.fees[id];
    && e.batchId == id
    && 0 <= e.amount <= U32_MAX && 0 <= e.treasuryShare <= MAX_SHARE
    && (fd.config.value.shareBps <= BASIS ==> e.treasuryShare <= e.amount)
    && (fd.config.value.shareBps > BASIS ==> e.treasuryShare >= e.amount)
  }

  /** A relay's record is the log of its batches; what it claimed is part of what it earned. */
  ghost predicate RelaySound(fd: State, relay: Address) {
    var r := EarningsOf(fd.earnings, relay);
    && r.totalEarned == SumBy(fd.fees, PayoutTo(relay))
    && r.totalEarned == r.totalClaimed + r.unclaimed
    && r.totalClaimed >= 0
    && (fd.config.Some? ==> if fd.config.value.shareBps <= BASIS then r.unclaimed >= 0
                            else r.totalClaimed == 0 && r.unclaimed <= 0)
  }

  ghost predicate DistributorInvariant(fd: State) {
    && ValidConfig(fd)
    && (fd.config.None? ==> fd.fees == map[] && fd.earnings == map[])
    && (forall id :: id in fd.fees ==> EntrySound(fd, id))
    && (forall relay :: RelaySound(fd, relay))
    && SumBy(fd.earnings, EarnedIn) == SumBy(fd.fees, AmountIn) - SumBy(fd.fees, ShareIn)
  }

  // ---- Where the tokens are ----

  /** Treasury tokens beyond its recorded balance, its allocations, and withdrawals it paid to itself. */
  ghost function TreasurySurplus(v: Treasury.Vault): int
    requires LogIdsExact(v.tr)
  {
    BalanceOf(v.bal, v.tr.self) - v.tr.balance - v.tr.stats.lifetimeAllocated
    - WithdrawnTo(v.tr.entries, v.tr.entryCount, v.tr.self)
  }

  /** Distributor tokens beyond what the treasury withdrew to it. */
  ghost function DistributorSurplus(v: Treasury.Vault, fd: Address): int
    requires LogIdsExact(v.tr)
  {
    BalanceOf(v.bal, fd) - WithdrawnTo(v.tr.entries, v.tr.entryCount, fd)
  }

  /** `toTreasury` and `toDistributor`: what each held first plus what it was sent directly since. */
  ghost predicate TokensAccounted(w: World, toTreasury: int, toDistributor: int)
    requires LogIdsExact(w.vault.tr)
  {
    && TreasurySurplus(w.vault) == toTreasury + SumBy(w.fd.fees, ShareIn)
    && DistributorSurplus(w.vault, w.fd.self)
       == toDistributor - SumBy(w.fd.earnings, ClaimedIn) - 2 * SumBy(w.fd.fees, ShareIn)
  }

  ghost predicate Sound(w: World) {
    DistributorInvariant(w.fd) && TreasuryInvariant(w.vault.tr) && w.fd.self != w.vault.tr.self
  }

  /** What no later step undoes on the distributor's side. */
  ghost predicate FeesContinue(a: State, b: State) {
    && a.self == b.self
    && (forall id :: id in a.fees ==> id in b.fees && b.fees[id] == a.fees[id])
    && (forall relay :: EarningsOf(a.earnings, relay).totalClaimed <= EarningsOf(b.earnings, relay).totalClaimed)
    && (a.config.Some? ==> && b.config.Some? && b.config.value.shareBps == a.config.value.shareBps
                           && b.config.value.council == a.config.value.council)
  }

  /** A step that was sent `dt` and `dd` tokens from outside. */
  ghost predicate GoodMove(w: World, next: World, dt: int, dd: int) {
    && Sound(w) && Sound(next)
    && FeesContinue(w.fd, next.fd) && Continues(w.vault.tr, next.vault.tr)
    && TreasurySurplus(next.vault) - TreasurySurplus(w.vault)
       == dt + SumBy(next.fd.fees, ShareIn) - SumBy(w.fd.fees, ShareIn)
    && DistributorSurplus(next.vault, w.fd.self) - DistributorSurplus(w.vault, w.fd.self)
       == dd - SumBy(next.fd.earnings, ClaimedIn) + SumBy(w.fd.earnings, ClaimedIn)
          - 2 * (SumBy(next.fd.fees, ShareIn) - SumBy(w.fd.fees, ShareIn))
  }

  // ---- One step ----

  /** The share reaches the treasury twice, and is recorded once. */
  lemma PayTreasuryMoves(w: World, env: Env, share: I128)
    requires TreasuryInvariant(w.vault.tr) && w.fd.self != w.vault.tr.self
    requires PayTreasury(w, env, share).Some?
    ensures var v := PayTreasury(w, env, share).value;
            && TreasuryInvariant(v.tr) && Continues(w.vault.tr, v.tr)
            && v.tr.balance == w.vault.tr.balance + share
            && v.tr.stats.lifetimeAllocated == w.vault.tr.stats.lifetimeAllocated
            && TreasurySurplus(v) == TreasurySurplus(w.vault) + share
            && DistributorSurplus(v, w.fd.self) == DistributorSurplus(w.vault, w.fd.self) - 2 * share
  {
    var paid := Transfer(w.vault.bal, w.fd.self, w.vault.tr.self, share).value;
    TransferConserves(w.vault.bal, w.fd.self, w.vault.tr.self, share);
    DepositStep(Treasury.Vault(w.vault.tr, paid), env.(auths := env.auths + {w.fd.self}), w.fd.self, share);
    TransferConserves(paid, w.fd.self, w.vault.tr.self, share);
  }

  lemma DistributeKeepsSums(w: World, env: Env, relay: Address, batchId: U64, batchSize: U32)
    requires ValidConfig(w.fd) && Distribute(w, env, relay, batchId, batchSize).Done?
    ensures var next := Distribute(w, env, relay, batchId, batchSize).world.fd;
            && SumBy(next.fees, ShareIn) == SumBy(w.fd.fees, ShareIn) + next.fees[batchId].treasuryShare
            && SumBy(next.earnings, ClaimedIn) == SumBy(w.fd.earnings, ClaimedIn)
            && SumBy(next.earnings, EarnedIn) - SumBy(w.fd.earnings, EarnedIn)
               == SumBy(next.fees, AmountIn) - SumBy(next.fees, ShareIn)
                  - SumBy(w.fd.fees, AmountIn) + SumBy(w.fd.fees, ShareIn)
            && forall r :: SumBy(next.fees, PayoutTo(r))
                           == SumBy(w.fd.fees, PayoutTo(r)) + PayoutTo(r)(next.fees[batchId])
  {
    var next := Distribute(w, env, relay, batchId, batchSize).world.fd;
    SumByUpdate(w.fd.fees, ShareIn, batchId, next.fees[batchId]);
    SumByUpdate(w.fd.fees, AmountIn, batchId, next.fees[batchId]);
    SumByUpdate(w.fd.earnings, ClaimedIn, relay, next.earnings[relay]);
    SumByUpdate(w.fd.earnings, EarnedIn, relay, next.earnings[relay]);
    forall r
      ensures SumBy(next.fees, PayoutTo(r)) == SumBy(w.fd.fees, PayoutTo(r)) + PayoutTo(r)(next.fees[batchId])
    {
      SumByUpdate(w.fd.fees, PayoutTo(r), batchId, next.fees[batchId]);
    }
  }

  lemma DistributeKeepsRelay(w: World, env: Env, relay: Address, batchId: U64, batchSize: U32, r: Address)
    requires ValidConfig(w.fd) && RelaySound(w.fd, r) && Distribute(w, env, relay, batchId, batchSize).Done?
    ensures RelaySound(Distribute(w, env, relay, batchId, batchSize).world.fd, r)
  {
    var e := Distribute(w, env, relay, batchId, batchSize).world.fd.fees[batchId];
    ShareSign(e.amount, w.fd.config.value.shareBps);
    DistributeKeepsSums(w, env, relay, batchId, batchSize);
  }

  lemma DistributeKeepsEntries(w: World, env: Env, relay: Address, batchId: U64, batchSize: U32, id: U64)
    requires DistributorInvariant(w.fd) && Distribute(w, env, relay, batchId, batchSize).Done?
    requires id in Distribute(w, env, relay, batchId, batchSize).world.fd.fees
    ensures EntrySound(Distribute(w, env, relay, batchId, batchSize).world.fd, id)
  {
    var next := Distribute(w, env, relay, batchId, batchSize).world.fd;
    FeeRange(batchSize, w.fd.config.value.rateBps, w.fd.config.value.shareBps);
    ShareSign(next.fees[batchId].amount, w.fd.config.value.shareBps);
    assert id != batchId ==> EntrySound(w.fd, id);
  }

  lemma DistributeKeepsStores(w: World, env: Env, relay: Address, batchId: U64, batchSize: U32)
    requires DistributorInvariant(w.fd) && Distribute(w, env, relay, batchId, batchSize).Done?
    ensures var next := Distribute(w, env, relay, batchId, batchSize).world.fd;
            DistributorInvariant(next) && FeesContinue(w.fd, next)
  {
    var next := Distribute(w, env, relay, batchId, batchSize).world.fd;
    DistributeKeepsSums(w, env, relay, batchId, batchSize);
    forall r
      ensures RelaySound(next, r)
    {
      DistributeKeepsRelay(w, env, relay, batchId, batchSize, r);
    }
    forall id | id in next.fees
      ensures EntrySound(next, id)
    {
      DistributeKeepsEntries(w, env, relay, batchId, batchSize, id);
    }
  }

  lemma ShareSign(fee: nat, shareBps: nat)
    ensures shareBps <= BASIS ==> ShareOf(fee, shareBps) <= fee
    ensures shareBps > BASIS ==> ShareOf(fee, shareBps) >= fee
  {
  }

  lemma DistributeMove(w: World, env: Env, relay: Address, batchId: U64, batchSize: U32)
    requires Sound(w)
    ensures GoodMove(w, WorldAfter(w, Distribute(w, env, relay, batchId, batchSize)), 0, 0)
  {
    var o := Distribute(w, env, relay, batchId, batchSize);
    if o.Done? {
      DistributeKeepsStores(w, env, relay, batchId, batchSize);
      DistributeKeepsSums(w, env, relay, batchId, batchSize);
      var share := o.world.fd.fees[batchId].treasuryShare;
      if share != 0 {
        PayTreasuryMoves(w, env, share);
      }
    }
  }

  lemma ClaimMove(w: World, env: Env, relay: Address)
    requires Sound(w) && w.fd.self !in env.auths && w.vault.tr.self !in env.auths
    ensures GoodMove(w, WorldAfter(w, Claim(w, env, relay)), 0, 0)
  {
    var o := Claim(w, env, relay);
    if o.Done? {
      var next := o.world.fd;
      TransferConserves(w.vault.bal, w.fd.self, relay, o.value);
      SumByUpdate(w.fd.earnings, ClaimedIn, relay, next.earnings[relay]);
      SumByUpdate(w.fd.earnings, EarnedIn, relay, next.earnings[relay]);
      forall r
        ensures RelaySound(next, r)
      {
        assert RelaySound(w.fd, r);
      }
      assert forall id :: id in next.fees ==> EntrySound(w.fd, id);
    }
  }

  lemma ConfigMove(w: World, env: Env, council: AdminCouncil, rateBps: U32, shareBps: U32)
    requires Sound(w)
    ensures GoodMove(w, WorldAfter(w, Initialize(w, council, rateBps, shareBps)), 0, 0)
    ensures GoodMove(w, WorldAfter(w, SetFeeRate(w, env, rateBps)), 0, 0)
  {
    var i, s := Initialize(w, council, rateBps, shareBps).Done?, SetFeeRate(w, env, rateBps);
    forall r
      ensures RelaySound(WorldAfter(w, Initialize(w, council, rateBps, shareBps)).fd, r)
      ensures RelaySound(WorldAfter(w, s).fd, r)
    {
      assert RelaySound(w.fd, r);
    }
    assert forall id :: id in w.fd.fees ==> EntrySound(w.fd, id);
  }

  lemma DepositMove(w: World, env: Env, from: Address, a: I128)
    requires Sound(w) && w.fd.self !in env.auths && w.vault.tr.self !in env.auths
    ensures GoodMove(w, w.(vault := WorldAfter(w.vault, Treasury.MakeDeposit(w.vault, env, from, a))), 0, 0)
  {
    DepositStep(w.vault, env, from, a);
    if Transfer(w.vault.bal, from, w.vault.tr.self, a).Some? {
      TransferConserves(w.vault.bal, from, w.vault.tr.self, a);
    }
  }

  lemma WithdrawMove(w: World, env: Env, to: Address, a: I128)
    requires Sound(w)
    ensures GoodMove(w, w.(vault := WorldAfter(w.vault, Treasury.Withdraw(w.vault, env, to, a))), 0, 0)
  {
    WithdrawStep(w.vault, env, to, a);
    if Transfer(w.vault.bal, w.vault.tr.self, to, a).Some? {
      TransferConserves(w.vault.bal, w.vault.tr.self, to, a);
    }
  }

  lemma AllocateMove(w: World, env: Env, id: U64, a: I128)
    requires Sound(w)
    ensures GoodMove(w, w.(vault := WorldAfter(w.vault, Treasury.Allocate(w.vault, env, id, a))), 0, 0)
  {
    AllocateStep(w.vault, env, id, a);
  }

  lemma SetupMove(w: World, c: AdminCouncil)
    requires Sound(w)
    ensures GoodMove(w, w.(vault := WorldAfter(w.vault, Treasury.Initialize(w.vault, c))), 0, 0)
  {
    TreasurySafety.EveryStepGood(w.vault, Env(0, 0, {}), Treasury.CallInitialize(c));
    assert Replay(w.vault.tr.entries, w.vault.tr.entryCount).balance == w.vault.tr.balance;
  }

  lemma ProgramMove(w: World, env: Env, call: Treasury.Call)
    requires Sound(w) && (call.CallCreateProgram? || call.CallUpdateBudget? || call.CallDeactivate?)
    ensures GoodMove(w, w.(vault := Treasury.Apply(w.vault, env, call)), 0, 0)
  {
    TreasurySafety.EveryStepGood(w.vault, env, call);
  }

  lemma TreasuryMove(w: World, env: Env, call: Treasury.Call)
    requires Sound(w) && w.fd.self !in env.auths && w.vault.tr.self !in env.auths
    ensures GoodMove(w, w.(vault := Treasury.Apply(w.vault, env, call)), 0, 0)
  {
    match call
    case CallDeposit(from, a) => DepositMove(w, env, from, a);
    case CallWithdraw(to, a) => WithdrawMove(w, env, to, a);
    case CallAllocate(id, a) => AllocateMove(w, env, id, a);
    case CallInitialize(c) => SetupMove(w, c);
    case _ => ProgramMove(w, env, call);
  }

  lemma BalanceMove(w: World, b: Balances, dt: int, dd: int)
    requires Sound(w)
    requires BalanceOf(b, w.vault.tr.self) == BalanceOf(w.vault.bal, w.vault.tr.self) + dt
    requires BalanceOf(b, w.fd.self) == BalanceOf(w.vault.bal, w.fd.self) + dd
    ensures GoodMove(w, w.(vault := w.vault.(bal := b)), dt, dd)
  {
  }

  lemma OutsideMove(w: World, tx: Tx)
    requires Sound(w) && Legitimate(w, tx) && (tx.call.TokenTransfer? || tx.call.TokenMint?)
    ensures GoodMove(w, Apply(w, tx), SentBy(w, tx, w.vault.tr.self), SentBy(w, tx, w.fd.self))
  {
    var dt, dd := SentBy(w, tx, w.vault.tr.self), SentBy(w, tx, w.fd.self);
    var moved := if tx.call.TokenTransfer? then Transfer(w.vault.bal, tx.call.from, tx.call.to, tx.call.amount)
                 else Mint(w.vault.bal, tx.call.to, tx.call.amount);
    var b := if moved.Some? then moved.value else w.vault.bal;
    if tx.call.TokenTransfer? && moved.Some? {
      TransferConserves(w.vault.bal, tx.call.from, tx.call.to, tx.call.amount);
    }
    BalanceMove(w, b, dt, dd);
    assert Apply(w, tx) == w.(vault := w.vault.(bal := b));
  }

  lemma EveryMoveGood(w: World, tx: Tx)
    requires Sound(w) && Legitimate(w, tx)
    ensures GoodMove(w, Apply(w, tx), SentBy(w, tx, w.vault.tr.self), SentBy(w, tx, w.fd.self))
  {
    if tx.call.TokenTransfer? || tx.call.TokenMint? {
      OutsideMove(w, tx);
    } else {
      ContractMove(w, tx);
    }
  }

  lemma ContractMove(w: World, tx: Tx)
    requires Sound(w) && Legitimate(w, tx) && !tx.call.TokenTransfer? && !tx.call.TokenMint?
    ensures GoodMove(w, Apply(w, tx), 0, 0)
  {
    match tx.call
    case CallInitialize(c, r, s) => ConfigMove(w, tx.env, c, r, s);
    case CallDistribute(relay, id, size) => DistributeMove(w, tx.env, relay, id, size);
    case CallClaim(relay) => ClaimMove(w, tx.env, relay);
    case CallSetFeeRate(r) => ConfigMove(w, tx.env, AdminCouncil([], 0), r, 0);
    case CallTreasury(call) => TreasuryMove(w, tx.env, call);
  }

  // ---- Every run ----

  lemma ContinuesChain(a: Treasury.State, b: Treasury.State, c: Treasury.State)
    requires Continues(a, b) && Continues(b, c)
    ensures Continues(a, c)
  {
  }

  lemma FeesChain(a: State, b: State, c: State)
    requires FeesContinue(a, b) && FeesContinue(b, c)
    ensures FeesContinue(a, c)
  {
  }

  lemma MoveChain(a: World, b: World, c: World, t1: int, d1: int, t2: int, d2: int)
    requires GoodMove(a, b, t1, d1) && GoodMove(b, c, t2, d2)
    ensures GoodMove(a, c, t1 + t2, d1 + d2)
  {
    ContinuesChain(a.vault.tr, b.vault.tr, c.vault.tr);
    FeesChain(a.fd, b.fd, c.fd);
  }

  /** From any sound world, through any calls on either contract and any token movements. */
  lemma {:induction false} RunIsSound(w0: World, txs: seq<Tx>)
    requires Sound(w0) && AllLegitimate(w0, txs)
    ensures GoodMove(w0, Run(w0, txs), Sent(w0, txs, w0.vault.tr.self), Sent(w0, txs, w0.fd.self))
  {
    if txs != [] {
      var w, tx := Run(w0, txs[..|txs| - 1]), txs[|txs| - 1];
      RunIsSound(w0, txs[..|txs| - 1]);
      EveryMoveGood(w, tx);
      MoveChain(w0, w, Apply(w, tx),
                Sent(w0, txs[..|txs| - 1], w0.vault.tr.self), Sent(w0, txs[..|txs| - 1], w0.fd.self),
                SentBy(w, tx, w0.vault.tr.self), SentBy(w, tx, w0.fd.self));
    }
  }

  lemma FreshIsSound(w: World)
    requires Fresh(w)
    ensures Sound(w) && TokensAccounted(w, BalanceOf(w.vault.bal, w.vault.tr.self), BalanceOf(w.vault.bal, w.fd.self))
  {
  }

  /** Cross-contract conservation from deployment on. Each share leaves the distributor twice and
      is recorded by the treasury once, so the second copy is surplus there. */
  lemma {:induction false} CrossContractConservation(w0: World, txs: seq<Tx>)
    requires Fresh(w0) && AllLegitimate(w0, txs)
    ensures var w := Run(w0, txs);
            var t, d := w0.vault.tr.self, w0.fd.self;
            && Sound(w)
            && BalanceOf(w.vault.bal, t) == BalanceOf(w0.vault.bal, t) + Sent(w0, txs, t)
                 + w.vault.tr.balance + w.vault.tr.stats.lifetimeAllocated + SumBy(w.fd.fees, ShareIn)
                 + WithdrawnTo(w.vault.tr.entries, w.vault.tr.entryCount, t)
            && BalanceOf(w.vault.bal, d) == BalanceOf(w0.vault.bal, d) + Sent(w0, txs, d)
                 + WithdrawnTo(w.vault.tr.entries, w.vault.tr.entryCount, d)
                 - SumBy(w.fd.earnings, ClaimedIn) - 2 * SumBy(w.fd.fees, ShareIn)
            && w.vault.tr.balance <= BalanceOf(w.vault.bal, t)
  {
    FreshIsSound(w0);
    RunIsSound(w0, txs);
    var w := Run(w0, txs);
    assert w.vault.tr.self == w0.vault.tr.self && w.fd.self == w0.fd.self;
    StatsAddUp(w.vault.tr);
    WithdrawalsNonNegative(w.vault.tr.entries, w.vault.tr.entryCount, w0.vault.tr.self);
    SentNonNegative(w0, txs, w0.vault.tr.self);
    assert forall id :: id in w.fd.fees ==> EntrySound(w.fd, id);
    SumByNonNegative(w.fd.fees, ShareIn);
  }

  lemma {:induction false} WithdrawalsNonNegative(entries: map<U64, Treasury.Entry>, n: nat, to: Address)
    requires Holds(entries, n) && forall i :: i in entries ==> entries[i].amount > 0
    ensures WithdrawnTo(entries, n, to) >= 0
  {
    if n > 0 {
      WithdrawalsNonNegative(entries, n - 1, to);
    }
  }

  lemma {:induction false} SentNonNegative(w: World, txs: seq<Tx>, a: Address)
    requires ValidConfig(w.fd)
    ensures Sent(w, txs, a) >= 0
  {
    if txs != [] {
      SentNonNegative(w, txs[..|txs| - 1], a);
    }
  }

  /** Exactly when `withdraw` completes: a shortage of tokens is not among the reasons it may not. */
  lemma {:induction false} WithdrawExactly(w0: World, txs: seq<Tx>, env: Env, to: Address, amount: I128)
    requires Fresh(w0) && AllLegitimate(w0, txs)
    ensures var v := Run(w0, txs).vault;
            Treasury.Withdraw(v, env, to, amount).Done? <==>
            && Treasury.CouncilApproves(v.tr, env.auths)
            && 0 < amount <= v.tr.balance && v.tr.entryCount < U64_MAX
            && (to == v.tr.self || BalanceOf(v.bal, to) + amount <= I128_MAX)
  {
    CrossContractConservation(w0, txs);
    var v := Run(w0, txs).vault;
    OverflowExactly(v, env, to, 0, amount);
    assert v.tr.self == w0.vault.tr.self by { FreshIsSound(w0); RunIsSound(w0, txs); }
  }

  // ---- Supply ----

  ghost function MintedBy(w: World, tx: Tx): int {
    if tx.call.TokenMint? && Mint(w.vault.bal, tx.call.to, tx.call.amount).Some? then tx.call.amount else 0
  }

  ghost function Minted(w: World, txs: seq<Tx>): int
    requires ValidConfig(w.fd)
  {
    if txs == [] then 0
    else Minted(w, txs[..|txs| - 1]) + MintedBy(Run(w, txs[..|txs| - 1]), txs[|txs| - 1])
  }

  lemma TransferKeepsSupply(b: Balances, from: Address, to: Address, amount: I128)
    ensures Transfer(b, from, to, amount).Some? ==> Supply(Transfer(b, from, to, amount).value) == Supply(b)
  {
    if Transfer(b, from, to, amount).Some? {
      TransferConserves(b, from, to, amount);
    }
  }

  lemma DistributeKeepsSupply(w: World, env: Env, relay: Address, batchId: U64, batchSize: U32)
    requires ValidConfig(w.fd)
    ensures Supply(WorldAfter(w, Distribute(w, env, relay, batchId, batchSize)).vault.bal) == Supply(w.vault.bal)
  {
    var o := Distribute(w, env, relay, batchId, batchSize);
    if o.Done? {
      var share := o.world.fd.fees[batchId].treasuryShare;
      TransferKeepsSupply(w.vault.bal, w.fd.self, w.vault.tr.self, share);
      if share != 0 {
        TransferKeepsSupply(Transfer(w.vault.bal, w.fd.self, w.vault.tr.self, share).value,
                            w.fd.self, w.vault.tr.self, share);
      }
    }
  }

  lemma StepKeepsSupply(w: World, tx: Tx)
    requires ValidConfig(w.fd)
    ensures Supply(Apply(w, tx).vault.bal) == Supply(w.vault.bal) + MintedBy(w, tx)
  {
    var b, d, t := w.vault.bal, w.fd.self, w.vault.tr.self;
    match tx.call
    case CallDistribute(relay, id, size) => DistributeKeepsSupply(w, tx.env, relay, id, size);
    case CallClaim(relay) => TransferKeepsSupply(b, d, relay, EarningsOf(w.fd.earnings, relay).unclaimed);
    case CallTreasury(CallDeposit(from, a)) => TransferKeepsSupply(b, from, t, a);
    case CallTreasury(CallWithdraw(to, a)) => TransferKeepsSupply(b, t, to, a);
    case TokenTransfer(from, to, a) => TransferKeepsSupply(b, from, to, a);
    case TokenMint(to, a) =>
      if Mint(b, to, a).Some? {
        SumByUpdate<Address, Funds>(b, Identity, to, BalanceOf(b, to) + a);
      }
    case _ =>
  }

  /** No call of either contract makes or destroys tokens, failed ones included. */
  lemma {:induction false} SupplyConserved(w0: World, txs: seq<Tx>)
    requires ValidConfig(w0.fd)
    ensures Supply(Run(w0, txs).vault.bal) == Supply(w0.vault.bal) + Minted(w0, txs)
  {
    if txs != [] {
      SupplyConserved(w0, txs[..|txs| - 1]);
      StepKeepsSupply(Run(w0, txs[..|txs| - 1]), txs[|txs| - 1]);
    }
  }

  // ---- Overflow ----

  lemma {:induction false} BoundedSetCount(s: set<int>, n: nat)
    requires forall x :: x in s ==> 0 <= x < n
    ensures |s| <= n
  {
    if n > 0 {
      BoundedSetCount(s - {n - 1}, n - 1);
    } else {
      assert forall x :: x !in s;
      assert s == {};
    }
  }

  lemma BatchCount(fees: map<U64, FeeEntry>)
    ensures |fees| <= U64_MAX + 1
  {
    var keys: set<int> := set id: int | id in fees.Keys;
    assert keys == fees.Keys;
    BoundedSetCount(keys, U64_MAX + 1);
  }

  lemma PayoutsBounded(fees: map<U64, FeeEntry>, relay: Address)
    requires forall id :: id in fees ==> 0 <= fees[id].amount <= U32_MAX && 0 <= fees[id].treasuryShare <= MAX_SHARE
    ensures -(U64_MAX + 1) * MAX_SHARE <= SumBy(fees, PayoutTo(relay)) <= (U64_MAX + 1) * U32_MAX
  {
    SumByBounds(fees, PayoutTo(relay), -MAX_SHARE, U32_MAX);
    BatchCount(fees);
    WidenBounds(SumBy(fees, PayoutTo(relay)), |fees|, U64_MAX + 1, -MAX_SHARE, U32_MAX);
  }

  lemma WidenBounds(x: int, n: nat, most: nat, lo: int, hi: nat)
    requires n * lo <= x <= n * hi && n <= most && lo <= 0
    ensures most * lo <= x <= most * hi
  {
  }

  /** A batch id is used at most once and a fee is below 2^32, so earnings cannot grow out of range. */
  lemma EarningsBounded(fd: State, relay: Address)
    requires DistributorInvariant(fd)
    ensures var r := EarningsOf(fd.earnings, relay);
            && -(U64_MAX + 1) * MAX_SHARE <= r.unclaimed <= (U64_MAX + 1) * U32_MAX
            && -(U64_MAX + 1) * MAX_SHARE <= r.totalEarned < 0x1_0000_0000_0000_0000_0000_0000
            && 0 <= r.totalClaimed && (r.totalClaimed == 0 || r.totalClaimed <= r.totalEarned)
            && (fd.config.Some? && fd.config.value.shareBps <= BASIS ==> 0 <= r.totalClaimed <= r.totalEarned)
  {
    assert RelaySound(fd, relay);
    forall id | id in fd.fees
      ensures 0 <= fd.fees[id].amount <= U32_MAX && 0 <= fd.fees[id].treasuryShare <= MAX_SHARE
    {
      assert EntrySound(fd, id);
    }
    PayoutsBounded(fd.fees, relay);
  }

  /** `Overflow` is an error code neither call can return, for any treasury share `initialize` accepts. */
  lemma {:induction false} DistributorNeverOverflows(w0: World, txs: seq<Tx>, env: Env,
                                                    relay: Address, batchId: U64, batchSize: U32)
    requires Fresh(w0) && AllLegitimate(w0, txs)
    ensures Distribute(Run(w0, txs), env, relay, batchId, batchSize) != Failed(Overflow)
    ensures Claim(Run(w0, txs), env, relay) != Failed(Overflow)
  {
    FreshIsSound(w0);
    RunIsSound(w0, txs);
    var fd := Run(w0, txs).fd;
    EarningsBounded(fd, relay);
    assert RelaySound(fd, relay);
    if fd.config.Some? {
      FeeRange(batchSize, fd.config.value.rateBps, fd.config.value.shareBps);
    }
  }

  /** A treasury share above 10000, which `initialize` accepts, shuts claims off for good: no relay
      can complete one in any run. */
  lemma {:induction false} OversizedShareBlocksClaims(w0: World, txs: seq<Tx>, env: Env, relay: Address)
    requires Fresh(w0) && AllLegitimate(w0, txs)
    requires Run(w0, txs).fd.config.Some? && Run(w0, txs).fd.config.value.shareBps > BASIS
    ensures !Claim(Run(w0, txs), env, relay).Done?
  {
    FreshIsSound(w0);
    RunIsSound(w0, txs);
    assert RelaySound(Run(w0, txs).fd, relay);
  }

  // ---- Earnings and enabling ----

  /** For every relay, in every run: the record equals the log, and the log is never rewritten. */
  lemma {:induction false} EarningsMatchLog(w0: World, txs: seq<Tx>, more: seq<Tx>, relay: Address)
    requires Fresh(w0) && AllLegitimate(w0, txs) && AllLegitimate(w0, more)
    ensures var w := Run(w0, txs);
            var r := EarningsOf(w.fd.earnings, relay);
            && r.totalEarned == SumBy(w.fd.fees, PayoutTo(relay)) == r.totalClaimed + r.unclaimed
            && (forall id :: id in w.fd.fees ==>
                  id in Run(w, more).fd.fees && Run(w, more).fd.fees[id] == w.fd.fees[id])
  {
    FreshIsSound(w0);
    RunIsSound(w0, txs);
    RunIsSound(Run(w0, txs), more);
    assert RelaySound(Run(w0, txs).fd, relay);
  }

  /** When `distribute` completes. A batch whose share is positive needs twice the share on hand. */
  lemma {:induction false} DistributeExactly(w: World, env: Env, relay: Address, batchId: U64, batchSize: U32)
    requires Sound(w)
    ensures Distribute(w, env, relay, batchId, batchSize).Done? <==>
            && batchId !in w.fd.fees && batchSize > 0 && w.fd.config.Some?
            && var share := ShareOf(FeeOf(batchSize, w.fd.config.value.rateBps), w.fd.config.value.shareBps);
               share > 0 ==>
                 && 2 * share <= BalanceOf(w.vault.bal, w.fd.self)
                 && BalanceOf(w.vault.bal, w.vault.tr.self) + 2 * share <= I128_MAX
                 && w.vault.tr.stats.lifetimeDeposited + share <= I128_MAX
                 && w.vault.tr.council.Some? && w.vault.tr.entryCount < U64_MAX
  {
    if batchSize > 0 && w.fd.config.Some? {
      var c := w.fd.config.value;
      FeeRange(batchSize, c.rateBps, c.shareBps);
      EarningsBounded(w.fd, relay);
      assert RelaySound(w.fd, relay);
      var share := ShareOf(FeeOf(batchSize, c.rateBps), c.shareBps);
      if Transfer(w.vault.bal, w.fd.self, w.vault.tr.self, share).Some? {
        TransferConserves(w.vault.bal, w.fd.self, w.vault.tr.self, share);
      }
      StatsAddUp(w.vault.tr);
    }
  }

  // ---- The treasury inside the system ----

  /** In every run the treasury's stores are the replay of its log, and what the log says now
      it says in every continuation; a program once deactivated never spends again. */
  lemma {:induction false} TreasuryReplays(w0: World, txs: seq<Tx>, more: seq<Tx>)
    requires Fresh(w0) && AllLegitimate(w0, txs) && AllLegitimate(w0, more)
    ensures var tr := Run(w0, txs).vault.tr;
            && LogInvariant(tr) && ProgramInvariant(tr)
            && tr.stats.lifetimeDeposited == tr.balance + tr.stats.lifetimeWithdrawn + tr.stats.lifetimeAllocated
            && Continues(tr, Run(Run(w0, txs), more).vault.tr)
            && Replay(Run(Run(w0, txs), more).vault.tr.entries, tr.entryCount) == Replay(tr.entries, tr.entryCount)
  {
    FreshIsSound(w0);
    RunIsSound(w0, txs);
    RunIsSound(Run(w0, txs), more);
    var tr := Run(w0, txs).vault.tr;
    StatsAddUp(tr);
    ReplayFrame(tr.entries, Run(Run(w0, txs), more).vault.tr.entries, tr.entryCount);
  }

  // ---- Who approves ----

  /** The councils stored by the two `initialize` calls approve for good: every completed withdrawal,
      allocation, program change and rate change of a run is signed by the first `threshold` members. */
  lemma {:induction false} CouncilCallsSigned(w: World, txs: seq<Tx>, env: Env, to: Address, id: U64,
                                              name: string, amount: I128, rateBps: U32)
    requires Sound(w) && AllLegitimate(w, txs)
    ensures w.vault.tr.council.Some? ==>
              var v := Run(w, txs).vault;
              Treasury.Withdraw(v, env, to, amount).Done? || Treasury.Allocate(v, env, id, amount).Done?
              || Treasury.CreateProgram(v, env, name, amount).Done?
              || Treasury.UpdateBudget(v, env, id, amount).Done? || Treasury.Deactivate(v, env, id).Done?
              ==> SignedByFirst(w.vault.tr.council.value, env.auths)
    ensures w.fd.config.Some? ==>
              SetFeeRate(Run(w, txs), env, rateBps).Done? ==> SignedByFirst(w.fd.config.value.council, env.auths)
  {
    RunIsSound(w, txs);
    if w.vault.tr.council.Some? {
      ApprovalMeansThreshold(w.vault.tr.council.value, env.auths);
    }
    if w.fd.config.Some? {
      ApprovalMeansThreshold(w.fd.config.value.council, env.auths);
    }
  }
}

/** Concrete runs of distributor and treasury: one batch of one transaction, under three configurations. */
module SettlementRuns {
  import opened Base
  import opened Council
  import opened Token
  import opened Fees
  import opened Settlement
  import opened Funding
  import Treasury

  const TREASURY := Address(0)
  const DISTRIBUTOR := Address(1)
  const COUNCIL := AdminCouncil([Address(2)], 1)
  const RELAY := Address(3)
  const ENV := Env(0, 0, {})

  /** The whole batch is fee, and the treasury's share of it is `shareBps`. */
  function OneBatch(shareBps: U32, relay: Address): seq<Tx> {
    [ Tx(ENV, CallTreasury(Treasury.CallInitialize(COUNCIL))),
      Tx(ENV, CallInitialize(COUNCIL, 10_000, shareBps)),
      Tx(ENV, CallDistribute(relay, 1, 1)) ]
  }

  function Start(held: Funds): World {
    World(Deployed(DISTRIBUTOR), Treasury.Vault(Treasury.Deployed(TREASURY), map[DISTRIBUTOR := held]))
  }

  /** Both contracts set up by the first two calls. */
  function Configured(held: Funds, shareBps: U32): World {
    var w := Start(held);
    World(w.fd.(config := Some(FeeConfig(10_000, shareBps, COUNCIL))),
          w.vault.(tr := w.vault.tr.(council := Some(COUNCIL))))
  }

  lemma SetupRun(held: Funds, shareBps: U32, relay: Address)
    ensures Run(Start(held), OneBatch(shareBps, relay)[..2]) == Configured(held, shareBps)
  {
    var w0, txs := Start(held), OneBatch(shareBps, relay);
    assert txs[..2] == [] + [txs[0]] + [txs[1]];
    RunAppend(w0, [], txs[0]);
    RunAppend(w0, [] + [txs[0]], txs[1]);
  }

  lemma Moves(b: Balances, from: Address, to: Address, amount: I128)
    requires from != to && 0 <= amount <= BalanceOf(b, from) && BalanceOf(b, to) + amount <= I128_MAX
    ensures Transfer(b, from, to, amount).Some?
    ensures var after := Transfer(b, from, to, amount).value;
            BalanceOf(after, from) == BalanceOf(b, from) - amount && BalanceOf(after, to) == BalanceOf(b, to) + amount
  {
    TransferConserves(b, from, to, amount);
  }

  lemma TreasuryPaidTwice(w: World, env: Env, share: U32)
    requires w.fd.self == DISTRIBUTOR && w.vault.tr.self == TREASURY && share > 0
    requires w.vault.tr.council.Some? && w.vault.tr.balance == w.vault.tr.stats.lifetimeDeposited == 0
    requires w.vault.tr.entryCount == 0
    requires BalanceOf(w.vault.bal, DISTRIBUTOR) == 2 * share && BalanceOf(w.vault.bal, TREASURY) == 0
    ensures var v := PayTreasury(w, env, share);
            && v.Some? && v.value.tr.balance == share
            && BalanceOf(v.value.bal, DISTRIBUTOR) == 0 && BalanceOf(v.value.bal, TREASURY) == 2 * share
  {
    Moves(w.vault.bal, DISTRIBUTOR, TREASURY, share);
    Moves(Transfer(w.vault.bal, DISTRIBUTOR, TREASURY, share).value, DISTRIBUTOR, TREASURY, share);
  }

  /** A distributor holding just twice the share pays all of it out, and credits the relay with the
      rest of the fee, whatever its sign. */
  ghost predicate BatchSettled(w: World, share: int, relay: Address) {
    && w.fd.self == DISTRIBUTOR && w.vault.tr.self == TREASURY
    && BalanceOf(w.vault.bal, DISTRIBUTOR) == 0 && BalanceOf(w.vault.bal, TREASURY) == 2 * share
    && w.vault.tr.balance == share && 1 in w.fd.fees && w.fd.fees[1].treasuryShare == share
    && EarningsOf(w.fd.earnings, relay) == Earnings(1 - share, 0, 1 - share)
  }

  lemma BatchSettles(shareBps: U32, relay: Address)
    ensures var share := shareBps / BASIS;
            var o := Distribute(Configured(2 * share, shareBps), ENV, relay, 1, 1);
            o.Done? && BatchSettled(o.world, share, relay)
  {
    var share := shareBps / BASIS;
    assert FeeOf(1, 10_000) == 1 && ShareOf(1, shareBps) == share;
    if share > 0 {
      TreasuryPaidTwice(Configured(2 * share, shareBps), ENV, share);
    }
  }

  lemma OneBatchRun(shareBps: U32, relay: Address)
    ensures var w0, txs := Start(2 * (shareBps / BASIS)), OneBatch(shareBps, relay);
            && Fresh(w0) && AllLegitimate(w0, txs)
            && BatchSettled(Run(w0, txs), shareBps / BASIS, relay)
  {
    var w0, txs := Start(2 * (shareBps / BASIS)), OneBatch(shareBps, relay);
    SetupRun(2 * (shareBps / BASIS), shareBps, relay);
    BatchSettles(shareBps, relay);
    assert txs == txs[..2] + [txs[2]];
    RunAppend(w0, txs[..2], txs[2]);
  }

  /** Everything to the treasury: a distributor given 2 ends with nothing, and the treasury holds 2
      and records 1. */
  lemma ShareMovesTwice()
    ensures var w0, txs := Start(2), OneBatch(10_000, RELAY);
            && Fresh(w0) && AllLegitimate(w0, txs)
            && var w := Run(w0, txs);
               && BalanceOf(w.vault.bal, DISTRIBUTOR) == 0 && BalanceOf(w.vault.bal, TREASURY) == 2
               && w.vault.tr.balance == 1 && !SharesMovedOnce(w0, txs)
  {
    OneBatchRun(10_000, RELAY);
    SharesMovedOnceIff(Start(2), OneBatch(10_000, RELAY));
  }

  /** Twice the fee to the treasury, which `initialize` accepts: the relay is left with -1 to claim,
      and its signed claim panics. */
  lemma OversizedShareGoesNegative(env: Env)
    requires RELAY in env.auths
    ensures var w0, txs := Start(4), OneBatch(20_000, RELAY);
            && Fresh(w0) && AllLegitimate(w0, txs)
            && EarningsOf(Run(w0, txs).fd.earnings, RELAY).unclaimed == -1
            && Claim(Run(w0, txs), env, RELAY) == Aborted
  {
    OneBatchRun(20_000, RELAY);
  }

  /** Anyone may name the distributor itself as the relay; `ContractsNeverClaim` says that what it is
      credited with is never paid out. */
  lemma DistributorCredited()
    ensures var w0, txs := Start(0), OneBatch(0, DISTRIBUTOR);
            && Fresh(w0) && AllLegitimate(w0, txs)
            && EarningsOf(Run(w0, txs).fd.earnings, DISTRIBUTOR).unclaimed == 1
  {
    OneBatchRun(0, DISTRIBUTOR);
  }
}

/** The fee distributor contract, calling the token and the treasury. */
module DistributorContract {
  import opened Base
  import opened Council
  import opened Token
  import opened Fees
  import opened Settlement
  import Treasury
  import opened TreasuryContract

  class FeeDistributor {
    const self: Address
    const token: TokenContract
    const treasury: TreasuryVault
    var config: Option<FeeConfig>
    var earnings: map<Address, Earnings>
    var fees: map<U64, FeeEntry>

    function Store(): State
      reads this
    {
      State(self, config, earnings, fees)
    }

    ghost function View(): World
      reads this, treasury, token
    {
      World(Store(), Treasury.Vault(treasury.Store(), token.balances))
    }

    /** Both contracts are set up with one token, and every stored fee rate was checked. */
    ghost predicate Valid()
      reads this
    {
      treasury.token == token && ValidConfig(Store())
    }

    constructor(self: Address, token: TokenContract, treasury: TreasuryVault)
      requires treasury.token == token
      ensures Valid() && this.token == token && this.treasury == treasury
      ensures View() == World(Deployed(self), treasury.View())
    {
      this.self, this.token, this.treasury := self, token, treasury;
      config, earnings, fees := None, map[], map[];
    }

    method Restore(s: State)
      requires s.self == self
      modifies this
      ensures Store() == s
    {
      config, earnings, fees := s.config, s.earnings, s.fees;
    }

    method InitializeContract(c: AdminCouncil, rateBps: U32, shareBps: U32) returns (r: Reply<(), Error>)
      requires Valid()
      modifies this
      ensures Valid()
      ensures var o := Initialize(old(View()), c, rateBps, shareBps);
              r == ReplyOf(o) && View() == WorldAfter(old(View()), o)
    {
      if config.Some? {
        return Err(AlreadyInitialized);
      }
      if rateBps == 0 || rateBps > BASIS {
        return Err(InvalidFeeRate);
      }
      if c.threshold == 0 || |c.members| < c.threshold {
        return Err(InvalidCouncilConfig);
      }
      config := Some(FeeConfig(rateBps, shareBps, c));
      return Ok(());
    }

    method DistributeFee(env: Env, relay: Address, batchId: U64, batchSize: U32) returns (r: Reply<(), Error>)
      requires Valid()
      modifies this, treasury, token
      ensures Valid()
      ensures var o := Distribute(old(View()), env, relay, batchId, batchSize);
              r == ReplyOf(o) && View() == WorldAfter(old(View()), o)
    {
      var before := Store();
      if batchId in fees {
        return Err(BatchAlreadyDistributed);
      }
      var calculated := CalculateFee(config, batchSize);
      if calculated.Err? {
        return Err(calculated.error);
      }
      if calculated.Panic? {
        return Panic;
      }
      var fee := calculated.value;
      var c := config.value;
      assert fee == FeeOf(batchSize, c.rateBps) <= U32_MAX by {
        FeeRange(batchSize, c.rateBps, c.shareBps);
      }
      var split := SplitFee(fee, c.shareBps);
      if split.None? {
        return Err(Overflow);
      }
      var share := split.value.share;
      var payout := split.value.payout;

      var record := EarningsOf(earnings, relay);
      var earned := CheckedAdd(record.totalEarned, payout);
      if earned.None? {
        return Err(Overflow);
      }
      record := record.(totalEarned := earned.value);
      var unclaimed := CheckedAdd(record.unclaimed, payout);
      if unclaimed.None? {
        return Err(Overflow);
      }
      record := record.(unclaimed := unclaimed.value);
      earnings := earnings[relay := record];
      fees := fees[batchId := FeeEntry(batchId, relay, fee, share, env.timestamp)];

      if share > 0 {
        var sent := SendShare(env, share);
        if !sent {
          Restore(before);
          return Panic;
        }
      }
      return Ok(());
    }

    /** Both transfers of a share, or neither: a failing cross-contract call undoes the first one. */
    method SendShare(env: Env, share: I128) returns (sent: bool)
      requires Valid()
      modifies treasury, token
      ensures sent <==> PayTreasury(old(View()), env, share).Some?
      ensures View() == if sent then World(old(Store()), PayTreasury(old(View()), env, share).value) else old(View())
    {
      var before := token.balances;
      var moved := token.TransferTokens(self, treasury.self, share);
      if !moved {
        return false;
      }
      var deposited := treasury.DepositTokens(env.(auths := env.auths + {self}), self, share);
      if deposited != Ok(()) {
        token.balances := before;
        return false;
      }
      return true;
    }

    method ClaimEarnings(env: Env, relay: Address) returns (r: Reply<I128, Error>)
      requires Valid()
      modifies this, token
      ensures Valid()
      ensures var o := Claim(old(View()), env, relay);
              r == ReplyOf(o) && View() == WorldAfter(old(View()), o)
    {
      if relay !in env.auths {
        return Panic;
      }
      var record := EarningsOf(earnings, relay);
      if record.unclaimed == 0 {
        return Err(NothingToClaim);
      }
      var payout := record.unclaimed;
      var claimed := CheckedAdd(record.totalClaimed, payout);
      if claimed.None? {
        return Err(Overflow);
      }
      record := record.(totalClaimed := claimed.value);
      record := record.(unclaimed := 0);
      var before := Store();
      earnings := earnings[relay := record];
      var moved := token.TransferTokens(self, relay, payout);
      if !moved {
        Restore(before);
        return Panic;
      }
      return Ok(payout);
    }

    method ChangeFeeRate(env: Env, rateBps: U32) returns (r: Reply<(), Error>)
      requires Valid()
      modifies this
      ensures Valid()
      ensures var o := SetFeeRate(old(View()), env, rateBps);
              r == ReplyOf(o) && View() == WorldAfter(old(View()), o)
    {
      if config.None? {
        return Panic;
      }
      var c := config.value;
      var verdict, _ := RequireCouncilAuth(c.council, env.auths);
      if verdict != Approved {
        return Panic;
      }
      if rateBps == 0 || rateBps > BASIS {
        return Err(InvalidFeeRate);
      }
      c := c.(rateBps := rateBps);
      config := Some(c);
      return Ok(());
    }
  }
}

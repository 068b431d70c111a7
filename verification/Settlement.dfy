/** The fee distributor as a value, and the three-party system it forms with the treasury and the token. */
module Settlement {
  import opened Base
  import opened Council
  import opened Token
  import opened Fees
  import Treasury

  datatype FeeConfig = FeeConfig(rateBps: U32, shareBps: U32, council: AdminCouncil)

  datatype FeeEntry = FeeEntry(batchId: U64, relay: Address, amount: I128, treasuryShare: I128, settledAt: U64)

  datatype Earnings = Earnings(totalEarned: I128, totalClaimed: I128, unclaimed: I128)

  datatype Error =
    | BatchAlreadyDistributed | NothingToClaim | InvalidFeeRate | InvalidBatchSize | Overflow
    | AlreadyInitialized | InvalidCouncilConfig

  datatype State = State(self: Address, config: Option<FeeConfig>,
                         earnings: map<Address, Earnings>, fees: map<U64, FeeEntry>)

  datatype World = World(fd: State, vault: Treasury.Vault)

  type Effect<R> = Outcome<World, R, Error>

  function Deployed(self: Address): State {
    State(self, None, map[], map[])
  }

  /** Zeroed for a relay with no history. */
  function EarningsOf(earnings: map<Address, Earnings>, relay: Address): Earnings {
    if relay in earnings then earnings[relay] else Earnings(0, 0, 0)
  }

  ghost predicate ValidConfig(fd: State) {
    fd.config.Some? ==> 1 <= fd.config.value.rateBps <= BASIS && Accepted(fd.config.value.council)
  }

  // ---- The public calls ----

  function Initialize(w: World, council: AdminCouncil, rateBps: U32, shareBps: U32): Effect<()> {
    if w.fd.config.Some? then Failed(AlreadyInitialized)
    else if rateBps == 0 || rateBps > BASIS then Failed(InvalidFeeRate)
    else if !Accepted(council) then Failed(InvalidCouncilConfig)
    else Done(w.(fd := w.fd.(config := Some(FeeConfig(rateBps, shareBps, council)))), ())
  }

  /** `calculate_fee`: the largest whole fee not above the exact one. Its overflow arms are dead. */
  function CalculateFee(config: Option<FeeConfig>, batchSize: U32): (r: Reply<I128, Error>)
    requires config.Some? ==> config.value.rateBps <= BASIS
    ensures r == Err(InvalidBatchSize) <==> batchSize == 0
    ensures r == Panic <==> batchSize != 0 && config.None?
    ensures r.Ok? <==> batchSize != 0 && config.Some?
    ensures r.Ok? ==> BASIS * r.value <= batchSize * config.value.rateBps < BASIS * (r.value + 1)
  {
    if batchSize == 0 then Err(InvalidBatchSize)
    else if config.None? then Panic
    else
      FeeRange(batchSize, config.value.rateBps, 0);
      var total := CheckedMul(batchSize, config.value.rateBps);
      if total.None? then Err(Overflow)
      else
        var fee := CheckedDiv(total.value, BASIS);
        if fee.None? then Err(Overflow) else Ok(fee.value)
  }

  /** The relay is credited, the entry written once, and a positive share moves twice: by the
      transfer here and again inside the treasury's `deposit`. Any failure of that call is a panic. */
  function Distribute(w: World, env: Env, relay: Address, batchId: U64, batchSize: U32): Effect<()>
    requires w.fd.config.Some? ==> w.fd.config.value.rateBps <= BASIS
  {
    if batchId in w.fd.fees then Failed(BatchAlreadyDistributed)
    else if batchSize == 0 then Failed(InvalidBatchSize)
    else if w.fd.config.None? then Aborted
    else
      var c := w.fd.config.value;
      FeeRange(batchSize, c.rateBps, c.shareBps);
      var fee: I128 := FeeOf(batchSize, c.rateBps);
      var share: I128 := ShareOf(fee, c.shareBps);
      var old' := EarningsOf(w.fd.earnings, relay);
      if !FitsI128(old'.totalEarned + fee - share) || !FitsI128(old'.unclaimed + fee - share) then Failed(Overflow)
      else
        var credited := old'.(totalEarned := old'.totalEarned + fee - share, unclaimed := old'.unclaimed + fee - share);
        var fd := w.fd.(earnings := w.fd.earnings[relay := credited],
                        fees := w.fd.fees[batchId := FeeEntry(batchId, relay, fee, share, env.timestamp)]);
        if share == 0 then Done(World(fd, w.vault), ())
        else
          var v := PayTreasury(w, env, share);
          if v.Some? then Done(World(fd, v.value), ()) else Aborted
  }

  function PayTreasury(w: World, env: Env, share: I128): Option<Treasury.Vault> {
    match Transfer(w.vault.bal, w.fd.self, w.vault.tr.self, share)
    case None => None
    case Some(paid) =>
      var nested := env.(auths := env.auths + {w.fd.self});
      var o := Treasury.MakeDeposit(Treasury.Vault(w.vault.tr, paid), nested, w.fd.self, share);
      if o.Done? then Some(o.world) else None
  }

  function Claim(w: World, env: Env, relay: Address): Effect<I128> {
    if relay !in env.auths then Aborted
    else
      var record := EarningsOf(w.fd.earnings, relay);
      if record.unclaimed == 0 then Failed(NothingToClaim)
      else if !FitsI128(record.totalClaimed + record.unclaimed) then Failed(Overflow)
      else match Transfer(w.vault.bal, w.fd.self, relay, record.unclaimed)
        case None => Aborted
        case Some(paid) =>
          var settled := record.(totalClaimed := record.totalClaimed + record.unclaimed, unclaimed := 0);
          Done(World(w.fd.(earnings := w.fd.earnings[relay := settled]), w.vault.(bal := paid)), record.unclaimed)
  }

  ghost function SetFeeRate(w: World, env: Env, rateBps: U32): Effect<()> {
    if w.fd.config.None? || !Approves(w.fd.config.value.council, env.auths) then Aborted
    else if rateBps == 0 || rateBps > BASIS then Failed(InvalidFeeRate)
    else Done(w.(fd := w.fd.(config := Some(w.fd.config.value.(rateBps := rateBps)))), ())
  }

  // ---- Runs of the whole system ----

  datatype Call =
    | CallInitialize(council: AdminCouncil, rateBps: U32, shareBps: U32)
    | CallDistribute(relay: Address, batchId: U64, batchSize: U32)
    | CallClaim(relay: Address)
    | CallSetFeeRate(rateBps: U32)
    | CallTreasury(call: Treasury.Call)
    | TokenTransfer(from: Address, to: Address, amount: I128)
    | TokenMint(to: Address, amount: I128)

  datatype Tx = Tx(env: Env, call: Call)

  ghost function Moved(w: World, b: Option<Balances>): World {
    if b.Some? then w.(vault := w.vault.(bal := b.value)) else w
  }

  ghost function Apply(w: World, tx: Tx): World
    requires ValidConfig(w.fd)
    ensures ValidConfig(Apply(w, tx).fd)
  {
    match tx.call
    case CallInitialize(c, r, s) => WorldAfter(w, Initialize(w, c, r, s))
    case CallDistribute(relay, id, size) => WorldAfter(w, Distribute(w, tx.env, relay, id, size))
    case CallClaim(relay) => WorldAfter(w, Claim(w, tx.env, relay))
    case CallSetFeeRate(r) => WorldAfter(w, SetFeeRate(w, tx.env, r))
    case CallTreasury(call) => w.(vault := Treasury.Apply(w.vault, tx.env, call))
    case TokenTransfer(from, to, a) => Moved(w, Transfer(w.vault.bal, from, to, a))
    case TokenMint(to, a) => Moved(w, Mint(w.vault.bal, to, a))
  }

  ghost function Run(w: World, txs: seq<Tx>): World
    requires ValidConfig(w.fd)
    ensures ValidConfig(Run(w, txs).fd)
  {
    if txs == [] then w else Apply(Run(w, txs[..|txs| - 1]), txs[|txs| - 1])
  }

  lemma RunAppend(w: World, txs: seq<Tx>, tx: Tx)
    requires ValidConfig(w.fd)
    ensures Run(w, txs + [tx]) == Apply(Run(w, txs), tx)
  {
    assert (txs + [tx])[..|txs|] == txs;
  }

  /** Tokens that reach an address by a plain transfer or a mint, outside every contract. */
  ghost function SentBy(w: World, tx: Tx, a: Address): int {
    match tx.call
    case TokenTransfer(from, to, amount) =>
      if to == a && Transfer(w.vault.bal, from, to, amount).Some? then amount else 0
    case TokenMint(to, amount) => if to == a && Mint(w.vault.bal, to, amount).Some? then amount else 0
    case _ => 0
  }

  ghost function Sent(w: World, txs: seq<Tx>, a: Address): int
    requires ValidConfig(w.fd)
  {
    if txs == [] then 0
    else Sent(w, txs[..|txs| - 1], a) + SentBy(Run(w, txs[..|txs| - 1]), txs[|txs| - 1], a)
  }

  /** Neither contract has an account to sign a transaction with, nor is spent from outside. */
  predicate Legitimate(w: World, tx: Tx) {
    && w.fd.self !in tx.env.auths && w.vault.tr.self !in tx.env.auths
    && (tx.call.TokenTransfer? ==> tx.call.from != w.fd.self && tx.call.from != w.vault.tr.self)
  }

  ghost predicate AllLegitimate(w: World, txs: seq<Tx>) {
    forall i :: 0 <= i < |txs| ==> Legitimate(w, txs[i])
  }

  /** Both contracts freshly deployed at two addresses, neither initialised; any balances. */
  ghost predicate Fresh(w: World) {
    && w.fd == Deployed(w.fd.self) && w.vault.tr == Treasury.Deployed(w.vault.tr.self)
    && w.fd.self != w.vault.tr.self
  }
}

/** Distributor and treasury against their transactions: records, entries, programs and configuration
    are what completed calls said, at the configuration and the time they met. */
module SettlementHistory {
  import opened Base
  import opened Council
  import opened Token
  import opened Fees
  import opened Settlement
  import opened SettlementSafety
  import opened SettlementCalls
  import Treasury
  import TreasuryCalls

  // ---- What relays earned and drew ----

  predicate Batches(w: World, tx: Tx)
    requires ValidConfig(w.fd)
  {
    tx.call.CallDistribute? && Distribute(w, tx.env, tx.call.relay, tx.call.batchId, tx.call.batchSize).Done?
  }

  /** A completed batch earns its relay the fee of its size less the treasury's share of that fee, at
      the configuration then in force. */
  function Earns(w: World, tx: Tx, relay: Address): int
    requires ValidConfig(w.fd)
  {
    if Batches(w, tx) && tx.call.relay == relay then PayoutOf(w.fd.config.value, tx.call.batchSize) else 0
  }

  /** The tokens a completed claim brings its relay. */
  ghost function Draws(w: World, tx: Tx, relay: Address): int
    requires ValidConfig(w.fd)
  {
    if tx.call == CallClaim(relay) && Claim(w, tx.env, relay).Done?
    then BalanceOf(Apply(w, tx).vault.bal, relay) - BalanceOf(w.vault.bal, relay)
    else 0
  }

  ghost function EarnedBy(w0: World, txs: seq<Tx>, relay: Address): int
    requires ValidConfig(w0.fd)
  {
    if txs == [] then 0
    else EarnedBy(w0, txs[..|txs| - 1], relay) + Earns(Run(w0, txs[..|txs| - 1]), txs[|txs| - 1], relay)
  }

  ghost function DrawnBy(w0: World, txs: seq<Tx>, relay: Address): int
    requires ValidConfig(w0.fd)
  {
    if txs == [] then 0
    else DrawnBy(w0, txs[..|txs| - 1], relay) + Draws(Run(w0, txs[..|txs| - 1]), txs[|txs| - 1], relay)
  }

  lemma RecordStep(w: World, tx: Tx, relay: Address)
    requires Sound(w) && Legitimate(w, tx)
    ensures var before, after := EarningsOf(w.fd.earnings, relay), EarningsOf(Apply(w, tx).fd.earnings, relay);
            && after.totalEarned == before.totalEarned + Earns(w, tx, relay)
            && after.totalClaimed == before.totalClaimed + Draws(w, tx, relay)
  {
    match tx.call
    case CallDistribute(r, id, size) =>
      if Distribute(w, tx.env, r, id, size).Done? {
        DistributeCredits(w, tx.env, r, id, size);
      }
    case CallClaim(r) => ClaimExactly(w, tx.env, r);
    case _ =>
  }

  /** A relay's record is the sum of what its completed batches earned and of the tokens its completed
      claims brought it, and the rest is unclaimed. */
  lemma {:induction false} RecordIsHistory(w0: World, txs: seq<Tx>, relay: Address)
    requires Fresh(w0) && AllLegitimate(w0, txs)
    ensures var r := EarningsOf(Run(w0, txs).fd.earnings, relay);
            && r.totalEarned == EarnedBy(w0, txs, relay) && r.totalClaimed == DrawnBy(w0, txs, relay)
            && r.unclaimed == EarnedBy(w0, txs, relay) - DrawnBy(w0, txs, relay)
  {
    FreshIsSound(w0);
    RunIsSound(w0, txs);
    assert RelaySound(Run(w0, txs).fd, relay);
    if txs != [] {
      RunIsSound(w0, txs[..|txs| - 1]);
      RecordIsHistory(w0, txs[..|txs| - 1], relay);
      RecordStep(Run(w0, txs[..|txs| - 1]), txs[|txs| - 1], relay);
    }
  }

  // ---- The fee entries ----

  ghost function EntryIn(w0: World, txs: seq<Tx>, id: U64): Option<FeeEntry>
    requires ValidConfig(w0.fd)
  {
    if txs == [] then None else
      var w, tx := Run(w0, txs[..|txs| - 1]), txs[|txs| - 1];
      if Batches(w, tx) && tx.call.batchId == id then
        FeeRange(tx.call.batchSize, w.fd.config.value.rateBps, w.fd.config.value.shareBps);
        var fee := FeeOf(tx.call.batchSize, w.fd.config.value.rateBps);
        Some(FeeEntry(id, tx.call.relay, fee, ShareOf(fee, w.fd.config.value.shareBps), tx.env.timestamp))
      else EntryIn(w0, txs[..|txs| - 1], id)
  }

  lemma EntryStep(w: World, tx: Tx, id: U64)
    requires ValidConfig(w.fd) && !(Batches(w, tx) && tx.call.batchId == id)
    ensures id in Apply(w, tx).fd.fees <==> id in w.fd.fees
    ensures id in w.fd.fees ==> Apply(w, tx).fd.fees[id] == w.fd.fees[id]
  {
  }

  /** The entries are those of the completed batches, one for each. */
  lemma {:induction false} EntryIsHistory(w0: World, txs: seq<Tx>, id: U64)
    requires Fresh(w0)
    ensures var fees := Run(w0, txs).fd.fees;
            EntryIn(w0, txs, id) == if id in fees then Some(fees[id]) else None
  {
    if txs != [] {
      var w, tx := Run(w0, txs[..|txs| - 1]), txs[|txs| - 1];
      EntryIsHistory(w0, txs[..|txs| - 1], id);
      if Batches(w, tx) && tx.call.batchId == id {
        DistributeCredits(w, tx.env, tx.call.relay, id, tx.call.batchSize);
      } else {
        EntryStep(w, tx, id);
      }
    }
  }

  // ---- The configuration ----

  /** The terms of the completed `initialize`, with the rate of the last completed `set_fee_rate`. */
  ghost function ConfigIn(w0: World, txs: seq<Tx>): Option<FeeConfig>
    requires ValidConfig(w0.fd)
  {
    if txs == [] then w0.fd.config else
      var w, tx := Run(w0, txs[..|txs| - 1]), txs[|txs| - 1];
      var prior := ConfigIn(w0, txs[..|txs| - 1]);
      match tx.call
      case CallInitialize(c, r, s) => if Initialize(w, c, r, s).Done? then Some(FeeConfig(r, s, c)) else prior
      case CallSetFeeRate(r) =>
        if prior.Some? && SetFeeRate(w, tx.env, r).Done? then Some(prior.value.(rateBps := r)) else prior
      case _ => prior
  }

  lemma ConfigStep(w: World, tx: Tx)
    requires ValidConfig(w.fd) && !tx.call.CallInitialize? && !tx.call.CallSetFeeRate?
    ensures Apply(w, tx).fd.config == w.fd.config
  {
  }

  lemma {:induction false} ConfigIsHistory(w0: World, txs: seq<Tx>)
    requires ValidConfig(w0.fd)
    ensures Run(w0, txs).fd.config == ConfigIn(w0, txs)
  {
    if txs != [] {
      var w, tx := Run(w0, txs[..|txs| - 1]), txs[|txs| - 1];
      ConfigIsHistory(w0, txs[..|txs| - 1]);
      match tx.call
      case CallInitialize(c, r, s) => SettlementCalls.InitializeExactly(w, c, r, s);
      case CallSetFeeRate(r) => SetFeeRateExactly(w, tx.env, r);
      case _ => ConfigStep(w, tx);
    }
  }

  /** The distributor after `initialize`: council and share are the given ones for good, and every
      completed change of the rate carries that council's signatures. */
  lemma {:induction false} DistributorAfterInitialize(w0: World, early: seq<Tx>, council: AdminCouncil, rateBps: U32,
                                                     shareBps: U32, txs: seq<Tx>, env: Env, newRate: U32)
    requires Fresh(w0) && AllLegitimate(w0, early) && AllLegitimate(w0, txs)
    ensures var before := Run(w0, early);
            var o := Initialize(before, council, rateBps, shareBps);
            && (o.Done? <==> before.fd.config.None? && 1 <= rateBps <= BASIS && Accepted(council))
            && (o.Done? ==>
                  && o.world.fd.config == Some(FeeConfig(rateBps, shareBps, council))
                  && var later := Run(o.world, txs);
                     && later.fd.config.Some? && later.fd.config == ConfigIn(o.world, txs)
                     && later.fd.config.value.council == council && later.fd.config.value.shareBps == shareBps
                     && (SetFeeRate(later, env, newRate).Done? ==> SignedByFirst(council, env.auths)))
  {
    FreshIsSound(w0);
    RunIsSound(w0, early);
    var before := Run(w0, early);
    var o := Initialize(before, council, rateBps, shareBps);
    if o.Done? {
      ConfigMove(before, env, council, rateBps, shareBps);
      RunIsSound(o.world, txs);
      ConfigIsHistory(o.world, txs);
      ApprovalMeansThreshold(council, env.auths);
    }
  }

  // ---- The treasury's council ----

  /** The treasury after `initialize`: the council is the given one for good, and every completed
      call that needs it carries the signatures of its first `threshold` members. */
  lemma {:induction false} TreasuryAfterInitialize(w0: World, early: seq<Tx>, council: AdminCouncil, txs: seq<Tx>,
                                                   env: Env, to: Address, id: U64, name: string, amount: I128)
    requires Fresh(w0) && AllLegitimate(w0, early) && AllLegitimate(w0, txs)
    ensures var before := Run(w0, early);
            var o := Treasury.Initialize(before.vault, council);
            && (o.Done? <==> before.vault.tr.council.None? && Accepted(council))
            && (o.Done? ==>
                  var v := Run(before.(vault := o.world), txs).vault;
                  && v.tr.council == Some(council)
                  && (Treasury.Withdraw(v, env, to, amount).Done? || Treasury.Allocate(v, env, id, amount).Done?
                      || Treasury.CreateProgram(v, env, name, amount).Done?
                      || Treasury.UpdateBudget(v, env, id, amount).Done? || Treasury.Deactivate(v, env, id).Done?
                      ==> SignedByFirst(council, env.auths)))
  {
    FreshIsSound(w0);
    RunIsSound(w0, early);
    var before := Run(w0, early);
    var o := Treasury.Initialize(before.vault, council);
    TreasuryCalls.InitializeExactly(before.vault, council);
    if o.Done? {
      SetupMove(before, council);
      var w := before.(vault := o.world);
      RunIsSound(w, txs);
      CouncilCallsSigned(w, txs, env, to, id, name, amount, 0);
    }
  }

  // ---- The treasury's log ----

  /** What a transaction adds to the treasury's log: a batch adds its share as a deposit. */
  ghost function Written(w: World, tx: Tx): seq<Treasury.Entry>
    requires ValidConfig(w.fd)
  {
    var t := w.vault.tr.self;
    match tx.call
    case CallDistribute(_, _, size) =>
      if !Batches(w, tx) then [] else
        FeeRange(size, w.fd.config.value.rateBps, w.fd.config.value.shareBps);
        var share := ShareOf(FeeOf(size, w.fd.config.value.rateBps), w.fd.config.value.shareBps);
        if share == 0 then []
        else [Treasury.Entry(Treasury.Deposit, share, w.fd.self, None, tx.env.sequence)]
    case CallTreasury(CallDeposit(from, a)) =>
      if !Treasury.MakeDeposit(w.vault, tx.env, from, a).Done? then []
      else [Treasury.Entry(Treasury.Deposit, a, from, None, tx.env.sequence)]
    case CallTreasury(CallWithdraw(to, a)) =>
      if !Treasury.Withdraw(w.vault, tx.env, to, a).Done? then []
      else [Treasury.Entry(Treasury.Withdrawal, a, t, Some(to), tx.env.sequence)]
    case CallTreasury(CallAllocate(id, a)) =>
      if !Treasury.Allocate(w.vault, tx.env, id, a).Done? then []
      else [Treasury.Entry(Treasury.Allocation, a, t, None, tx.env.sequence)]
    case _ => []
  }

  ghost function LogIn(w0: World, txs: seq<Tx>): seq<Treasury.Entry>
    requires ValidConfig(w0.fd)
  {
    if txs == [] then []
    else LogIn(w0, txs[..|txs| - 1]) + Written(Run(w0, txs[..|txs| - 1]), txs[|txs| - 1])
  }

  ghost predicate LogStored(tr: Treasury.State, log: seq<Treasury.Entry>) {
    && tr.entryCount == |log|
    && forall id: int :: 1 <= id <= |log| ==> id in tr.entries && tr.entries[id] == log[id - 1]
  }

  ghost predicate Extends(tr: Treasury.State, next: Treasury.State, added: seq<Treasury.Entry>) {
    || (added == [] && next.entries == tr.entries && next.entryCount == tr.entryCount)
    || (|added| == 1 && next.entryCount == tr.entryCount + 1
        && next.entries == tr.entries[next.entryCount := added[0]])
  }

  lemma BatchWrites(w: World, tx: Tx)
    requires ValidConfig(w.fd) && tx.call.CallDistribute?
    ensures Extends(w.vault.tr, Apply(w, tx).vault.tr, Written(w, tx))
  {
  }

  lemma StepWrites(w: World, tx: Tx)
    requires ValidConfig(w.fd)
    ensures Extends(w.vault.tr, Apply(w, tx).vault.tr, Written(w, tx))
  {
    if tx.call.CallDistribute? {
      BatchWrites(w, tx);
    }
  }

  lemma StoredOn(tr: Treasury.State, next: Treasury.State, log: seq<Treasury.Entry>, added: seq<Treasury.Entry>)
    requires LogStored(tr, log) && Extends(tr, next, added)
    ensures LogStored(next, log + added)
  {
    forall id: int | 1 <= id <= |log + added|
      ensures id in next.entries && next.entries[id] == (log + added)[id - 1]
    {
      assert id <= |log| ==> (log + added)[id - 1] == log[id - 1];
    }
  }

  /** The treasury's log is, entry by entry, what completed calls did: kind, amount, payer or
      recipient, and ledger sequence. */
  lemma {:induction false} LogIsHistory(w0: World, txs: seq<Tx>)
    requires Fresh(w0)
    ensures LogStored(Run(w0, txs).vault.tr, LogIn(w0, txs))
  {
    if txs != [] {
      var w, tx := Run(w0, txs[..|txs| - 1]), txs[|txs| - 1];
      LogIsHistory(w0, txs[..|txs| - 1]);
      StepWrites(w, tx);
      StoredOn(w.vault.tr, Apply(w, tx).vault.tr, LogIn(w0, txs[..|txs| - 1]), Written(w, tx));
    }
  }

  // ---- The programs ----

  ghost predicate Creates(w: World, tx: Tx) {
    match tx.call
    case CallTreasury(CallCreateProgram(name, budget)) =>
      Treasury.CreateProgram(w.vault, tx.env, name, budget).Done?
    case _ => false
  }

  ghost function CreatedIn(w0: World, txs: seq<Tx>): nat
    requires ValidConfig(w0.fd)
  {
    if txs == [] then 0
    else CreatedIn(w0, txs[..|txs| - 1]) + if Creates(Run(w0, txs[..|txs| - 1]), txs[|txs| - 1]) then 1 else 0
  }

  /** What a completed call does to one program. */
  ghost function Changed(w: World, tx: Tx, id: U64, p: Treasury.Program): Treasury.Program {
    match tx.call
    case CallTreasury(CallUpdateBudget(i, b)) =>
      if i == id && Treasury.UpdateBudget(w.vault, tx.env, i, b).Done? then p.(budget := b) else p
    case CallTreasury(CallDeactivate(i)) =>
      if i == id && Treasury.Deactivate(w.vault, tx.env, i).Done? then p.(active := false) else p
    case CallTreasury(CallAllocate(i, a)) =>
      if i == id && Treasury.Allocate(w.vault, tx.env, i, a).Done? && FitsI128(p.spent + a)
      then p.(spent := p.spent + a) else p
    case _ => p
  }

  /** The `n`-th completed creation makes program `n`; later calls change it one field at a time. */
  ghost function ProgramIn(w0: World, txs: seq<Tx>, id: U64): Option<Treasury.Program>
    requires ValidConfig(w0.fd)
  {
    if txs == [] then None else
      var w, tx, prior := Run(w0, txs[..|txs| - 1]), txs[|txs| - 1], ProgramIn(w0, txs[..|txs| - 1], id);
      if Creates(w, tx) && id == CreatedIn(w0, txs[..|txs| - 1]) + 1
      then Some(Treasury.Program(id, tx.call.call.budget, 0, true, tx.call.call.name))
      else if prior.Some? then Some(Changed(w, tx, id, prior.value)) else None
  }

  function Stored(tr: Treasury.State, id: U64): Option<Treasury.Program> {
    if id in tr.programs then Some(tr.programs[id]) else None
  }

  lemma CreateStep(w: World, tx: Tx, id: U64)
    requires ValidConfig(w.fd) && Creates(w, tx)
    ensures Apply(w, tx).vault.tr.programCount == w.vault.tr.programCount + 1
    ensures Stored(Apply(w, tx).vault.tr, id) ==
            if id == w.vault.tr.programCount + 1
            then Some(Treasury.Program(id, tx.call.call.budget, 0, true, tx.call.call.name))
            else Stored(w.vault.tr, id)
  {
  }

  lemma ChangeStep(w: World, tx: Tx, id: U64)
    requires ValidConfig(w.fd) && !Creates(w, tx)
    ensures Apply(w, tx).vault.tr.programCount == w.vault.tr.programCount
    ensures var before, after := Stored(w.vault.tr, id), Stored(Apply(w, tx).vault.tr, id);
            after == if before.Some? then Some(Changed(w, tx, id, before.value)) else None
  {
    match tx.call
    case CallDistribute(_, _, _) => BatchKeepsPrograms(w, tx);
    case CallTreasury(CallAllocate(i, a)) =>
      if Treasury.Allocate(w.vault, tx.env, i, a).Done? {
        TreasuryCalls.AllocateSpends(w.vault, tx.env, i, a);
      }
    case _ =>
  }

  lemma BatchKeepsPrograms(w: World, tx: Tx)
    requires ValidConfig(w.fd) && tx.call.CallDistribute?
    ensures Apply(w, tx).vault.tr.programs == w.vault.tr.programs
    ensures Apply(w, tx).vault.tr.programCount == w.vault.tr.programCount
  {
  }

  /** Every program is as its own creation and the later completed calls on it left it. */
  lemma {:induction false} ProgramIsHistory(w0: World, txs: seq<Tx>, id: U64)
    requires Fresh(w0)
    ensures Run(w0, txs).vault.tr.programCount == CreatedIn(w0, txs)
    ensures Stored(Run(w0, txs).vault.tr, id) == ProgramIn(w0, txs, id)
  {
    if txs != [] {
      var w, tx := Run(w0, txs[..|txs| - 1]), txs[|txs| - 1];
      ProgramIsHistory(w0, txs[..|txs| - 1], id);
      if Creates(w, tx) {
        CreateStep(w, tx, id);
      } else {
        ChangeStep(w, tx, id);
      }
    }
  }
}

/** What every run of the relay registry keeps: statuses, conservation and solvency. */
module RegistrySafety {
  import opened Base
  import opened MapSum
  import opened Council
  import opened Token
  import opened Registry

  // ---- Invariants ----

  ghost predicate NodeSound(reg: State, n: Address)
    requires n in reg.nodes
  {
    var node := reg.nodes[n];
    && node.address == n && node.stake >= 0
    && (node.status == Slashed ==> node.stake == 0 && n !in reg.locks)
  }

  /** What holds from deployment on, before and after `initialize`. */
  ghost predicate MoneyInvariant(reg: State) {
    && reg.self !in reg.nodes
    && (forall n :: n in reg.nodes ==> NodeSound(reg, n))
    && (forall n :: n in reg.locks ==> n in reg.nodes && reg.locks[n].address == n && reg.locks[n].amount > 0)
    && (reg.council.Some? ==> Accepted(reg.council.value) && reg.minStake > 0 && reg.lockPeriod > 0)
  }

  ghost predicate NodeCurrent(reg: State, n: Address) {
    n in reg.nodes ==> (reg.nodes[n].status == Active <==> reg.nodes[n].stake >= reg.minStake)
  }

  /** Once initialised, the configuration stands, the count is off by a fixed number, and a status
      that matches its stake goes on matching it. */
  ghost predicate StatusStays(a: State, b: State) {
    a.council.Some? ==>
      && b.council == a.council && b.minStake == a.minStake && b.lockPeriod == a.lockPeriod
      && |b.nodes| - b.nodeCount == |a.nodes| - a.nodeCount
      && forall n :: NodeCurrent(a, n) ==> NodeCurrent(b, n)
  }

  // ---- The log as an account book ----

  /** The entry still pending for a node, read off the log alone. */
  ghost function PendingInLog(log: seq<Event>, n: Address): Option<LockEntry> {
    if log == [] then None else
      var prior := log[..|log| - 1];
      match log[|log| - 1]
      case Unstaked(m, a, u, _) => if m == n then Some(LockEntry(n, a, u)) else PendingInLog(prior, n)
      case Finalized(m, _, _) => if m == n then None else PendingInLog(prior, n)
      case Forfeited(m, _, _) => if m == n then None else PendingInLog(prior, n)
      case _ => PendingInLog(prior, n)
  }

  ghost function AmountInLog(log: seq<Event>, n: Address): int {
    var p := PendingInLog(log, n); if p.Some? then p.value.amount else 0
  }

  datatype Account = Account(staked: int, paid: int, forfeited: int, overwritten: int, received: int)

  ghost predicate Counts(who: Option<Address>, n: Address) {
    who.None? || who.value == n
  }

  /** Totals over the log for one node, or for all of them. An unstake over a pending entry loses
      the amount that entry held. */
  ghost function AccountOf(log: seq<Event>, who: Option<Address>): Account {
    if log == [] then Account(0, 0, 0, 0, 0) else
      var prior := log[..|log| - 1];
      var acc := AccountOf(prior, who);
      match log[|log| - 1]
      case Staked(n, a) => if Counts(who, n) then acc.(staked := acc.staked + a) else acc
      case Unstaked(n, _, _, _) =>
        if Counts(who, n) then acc.(overwritten := acc.overwritten + AmountInLog(prior, n)) else acc
      case Finalized(n, a, _) => if Counts(who, n) then acc.(paid := acc.paid + a) else acc
      case Forfeited(n, a, _) => if Counts(who, n) then acc.(forfeited := acc.forfeited + a) else acc
      case Received(a) => acc.(received := acc.received + a)
      case Configured(_) => acc
  }

  /** The lock period in force after a log: none before `initialize`. */
  ghost function PeriodInLog(log: seq<Event>): int {
    if log == [] then 0
    else if log[|log| - 1].Configured? then log[|log| - 1].lockPeriod
    else PeriodInLog(log[..|log| - 1])
  }

  ghost predicate LocksMatchLog(w: World) {
    forall n :: PendingInLog(w.log, n) == if n in w.reg.locks then Some(w.reg.locks[n]) else None
  }

  /** All a node ever staked is its stake, its pending entry, or accounted for as gone. */
  ghost predicate NodeBalanced(w: World, n: Address) {
    var acc := AccountOf(w.log, Some(n));
    acc.staked == CurrentStake(w.reg.nodes, n) + Pending(w.reg.locks, n)
                  + acc.paid + acc.forfeited + acc.overwritten
  }

  function StakeOf(node: Node): int { node.stake }

  function AmountOf(entry: LockEntry): int { entry.amount }

  ghost function Owed(reg: State): int {
    SumBy(reg.nodes, StakeOf) + SumBy(reg.locks, AmountOf)
  }

  /** `base` is what the registry held before the run. */
  ghost predicate TokensBalanced(w: World, base: int) {
    var acc := AccountOf(w.log, None);
    && BalanceOf(w.bal, w.reg.self) == base + acc.staked - acc.paid + acc.received
    && acc.staked - acc.paid == Owed(w.reg) + acc.forfeited + acc.overwritten
    && acc.forfeited >= 0 && acc.overwritten >= 0 && acc.received >= 0
  }

  // ---- One step ----

  lemma Appended(log: seq<Event>, e: Event)
    ensures (log + [e])[..|log + [e]| - 1] == log
  {
  }

  /** The bookkeeping view of a step that acts on node `n`: at most one event, at most one node and
      one entry changed, and what the event says is what moved. */
  ghost predicate Booked(w: World, next: World, n: Address) {
    var stake, stake' := CurrentStake(w.reg.nodes, n), CurrentStake(next.reg.nodes, n);
    var held, held' := BalanceOf(w.bal, w.reg.self), BalanceOf(next.bal, w.reg.self);
    && next.reg.self == w.reg.self
    && (next.reg.nodes == w.reg.nodes || (n in next.reg.nodes && next.reg.nodes == w.reg.nodes[n := next.reg.nodes[n]]))
    && if next.log == w.log then
         stake' == stake && held' == held && next.reg.locks == w.reg.locks && next.reg.lockPeriod == w.reg.lockPeriod
       else
         && |next.log| == |w.log| + 1 && next.log == w.log + [next.log[|w.log|]]
         && next.reg.lockPeriod == (if next.log[|w.log|].Configured? then next.log[|w.log|].lockPeriod
                                    else w.reg.lockPeriod)
         && match next.log[|w.log|]
            case Configured(_) => stake' == stake && held' == held && next.reg.locks == w.reg.locks
            case Staked(m, a) => m == n && stake' == stake + a && held' == held + a && next.reg.locks == w.reg.locks
            case Unstaked(m, a, u, at) =>
              && m == n && stake' == stake - a && held' == held && a > 0 && u == at + w.reg.lockPeriod
              && next.reg.locks == w.reg.locks[n := LockEntry(n, a, u)]
            case Finalized(m, a, at) =>
              && m == n && stake' == stake && held' == held - a
              && n in w.reg.locks && w.reg.locks[n].amount == a && at >= w.reg.locks[n].unlocksAt
              && next.reg.locks == w.reg.locks - {n}
            case Forfeited(m, a, _) =>
              && m == n && a == stake + Pending(w.reg.locks, n) && a >= 0 && stake' == 0 && held' == held
              && next.reg.locks == w.reg.locks - {n}
            case Received(a) => a >= 0 && stake' == stake && held' == held + a && next.reg.locks == w.reg.locks
  }

  function Actor(call: Call): Address {
    match call
    case CallInitialize(_, _, _) => Address(0)
    case TokenTransfer(_, to, _) => to
    case TokenMint(to, _) => to
    case _ => call.node
  }

  /** One step keeps the invariants, and is booked. */
  ghost predicate GoodStep(w: World, next: World, n: Address) {
    Booked(w, next, n) && MoneyInvariant(next.reg) && StatusStays(w.reg, next.reg)
  }

  lemma RewriteKeepsCount(nodes: map<Address, Node>, n: Address, node: Node)
    ensures |nodes[n := node]| == if n in nodes then |nodes| else |nodes| + 1
  {
  }

  lemma InitializeStep(w: World, c: AdminCouncil, minStake: I128, lockPeriod: U32)
    requires MoneyInvariant(w.reg)
    ensures GoodStep(w, WorldAfter(w, Initialize(w, c, minStake, lockPeriod)), Address(0))
  {
  }

  lemma RegisterStep(w: World, env: Env, n: Address, d: Metadata)
    requires MoneyInvariant(w.reg) && w.reg.self !in env.auths
    ensures GoodStep(w, WorldAfter(w, Register(w, env, n, d)), n)
  {
  }

  lemma MetadataStep(w: World, env: Env, n: Address, d: Metadata)
    requires MoneyInvariant(w.reg)
    ensures GoodStep(w, WorldAfter(w, UpdateMetadata(w, env, n, d)), n)
  {
  }

  lemma StakeStep(w: World, env: Env, n: Address, a: I128)
    requires MoneyInvariant(w.reg) && w.reg.self !in env.auths
    ensures GoodStep(w, WorldAfter(w, Stake(w, env, n, a)), n)
  {
    var o := Stake(w, env, n, a);
    if o.Done? {
      RewriteKeepsCount(w.reg.nodes, n, o.world.reg.nodes[n]);
      TransferConserves(w.bal, n, w.reg.self, a);
    }
  }

  lemma UnstakeBooked(w: World, env: Env, n: Address, a: I128)
    requires MoneyInvariant(w.reg)
    ensures Booked(w, WorldAfter(w, Unstake(w, env, n, a)), n)
  {
  }

  lemma UnstakeStep(w: World, env: Env, n: Address, a: I128)
    requires MoneyInvariant(w.reg)
    ensures GoodStep(w, WorldAfter(w, Unstake(w, env, n, a)), n)
  {
    UnstakeBooked(w, env, n, a);
    var o := Unstake(w, env, n, a);
    if o.Done? {
      RewriteKeepsCount(w.reg.nodes, n, o.world.reg.nodes[n]);
    }
  }

  lemma FinalizeStep(w: World, env: Env, n: Address)
    requires MoneyInvariant(w.reg) && w.reg.self !in env.auths
    ensures GoodStep(w, WorldAfter(w, FinalizeUnstake(w, env, n)), n)
  {
    var o := FinalizeUnstake(w, env, n);
    if o.Done? {
      TransferConserves(w.bal, w.reg.self, n, w.reg.locks[n].amount);
    }
  }

  lemma CouncilStep(w: World, env: Env, n: Address)
    requires MoneyInvariant(w.reg)
    ensures GoodStep(w, WorldAfter(w, Slash(w, env, n)), n)
    ensures GoodStep(w, WorldAfter(w, Reinstate(w, env, n)), n)
  {
    var o, r := Slash(w, env, n), Reinstate(w, env, n);
    if o.Done? {
      RewriteKeepsCount(w.reg.nodes, n, o.world.reg.nodes[n]);
    }
    if r.Done? {
      RewriteKeepsCount(w.reg.nodes, n, r.world.reg.nodes[n]);
    }
  }

  lemma OutsideStep(w: World, b: Balances, to: Address, amount: I128)
    requires MoneyInvariant(w.reg) && amount >= 0
    requires BalanceOf(b, w.reg.self) == BalanceOf(w.bal, w.reg.self) + if to == w.reg.self then amount else 0
    ensures GoodStep(w, Outside(w, Some(b), to, amount), to)
  {
  }

  lemma TokenStep(w: World, from: Address, to: Address, amount: I128)
    requires MoneyInvariant(w.reg)
    ensures from != w.reg.self ==> GoodStep(w, Outside(w, Transfer(w.bal, from, to, amount), to, amount), to)
    ensures GoodStep(w, Outside(w, Mint(w.bal, to, amount), to, amount), to)
  {
    var moved, minted := Transfer(w.bal, from, to, amount), Mint(w.bal, to, amount);
    if from != w.reg.self && moved.Some? {
      TransferConserves(w.bal, from, to, amount);
      OutsideStep(w, moved.value, to, amount);
    }
    if minted.Some? {
      OutsideStep(w, minted.value, to, amount);
    }
  }

  lemma EveryStepGood(w: World, tx: Tx)
    requires MoneyInvariant(w.reg) && Legitimate(w.reg.self, tx)
    ensures GoodStep(w, Apply(w, tx), Actor(tx.call))
  {
    match tx.call
    case CallInitialize(c, m, p) => InitializeStep(w, c, m, p);
    case CallRegister(n, d) => RegisterStep(w, tx.env, n, d);
    case CallUpdateMetadata(n, d) => MetadataStep(w, tx.env, n, d);
    case CallStake(n, a) => StakeStep(w, tx.env, n, a);
    case CallUnstake(n, a) => UnstakeStep(w, tx.env, n, a);
    case CallFinalize(n) => FinalizeStep(w, tx.env, n);
    case CallSlash(n) => CouncilStep(w, tx.env, n);
    case CallReinstate(n) => CouncilStep(w, tx.env, n);
    case TokenTransfer(from, to, a) => TokenStep(w, from, to, a);
    case TokenMint(to, a) => TokenStep(w, to, to, a);
  }

  lemma LocksStep(w: World, next: World, n: Address)
    requires Booked(w, next, n) && LocksMatchLog(w)
    ensures LocksMatchLog(next)
  {
  }

  lemma NodeBalancedStep(w: World, next: World, n: Address, who: Address)
    requires Booked(w, next, n) && LocksMatchLog(w) && NodeBalanced(w, who)
    ensures NodeBalanced(next, who)
  {
  }

  lemma OwedStep(w: World, next: World, n: Address)
    requires Booked(w, next, n)
    ensures Owed(next.reg) - Owed(w.reg) ==
            CurrentStake(next.reg.nodes, n) + Pending(next.reg.locks, n)
            - CurrentStake(w.reg.nodes, n) - Pending(w.reg.locks, n)
  {
    if next.reg.nodes != w.reg.nodes {
      SumByUpdate(w.reg.nodes, StakeOf, n, next.reg.nodes[n]);
    }
    if next.log != w.log {
      var e := next.log[|w.log|];
      if e.Unstaked? {
        SumByUpdate(w.reg.locks, AmountOf, n, LockEntry(n, e.amount, e.unlocksAt));
      } else if e.Finalized? || e.Forfeited? {
        SumByRemove(w.reg.locks, AmountOf, n);
      }
    }
  }

  lemma TokensBalancedStep(w: World, next: World, n: Address, base: int)
    requires MoneyInvariant(w.reg) && Booked(w, next, n) && LocksMatchLog(w) && TokensBalanced(w, base)
    ensures TokensBalanced(next, base)
  {
    OwedStep(w, next, n);
    if next.log != w.log {
      Appended(w.log, next.log[|w.log|]);
      assert PendingInLog(w.log, n) == if n in w.reg.locks then Some(w.reg.locks[n]) else None;
    }
  }

  // ---- Every run ----

  ghost predicate Solid(w: World, base: int) {
    && MoneyInvariant(w.reg) && LocksMatchLog(w) && TokensBalanced(w, base)
    && PeriodInLog(w.log) == w.reg.lockPeriod
  }

  /** Main invariant: from deployment, through any calls in any order by anyone, also before `initialize`. */
  lemma {:induction false} RunIsSolid(w0: World, txs: seq<Tx>)
    requires AtDeployment(w0) && AllLegitimate(w0.reg.self, txs)
    ensures Solid(Run(w0, txs), BalanceOf(w0.bal, w0.reg.self))
    ensures Run(w0, txs).reg.self == w0.reg.self
  {
    if txs != [] {
      var w, tx := Run(w0, txs[..|txs| - 1]), txs[|txs| - 1];
      RunIsSolid(w0, txs[..|txs| - 1]);
      EveryStepGood(w, tx);
      var next := Apply(w, tx);
      LocksStep(w, next, Actor(tx.call));
      TokensBalancedStep(w, next, Actor(tx.call), BalanceOf(w0.bal, w0.reg.self));
      if next.log != w.log {
        Appended(w.log, next.log[|w.log|]);
      }
    }
  }

  lemma {:induction false} NodeConservation(w0: World, txs: seq<Tx>, n: Address)
    requires AtDeployment(w0) && AllLegitimate(w0.reg.self, txs)
    ensures NodeBalanced(Run(w0, txs), n)
  {
    if txs != [] {
      var w, tx := Run(w0, txs[..|txs| - 1]), txs[|txs| - 1];
      NodeConservation(w0, txs[..|txs| - 1], n);
      RunIsSolid(w0, txs[..|txs| - 1]);
      EveryStepGood(w, tx);
      NodeBalancedStep(w, Apply(w, tx), Actor(tx.call), n);
    }
  }

  /** The registry's tokens are what it held at first, what it still owes to nodes, what nodes
      forfeited or overwrote, and what it was sent directly. So it can pay every node in full. */
  lemma {:induction false} RegistrySolvent(w0: World, txs: seq<Tx>)
    requires AtDeployment(w0) && AllLegitimate(w0.reg.self, txs)
    ensures var w := Run(w0, txs);
            var acc := AccountOf(w.log, None);
            && BalanceOf(w.bal, w.reg.self) == BalanceOf(w0.bal, w0.reg.self)
                 + Owed(w.reg) + acc.forfeited + acc.overwritten + acc.received
            && Owed(w.reg) <= BalanceOf(w.bal, w.reg.self)
            && forall n :: CurrentStake(w.reg.nodes, n) + Pending(w.reg.locks, n) <= BalanceOf(w.bal, w.reg.self)
  {
    RunIsSolid(w0, txs);
    var reg := Run(w0, txs).reg;
    assert forall n :: n in reg.nodes ==> NodeSound(reg, n);
    SumByNonNegative(reg.nodes, StakeOf);
    SumByNonNegative(reg.locks, AmountOf);
  }

  /** When `finalize_unstake` completes, to the last case: it never fails for lack of tokens. */
  lemma {:induction false} FinalizeExactly(w0: World, txs: seq<Tx>, env: Env, n: Address)
    requires AtDeployment(w0) && AllLegitimate(w0.reg.self, txs) && w0.reg.self !in env.auths
    ensures var w := Run(w0, txs);
            var o := FinalizeUnstake(w, env, n);
            && (o.Done? <==> && n in env.auths && n in w.reg.locks && env.timestamp >= w.reg.locks[n].unlocksAt
                             && w.reg.tokenConfigured
                             && BalanceOf(w.bal, n) + w.reg.locks[n].amount <= I128_MAX)
            && (o.Done? ==> && o.value == w.reg.locks[n].amount
                            && BalanceOf(o.world.bal, n) == BalanceOf(w.bal, n) + o.value
                            && o.world.reg == w.reg.(locks := w.reg.locks - {n}))
            && (o == Failed(NoPendingUnstake) <==> n in env.auths && n !in w.reg.locks)
            && (o == Failed(LockPeriodActive) <==>
                n in env.auths && n in w.reg.locks && env.timestamp < w.reg.locks[n].unlocksAt)
  {
    RegistrySolvent(w0, txs);
    RunIsSolid(w0, txs);
    var w := Run(w0, txs);
    assert n in w.reg.nodes ==> NodeSound(w.reg, n);
    assert CurrentStake(w.reg.nodes, n) + Pending(w.reg.locks, n) <= BalanceOf(w.bal, w.reg.self);
  }

  /** The seized total always fits: it is bounded by the registry's own token balance. */
  lemma {:induction false} SlashNeverOverflows(w0: World, txs: seq<Tx>, env: Env, n: Address)
    requires AtDeployment(w0) && AllLegitimate(w0.reg.self, txs)
    ensures Slash(Run(w0, txs), env, n) != Failed(Overflow)
  {
    RegistrySolvent(w0, txs);
    RunIsSolid(w0, txs);
    var w := Run(w0, txs);
    assert n in w.reg.nodes ==> NodeSound(w.reg, n);
    assert CurrentStake(w.reg.nodes, n) + Pending(w.reg.locks, n) <= BalanceOf(w.bal, w.reg.self);
  }

  // ---- After `initialize` ----

  lemma {:induction false} StatusRun(w: World, txs: seq<Tx>)
    requires MoneyInvariant(w.reg) && w.reg.council.Some? && AllLegitimate(w.reg.self, txs)
    ensures MoneyInvariant(Run(w, txs).reg) && Run(w, txs).reg.self == w.reg.self
    ensures StatusStays(w.reg, Run(w, txs).reg)
  {
    if txs != [] {
      StatusRun(w, txs[..|txs| - 1]);
      EveryStepGood(Run(w, txs[..|txs| - 1]), txs[|txs| - 1]);
    }
  }

  /** The council stored by `initialize` is the one that approves, for good: every completed slash
      and reinstatement carries the signatures of its first `threshold` members. */
  lemma {:induction false} CouncilCallsSigned(w: World, txs: seq<Tx>, env: Env, n: Address)
    requires MoneyInvariant(w.reg) && w.reg.council.Some? && AllLegitimate(w.reg.self, txs)
    ensures Slash(Run(w, txs), env, n).Done? || Reinstate(Run(w, txs), env, n).Done?
            ==> SignedByFirst(w.reg.council.value, env.auths)
  {
    StatusRun(w, txs);
    ApprovalMeansThreshold(w.reg.council.value, env.auths);
  }
}

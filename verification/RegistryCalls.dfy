/** When each registry call completes in a reachable state, what it leaves behind, and whom it may touch. */
module RegistryCalls {
  import opened Base
  import opened Token
  import opened Registry
  import opened RegistrySafety

  predicate SignedNode(w: World, env: Env, n: Address) {
    n in env.auths && n in w.reg.nodes
  }

  /** Only the record of one node differs. */
  ghost predicate OnlyNode(w: World, next: World, n: Address) {
    && n in next.reg.nodes && next.reg.nodes - {n} == w.reg.nodes - {n}
    && next.reg == w.reg.(nodes := next.reg.nodes, locks := next.reg.locks, nodeCount := next.reg.nodeCount)
    && next.reg.locks - {n} == w.reg.locks - {n}
  }

  lemma RegisterExactly(w: World, env: Env, n: Address, d: Metadata)
    ensures var o := Register(w, env, n, d);
            && (o.Done? <==> n in env.auths && n !in w.reg.nodes && d.uptimeCommitment <= 100
                             && w.reg.nodeCount < U32_MAX)
            && (o == Failed(AlreadyRegistered) <==> SignedNode(w, env, n))
            && (o == Failed(InvalidMetadata) <==>
                n in env.auths && n !in w.reg.nodes && d.uptimeCommitment > 100)
            && (o.Failed? ==> o.error in {AlreadyRegistered, InvalidMetadata})
            && (o.Done? ==>
                  && OnlyNode(w, o.world, n) && o.world.reg.locks == w.reg.locks && o.world.bal == w.bal
                  && o.world.reg.nodes[n] == Node(n, 0, Inactive, d, env.timestamp, env.timestamp)
                  && o.world.reg.nodeCount == w.reg.nodeCount + 1)
  {
  }

  lemma UpdateMetadataExactly(w: World, env: Env, n: Address, d: Metadata)
    ensures var o := UpdateMetadata(w, env, n, d);
            && (o.Done? <==> SignedNode(w, env, n) && d.uptimeCommitment <= 100 && |d.region| <= 32)
            && (o == Failed(NotRegistered) <==> n in env.auths && n !in w.reg.nodes)
            && (o == Failed(InvalidMetadata) <==>
                SignedNode(w, env, n) && (d.uptimeCommitment > 100 || |d.region| > 32))
            && (o.Done? ==> OnlyNode(w, o.world, n) && o.world.reg.nodes[n] == w.reg.nodes[n].(metadata := d))
  {
  }

  /** The check on the node's own total is implied by the transfer. */
  lemma {:induction false} StakeExactly(w0: World, txs: seq<Tx>, env: Env, n: Address, a: I128)
    requires AtDeployment(w0) && AllLegitimate(w0.reg.self, txs) && w0.reg.self !in env.auths
    ensures var w := Run(w0, txs);
            var o := Stake(w, env, n, a);
            && (o.Done? <==> && SignedNode(w, env, n) && w.reg.nodes[n].status != Slashed && w.reg.tokenConfigured
                             && 0 < a <= BalanceOf(w.bal, n) && BalanceOf(w.bal, w.reg.self) + a <= I128_MAX)
            && (o == Failed(NotRegistered) <==> n in env.auths && n !in w.reg.nodes)
            && (o == Failed(NodeSlashed) <==> SignedNode(w, env, n) && w.reg.nodes[n].status == Slashed)
            && (o == Failed(InsufficientStake) <==>
                SignedNode(w, env, n) && w.reg.nodes[n].status != Slashed && a <= 0)
            && (o == Failed(Overflow) <==>
                && SignedNode(w, env, n) && w.reg.nodes[n].status != Slashed && a > 0
                && w.reg.nodes[n].stake + a > I128_MAX)
            && (o.Failed? ==> o.error in {NotRegistered, NodeSlashed, InsufficientStake, Overflow})
  {
    RunIsSolid(w0, txs);
    RegistrySolvent(w0, txs);
    var w := Run(w0, txs);
    if Transfer(w.bal, n, w.reg.self, a).Some? {
      TransferConserves(w.bal, n, w.reg.self, a);
    }
    assert n in w.reg.nodes ==> NodeSound(w.reg, n);
    assert CurrentStake(w.reg.nodes, n) + Pending(w.reg.locks, n) <= BalanceOf(w.bal, w.reg.self);
  }

  /** A completed `stake`: the node's tokens become its stake, and it is Active if that reaches the minimum. */
  lemma StakeMoves(w: World, env: Env, n: Address, a: I128)
    requires MoneyInvariant(w.reg) && w.reg.self !in env.auths && Stake(w, env, n, a).Done?
    ensures var next := Stake(w, env, n, a).world;
            && OnlyNode(w, next, n) && next.reg.locks == w.reg.locks && next.reg.nodeCount == w.reg.nodeCount
            && next.reg.nodes[n].stake == w.reg.nodes[n].stake + a
            && (next.reg.nodes[n].stake >= w.reg.minStake ==> next.reg.nodes[n].status == Active)
            && (next.reg.nodes[n].stake < w.reg.minStake ==> next.reg.nodes[n].status == w.reg.nodes[n].status)
            && forall x :: BalanceOf(next.bal, x) == BalanceOf(w.bal, x)
                             + (if x == w.reg.self then a else 0) - (if x == n then a else 0)
  {
    TransferConserves(w.bal, n, w.reg.self, a);
  }

  /** When `unstake` completes, and the entry it leaves: locked from the ledger time of the call. */
  lemma UnstakeExactly(w: World, env: Env, n: Address, a: I128)
    ensures var o := Unstake(w, env, n, a);
            && (o.Done? <==> && SignedNode(w, env, n) && w.reg.nodes[n].status == Active
                             && 0 < a <= w.reg.nodes[n].stake && env.timestamp + w.reg.lockPeriod <= U64_MAX)
            && (o == Failed(NotRegistered) <==> n in env.auths && a > 0 && n !in w.reg.nodes)
            && (o == Failed(NodeSlashed) <==> SignedNode(w, env, n) && a > 0 && w.reg.nodes[n].status == Slashed)
            && (o == Failed(NodeNotActive) <==> SignedNode(w, env, n) && a > 0 && w.reg.nodes[n].status == Inactive)
            && (o == Failed(Overflow) <==> && SignedNode(w, env, n) && a > 0 && w.reg.nodes[n].status == Active
                                           && env.timestamp + w.reg.lockPeriod > U64_MAX)
            && (o.Failed? ==> o.error in {NotRegistered, NodeSlashed, NodeNotActive, Overflow, InsufficientStake})
            && (o == Aborted <==> n !in env.auths)
            && (o.Done? ==>
                  && OnlyNode(w, o.world, n) && o.world.bal == w.bal && o.world.reg.nodeCount == w.reg.nodeCount
                  && n in o.world.reg.locks
                  && o.world.reg.locks[n] == LockEntry(n, a, env.timestamp + w.reg.lockPeriod)
                  && o.world.reg.nodes[n].stake == w.reg.nodes[n].stake - a
                  && (o.world.reg.nodes[n].status == Active <==> o.world.reg.nodes[n].stake >= w.reg.minStake)
                  && o.world.reg.nodes[n].status != Slashed && o.value == o.world.reg.nodes[n])
  {
  }

  /** When `slash` completes in a reachable state, and that it takes everything and leaves the node Slashed. */
  lemma {:induction false} SlashExactly(w0: World, txs: seq<Tx>, env: Env, n: Address)
    requires AtDeployment(w0) && AllLegitimate(w0.reg.self, txs)
    ensures var w := Run(w0, txs);
            var o := Slash(w, env, n);
            && (o.Done? <==> CouncilApproves(w.reg.council, env.auths) && n in w.reg.nodes
                             && w.reg.nodes[n].status != Slashed)
            && (o == Failed(NotRegistered) <==> CouncilApproves(w.reg.council, env.auths) && n !in w.reg.nodes)
            && (o == Failed(NodeSlashed) <==> && CouncilApproves(w.reg.council, env.auths) && n in w.reg.nodes
                                              && w.reg.nodes[n].status == Slashed)
            && (o.Done? ==>
                  && OnlyNode(w, o.world, n) && o.world.bal == w.bal && o.world.reg.nodeCount == w.reg.nodeCount
                  && o.world.reg.nodes[n].status == Slashed && o.world.reg.nodes[n].stake == 0
                  && n !in o.world.reg.locks)
  {
    SlashNeverOverflows(w0, txs, env, n);
  }

  /** When `reinstate_node` completes, and that the node starts over with nothing. */
  lemma ReinstateExactly(w: World, env: Env, n: Address)
    requires MoneyInvariant(w.reg)
    ensures var o := Reinstate(w, env, n);
            && (o.Done? <==> CouncilApproves(w.reg.council, env.auths) && n in w.reg.nodes
                             && w.reg.nodes[n].status == Slashed)
            && (o == Failed(NotRegistered) <==> CouncilApproves(w.reg.council, env.auths) && n !in w.reg.nodes)
            && (o == Failed(NodeNotSlashed) <==> && CouncilApproves(w.reg.council, env.auths) && n in w.reg.nodes
                                                 && w.reg.nodes[n].status != Slashed)
            && (o.Done? ==>
                  && OnlyNode(w, o.world, n) && o.world.bal == w.bal && o.world.reg.nodeCount == w.reg.nodeCount
                  && o.world.reg.nodes[n].status == Inactive && o.world.reg.nodes[n].stake == 0
                  && n !in o.world.reg.locks)
  {
    assert n in w.reg.nodes ==> NodeSound(w.reg, n);
  }

  // ---- Whom a call may touch ----

  predicate SameNode(w: World, next: World, n: Address) {
    && (n in w.reg.nodes <==> n in next.reg.nodes) && (n in w.reg.nodes ==> next.reg.nodes[n] == w.reg.nodes[n])
    && (n in w.reg.locks <==> n in next.reg.locks) && (n in w.reg.locks ==> next.reg.locks[n] == w.reg.locks[n])
  }

  /** A node that did not sign keeps its record and its entry, unless the council acted on it. */
  lemma OnlySignersTouched(w: World, tx: Tx, n: Address)
    requires MoneyInvariant(w.reg) && Legitimate(w.reg.self, tx) && n !in tx.env.auths
    ensures || SameNode(w, Apply(w, tx), n)
            || ((tx.call.CallSlash? || tx.call.CallReinstate?) && tx.call.node == n
                && CouncilApproves(w.reg.council, tx.env.auths))
  {
    match tx.call
    case CallSlash(m) => OnlyNodeSlashed(w, tx.env, m, n);
    case CallReinstate(m) => OnlyNodeSlashed(w, tx.env, m, n);
    case CallUnstake(m, a) => UnstakeExactly(w, tx.env, m, a);
    case _ =>
  }

  lemma OnlyNodeSlashed(w: World, env: Env, m: Address, n: Address)
    ensures SameNode(w, WorldAfter(w, Slash(w, env, m)), n) || (m == n && CouncilApproves(w.reg.council, env.auths))
    ensures SameNode(w, WorldAfter(w, Reinstate(w, env, m)), n) || (m == n && CouncilApproves(w.reg.council, env.auths))
  {
  }

  /** No registry call takes tokens from anyone who did not sign. */
  lemma OnlySignersPay(w: World, tx: Tx, n: Address)
    requires MoneyInvariant(w.reg) && Legitimate(w.reg.self, tx) && n !in tx.env.auths
    ensures n != w.reg.self && !tx.call.TokenTransfer? ==> BalanceOf(Apply(w, tx).bal, n) >= BalanceOf(w.bal, n)
  {
    match tx.call
    case CallStake(m, a) =>
      if Stake(w, tx.env, m, a).Done? {
        TransferConserves(w.bal, m, w.reg.self, a);
      }
    case CallFinalize(m) =>
      if FinalizeUnstake(w, tx.env, m).Done? {
        TransferConserves(w.bal, w.reg.self, m, w.reg.locks[m].amount);
      }
    case _ =>
  }
}

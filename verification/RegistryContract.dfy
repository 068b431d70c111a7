/** The relay registry contract: stores updated in place, put back by the host when a call does not complete. */
module RegistryContract {
  import opened Base
  import opened Council
  import opened Token
  import opened Registry

  class RelayRegistry {
    const self: Address
    const token: TokenContract
    var council: Option<AdminCouncil>
    var minStake: I128
    var lockPeriod: U32
    var nodeCount: U32
    var tokenConfigured: bool
    var nodes: map<Address, Node>
    var locks: map<Address, LockEntry>
    ghost var history: seq<Event>

    ghost function View(): World
      reads this, token
    {
      World(State(self, council, minStake, lockPeriod, nodeCount, tokenConfigured, nodes, locks),
            token.balances, history)
    }

    constructor(self: Address, token: TokenContract, tokenConfigured: bool)
      ensures View() == World(Deployed(self, tokenConfigured), token.balances, [])
    {
      this.self, this.token, this.tokenConfigured := self, token, tokenConfigured;
      council, minStake, lockPeriod, nodeCount := None, 0, 0, 0;
      nodes, locks, history := map[], map[], [];
    }

    method InitializeContract(c: AdminCouncil, minStake: I128, lockPeriod: U32) returns (r: Reply<(), Error>)
      modifies this
      ensures var o := Initialize(old(View()), c, minStake, lockPeriod);
              r == ReplyOf(o) && View() == WorldAfter(old(View()), o)
    {
      if council.Some? {
        return Err(AlreadyInitialized);
      }
      if minStake <= 0 {
        return Err(InvalidAmount);
      }
      if lockPeriod == 0 {
        return Err(InvalidAmount);
      }
      if c.threshold == 0 || |c.members| < c.threshold {
        return Err(InvalidCouncilConfig);
      }
      council := Some(c);
      this.minStake := minStake;
      this.lockPeriod := lockPeriod;
      nodeCount := 0;
      history := history + [Configured(lockPeriod)];
      return Ok(());
    }

    method RegisterNode(env: Env, n: Address, metadata: Metadata) returns (r: Reply<(), Error>)
      modifies this
      ensures var o := Register(old(View()), env, n, metadata);
              r == ReplyOf(o) && View() == WorldAfter(old(View()), o)
    {
      if n !in env.auths {
        return Panic;
      }
      if n in nodes {
        return Err(AlreadyRegistered);
      }
      if metadata.uptimeCommitment > 100 {
        return Err(InvalidMetadata);
      }
      var before := nodes;
      nodes := nodes[n := Node(n, 0, Inactive, metadata, env.timestamp, env.timestamp)];
      if nodeCount == U32_MAX {
        nodes := before;
        return Panic;
      }
      nodeCount := nodeCount + 1;
      return Ok(());
    }

    method UpdateNodeMetadata(env: Env, n: Address, metadata: Metadata) returns (r: Reply<(), Error>)
      modifies this
      ensures var o := UpdateMetadata(old(View()), env, n, metadata);
              r == ReplyOf(o) && View() == WorldAfter(old(View()), o)
    {
      if n !in env.auths {
        return Panic;
      }
      if n !in nodes {
        return Err(NotRegistered);
      }
      if metadata.uptimeCommitment > 100 || |metadata.region| > 32 {
        return Err(InvalidMetadata);
      }
      nodes := nodes[n := nodes[n].(metadata := metadata)];
      return Ok(());
    }

    method StakeTokens(env: Env, n: Address, amount: I128) returns (r: Reply<(), Error>)
      modifies this, token
      ensures var o := Stake(old(View()), env, n, amount);
              r == ReplyOf(o) && View() == WorldAfter(old(View()), o)
    {
      if n !in env.auths {
        return Panic;
      }
      if n !in nodes {
        return Err(NotRegistered);
      }
      var node := nodes[n];
      if node.status == Slashed {
        return Err(NodeSlashed);
      }
      if amount <= 0 {
        return Err(InsufficientStake);
      }
      var newStake := CheckedAdd(node.stake, amount);
      if newStake.None? {
        return Err(Overflow);
      }
      if newStake.value >= minStake {
        node := node.(status := Active);
      }
      node := node.(lastActive := env.timestamp);
      node := node.(stake := newStake.value);
      if !tokenConfigured {
        return Panic;
      }
      var moved := token.TransferTokens(n, self, amount);
      if !moved {
        return Panic;
      }
      nodes := nodes[n := node];
      history := history + [Staked(n, amount)];
      return Ok(());
    }

    method UnstakeTokens(env: Env, n: Address, amount: I128) returns (r: Reply<Node, Error>)
      modifies this
      ensures var o := Unstake(old(View()), env, n, amount);
              r == ReplyOf(o) && View() == WorldAfter(old(View()), o)
    {
      if n !in env.auths {
        return Panic;
      }
      if amount <= 0 {
        return Err(InsufficientStake);
      }
      if n !in nodes {
        return Err(NotRegistered);
      }
      var node := nodes[n];
      if node.status == Slashed {
        return Err(NodeSlashed);
      }
      if node.status != Active {
        return Err(NodeNotActive);
      }
      if env.timestamp + lockPeriod > U64_MAX {
        return Err(Overflow);
      }
      var unlocksAt: U64 := env.timestamp + lockPeriod;
      if amount > node.stake {
        return Err(InsufficientStake);
      }
      var rest := CheckedSub(node.stake, amount);
      if rest.None? {
        return Err(Overflow);
      }
      node := node.(stake := rest.value);
      if node.stake < minStake {
        node := node.(status := Inactive);
      }
      node := node.(lastActive := env.timestamp);
      locks := locks[n := LockEntry(n, amount, unlocksAt)];
      nodes := nodes[n := node];
      history := history + [Unstaked(n, amount, unlocksAt, env.timestamp)];
      return Ok(node);
    }

    method FinalizePendingUnstake(env: Env, n: Address) returns (r: Reply<I128, Error>)
      modifies this, token
      ensures var o := FinalizeUnstake(old(View()), env, n);
              r == ReplyOf(o) && View() == WorldAfter(old(View()), o)
    {
      if n !in env.auths {
        return Panic;
      }
      if n !in locks {
        return Err(NoPendingUnstake);
      }
      var entry := locks[n];
      if env.timestamp < entry.unlocksAt {
        return Err(LockPeriodActive);
      }
      var before := locks;
      locks := locks - {n};
      if !tokenConfigured {
        locks := before;
        return Panic;
      }
      var moved := token.TransferTokens(self, n, entry.amount);
      if !moved {
        locks := before;
        return Panic;
      }
      history := history + [Finalized(n, entry.amount, env.timestamp)];
      return Ok(entry.amount);
    }

    method SlashNode(env: Env, n: Address) returns (r: Reply<(), Error>)
      modifies this
      ensures var o := Slash(old(View()), env, n);
              r == ReplyOf(o) && View() == WorldAfter(old(View()), o)
    {
      if council.None? {
        return Panic;
      }
      var verdict, _ := RequireCouncilAuth(council.value, env.auths);
      if verdict != Approved {
        return Panic;
      }
      if n !in nodes {
        return Err(NotRegistered);
      }
      var node := nodes[n];
      if node.status == Slashed {
        return Err(NodeSlashed);
      }
      var seized := node.stake;
      node := node.(stake := 0);
      node := node.(status := Slashed);
      node := node.(lastActive := env.timestamp);
      if n in locks {
        var total := CheckedAdd(seized, locks[n].amount);
        if total.None? {
          return Err(Overflow);
        }
        seized := total.value;
        locks := locks - {n};
      }
      assert locks == old(locks) - {n};
      nodes := nodes[n := node];
      history := history + [Forfeited(n, seized, env.timestamp)];
      return Ok(());
    }

    method ReinstateNode(env: Env, n: Address) returns (r: Reply<(), Error>)
      modifies this
      ensures var o := Reinstate(old(View()), env, n);
              r == ReplyOf(o) && View() == WorldAfter(old(View()), o)
    {
      if council.None? {
        return Panic;
      }
      var verdict, _ := RequireCouncilAuth(council.value, env.auths);
      if verdict != Approved {
        return Panic;
      }
      if n !in nodes {
        return Err(NotRegistered);
      }
      var node := nodes[n];
      if node.status != Slashed {
        return Err(NodeNotSlashed);
      }
      node := node.(status := Inactive);
      node := node.(lastActive := env.timestamp);
      nodes := nodes[n := node];
      return Ok(());
    }
  }
}

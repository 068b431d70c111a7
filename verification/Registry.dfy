/** The relay registry as a value: its stores, its event log, and the effect of each public call. */
module Registry {
  import opened Base
  import opened Council
  import opened Token

  datatype Status = Active | Inactive | Slashed

  datatype Metadata = Metadata(region: string, capacity: U32, uptimeCommitment: U32)

  datatype Node = Node(address: Address, stake: I128, status: Status, metadata: Metadata,
                       registeredAt: U64, lastActive: U64)

  /** A pending unstake: at most one a node, and a later one takes its place. */
  datatype LockEntry = LockEntry(address: Address, amount: I128, unlocksAt: U64)

  datatype Error =
    | AlreadyRegistered | NotRegistered | InsufficientStake | NodeNotActive | NodeSlashed
    | InvalidMetadata | Overflow | AlreadyInitialized | InvalidAmount | InvalidCouncilConfig
    | NoPendingUnstake | LockPeriodActive | NodeNotSlashed

  /** The history of a registry: what it publishes when value changes hands, stamped with the ledger
      time; the lock period, when `initialize` stores it; and the tokens other contracts and users
      send to the registry outside its interface. */
  datatype Event =
    | Configured(lockPeriod: U32)
    | Staked(node: Address, amount: I128)
    | Unstaked(node: Address, amount: I128, unlocksAt: U64, at: U64)
    | Finalized(node: Address, amount: I128, at: U64)
    | Forfeited(node: Address, amount: I128, at: U64)
    | Received(amount: I128)

  datatype State = State(self: Address, council: Option<AdminCouncil>, minStake: I128, lockPeriod: U32,
                         nodeCount: U32, tokenConfigured: bool,
                         nodes: map<Address, Node>, locks: map<Address, LockEntry>)

  datatype World = World(reg: State, bal: Balances, log: seq<Event>)

  type Effect<R> = Outcome<World, R, Error>

  /** Storage defaults of a contract nobody has called; the token address is set outside its interface. */
  function Deployed(self: Address, tokenConfigured: bool): State {
    State(self, None, 0, 0, 0, tokenConfigured, map[], map[])
  }

  function Pending(locks: map<Address, LockEntry>, n: Address): I128 {
    if n in locks then locks[n].amount else 0
  }

  function CurrentStake(nodes: map<Address, Node>, n: Address): I128 {
    if n in nodes then nodes[n].stake else 0
  }

  ghost predicate CouncilApproves(c: Option<AdminCouncil>, auths: set<Address>) {
    c.Some? && Approves(c.value, auths)
  }

  // ---- The public calls ----

  function Initialize(w: World, council: AdminCouncil, minStake: I128, lockPeriod: U32): Effect<()> {
    if w.reg.council.Some? then Failed(AlreadyInitialized)
    else if minStake <= 0 || lockPeriod == 0 then Failed(InvalidAmount)
    else if !Accepted(council) then Failed(InvalidCouncilConfig)
    else Done(w.(reg := w.reg.(council := Some(council), minStake := minStake,
                               lockPeriod := lockPeriod, nodeCount := 0),
                 log := w.log + [Configured(lockPeriod)]), ())
  }

  function Register(w: World, env: Env, n: Address, metadata: Metadata): Effect<()> {
    if n !in env.auths then Aborted
    else if n in w.reg.nodes then Failed(AlreadyRegistered)
    else if metadata.uptimeCommitment > 100 then Failed(InvalidMetadata)
    else if w.reg.nodeCount == U32_MAX then Aborted
    else
      var node := Node(n, 0, Inactive, metadata, env.timestamp, env.timestamp);
      Done(w.(reg := w.reg.(nodes := w.reg.nodes[n := node], nodeCount := w.reg.nodeCount + 1)), ())
  }

  function UpdateMetadata(w: World, env: Env, n: Address, metadata: Metadata): Effect<()> {
    if n !in env.auths then Aborted
    else if n !in w.reg.nodes then Failed(NotRegistered)
    else if metadata.uptimeCommitment > 100 || |metadata.region| > 32 then Failed(InvalidMetadata)
    else Done(w.(reg := w.reg.(nodes := w.reg.nodes[n := w.reg.nodes[n].(metadata := metadata)])), ())
  }

  function Stake(w: World, env: Env, n: Address, amount: I128): Effect<()> {
    if n !in env.auths then Aborted
    else if n !in w.reg.nodes then Failed(NotRegistered)
    else if w.reg.nodes[n].status == Slashed then Failed(NodeSlashed)
    else if amount <= 0 then Failed(InsufficientStake)
    else if w.reg.nodes[n].stake + amount > I128_MAX then Failed(Overflow)
    else if !w.reg.tokenConfigured then Aborted
    else match Transfer(w.bal, n, w.reg.self, amount)
      case None => Aborted
      case Some(paid) =>
        var total := w.reg.nodes[n].stake + amount;
        var node := w.reg.nodes[n].(stake := total, lastActive := env.timestamp,
                      status := if total >= w.reg.minStake then Active else w.reg.nodes[n].status);
        Done(World(w.reg.(nodes := w.reg.nodes[n := node]), paid, w.log + [Staked(n, amount)]), ())
  }

  function Unstake(w: World, env: Env, n: Address, amount: I128): Effect<Node> {
    if n !in env.auths then Aborted
    else if amount <= 0 then Failed(InsufficientStake)
    else if n !in w.reg.nodes then Failed(NotRegistered)
    else if w.reg.nodes[n].status == Slashed then Failed(NodeSlashed)
    else if w.reg.nodes[n].status != Active then Failed(NodeNotActive)
    else if env.timestamp + w.reg.lockPeriod > U64_MAX then Failed(Overflow)
    else if amount > w.reg.nodes[n].stake then Failed(InsufficientStake)
    else
      var rest := w.reg.nodes[n].stake - amount;
      var unlocksAt := env.timestamp + w.reg.lockPeriod;
      var node := w.reg.nodes[n].(stake := rest, lastActive := env.timestamp,
                    status := if rest < w.reg.minStake then Inactive else Active);
      Done(World(w.reg.(nodes := w.reg.nodes[n := node],
                        locks := w.reg.locks[n := LockEntry(n, amount, unlocksAt)]),
                 w.bal, w.log + [Unstaked(n, amount, unlocksAt, env.timestamp)]), node)
  }

  function FinalizeUnstake(w: World, env: Env, n: Address): Effect<I128> {
    if n !in env.auths then Aborted
    else if n !in w.reg.locks then Failed(NoPendingUnstake)
    else if env.timestamp < w.reg.locks[n].unlocksAt then Failed(LockPeriodActive)
    else if !w.reg.tokenConfigured then Aborted
    else match Transfer(w.bal, w.reg.self, n, w.reg.locks[n].amount)
      case None => Aborted
      case Some(paid) =>
        Done(World(w.reg.(locks := w.reg.locks - {n}), paid,
                   w.log + [Finalized(n, w.reg.locks[n].amount, env.timestamp)]), w.reg.locks[n].amount)
  }

  ghost function Slash(w: World, env: Env, n: Address): Effect<()> {
    if !CouncilApproves(w.reg.council, env.auths) then Aborted
    else if n !in w.reg.nodes then Failed(NotRegistered)
    else if w.reg.nodes[n].status == Slashed then Failed(NodeSlashed)
    else
      var seized := w.reg.nodes[n].stake + Pending(w.reg.locks, n);
      if !FitsI128(seized) then Failed(Overflow)
      else
        var node := w.reg.nodes[n].(stake := 0, status := Slashed, lastActive := env.timestamp);
        Done(World(w.reg.(nodes := w.reg.nodes[n := node], locks := w.reg.locks - {n}),
                   w.bal, w.log + [Forfeited(n, seized, env.timestamp)]), ())
  }

  ghost function Reinstate(w: World, env: Env, n: Address): Effect<()> {
    if !CouncilApproves(w.reg.council, env.auths) then Aborted
    else if n !in w.reg.nodes then Failed(NotRegistered)
    else if w.reg.nodes[n].status != Slashed then Failed(NodeNotSlashed)
    else
      var node := w.reg.nodes[n].(status := Inactive, lastActive := env.timestamp);
      Done(w.(reg := w.reg.(nodes := w.reg.nodes[n := node])), ())
  }

  /** A token movement by somebody else: the registry notices only what reaches its own address. */
  function Outside(w: World, moved: Option<Balances>, to: Address, amount: I128): World {
    match moved
    case None => w
    case Some(b) => World(w.reg, b, if to == w.reg.self then w.log + [Received(amount)] else w.log)
  }

  // ---- Runs ----

  datatype Call =
    | CallInitialize(council: AdminCouncil, minStake: I128, lockPeriod: U32)
    | CallRegister(node: Address, metadata: Metadata)
    | CallUpdateMetadata(node: Address, metadata: Metadata)
    | CallStake(node: Address, amount: I128)
    | CallUnstake(node: Address, amount: I128)
    | CallFinalize(node: Address)
    | CallSlash(node: Address)
    | CallReinstate(node: Address)
    | TokenTransfer(from: Address, to: Address, amount: I128)
    | TokenMint(to: Address, amount: I128)

  datatype Tx = Tx(env: Env, call: Call)

  ghost function Apply(w: World, tx: Tx): World {
    match tx.call
    case CallInitialize(c, m, p) => WorldAfter(w, Initialize(w, c, m, p))
    case CallRegister(n, d) => WorldAfter(w, Register(w, tx.env, n, d))
    case CallUpdateMetadata(n, d) => WorldAfter(w, UpdateMetadata(w, tx.env, n, d))
    case CallStake(n, a) => WorldAfter(w, Stake(w, tx.env, n, a))
    case CallUnstake(n, a) => WorldAfter(w, Unstake(w, tx.env, n, a))
    case CallFinalize(n) => WorldAfter(w, FinalizeUnstake(w, tx.env, n))
    case CallSlash(n) => WorldAfter(w, Slash(w, tx.env, n))
    case CallReinstate(n) => WorldAfter(w, Reinstate(w, tx.env, n))
    case TokenTransfer(from, to, a) => Outside(w, Transfer(w.bal, from, to, a), to, a)
    case TokenMint(to, a) => Outside(w, Mint(w.bal, to, a), to, a)
  }

  ghost function Run(w: World, txs: seq<Tx>): World {
    if txs == [] then w else Apply(Run(w, txs[..|txs| - 1]), txs[|txs| - 1])
  }

  /** The registry has no account of its own to sign with, and only it spends its tokens. */
  predicate Legitimate(self: Address, tx: Tx) {
    self !in tx.env.auths && (tx.call.TokenTransfer? ==> tx.call.from != self)
  }

  ghost predicate AllLegitimate(self: Address, txs: seq<Tx>) {
    forall i :: 0 <= i < |txs| ==> Legitimate(self, txs[i])
  }

  /** A contract nobody has called yet; anyone may hold any tokens. */
  ghost predicate AtDeployment(w: World) {
    w.reg == Deployed(w.reg.self, w.reg.tokenConfigured) && w.log == []
  }

  lemma RunAppend(w: World, txs: seq<Tx>, tx: Tx)
    ensures Run(w, txs + [tx]) == Apply(Run(w, txs), tx)
  {
    assert (txs + [tx])[..|txs|] == txs;
  }
}

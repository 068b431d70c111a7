/** The treasury as a value: cached balance, lifetime statistics, append-only log and programs. */
module Treasury {
  import opened Base
  import opened Council
  import opened Token

  datatype Kind = Deposit | Withdrawal | Allocation

  datatype Entry = Entry(kind: Kind, amount: I128, actor: Address, recipient: Option<Address>, ledger: U64)

  datatype Program = Program(id: U64, budget: I128, spent: I128, active: bool, name: string)

  /** `current` is stored as zero and filled in only when the statistics are read. */
  datatype Stats = Stats(current: I128, lifetimeDeposited: I128, lifetimeWithdrawn: I128, lifetimeAllocated: I128)

  datatype Error =
    | InsufficientBalance | InvalidAmount | ProgramNotFound | Overflow | AlreadyInitialized
    | ProgramInactive | ProgramOverBudget | InvalidCouncilConfig | InvalidProgramName

  datatype State = State(self: Address, council: Option<AdminCouncil>, balance: I128, stats: Stats,
                         entries: map<U64, Entry>, entryCount: U64,
                         programs: map<U64, Program>, programCount: U64)

  /** The treasury together with the token it keeps its money in. */
  datatype Vault = Vault(tr: State, bal: Balances)

  type Effect<R> = Outcome<Vault, R, Error>

  function Deployed(self: Address): State {
    State(self, None, 0, Stats(0, 0, 0, 0), map[], 0, map[], 0)
  }

  ghost predicate CouncilApproves(tr: State, auths: set<Address>) {
    tr.council.Some? && Approves(tr.council.value, auths)
  }

  /** Append-only: the new entry takes the next id. */
  function Recorded(tr: State, e: Entry): State
    requires tr.entryCount < U64_MAX
  {
    tr.(entries := tr.entries[tr.entryCount + 1 := e], entryCount := tr.entryCount + 1)
  }

  function ReadStats(tr: State): Stats {
    tr.stats.(current := tr.balance)
  }

  // ---- The public calls ----

  function Initialize(v: Vault, council: AdminCouncil): Effect<()> {
    if v.tr.council.Some? then Failed(AlreadyInitialized)
    else if !Accepted(council) then Failed(InvalidCouncilConfig)
    else Done(v.(tr := v.tr.(council := Some(council), balance := 0)), ())
  }

  /** The token address is stored together with the council, so it is missing just when the council is. */
  function MakeDeposit(v: Vault, env: Env, from: Address, amount: I128): Effect<()> {
    if from !in env.auths then Aborted
    else if amount <= 0 then Failed(InvalidAmount)
    else if !FitsI128(v.tr.balance + amount) || !FitsI128(v.tr.stats.lifetimeDeposited + amount) then Failed(Overflow)
    else if v.tr.entryCount == U64_MAX || v.tr.council.None? then Aborted
    else match Transfer(v.bal, from, v.tr.self, amount)
      case None => Aborted
      case Some(paid) =>
        var tr := v.tr.(balance := v.tr.balance + amount,
                        stats := v.tr.stats.(lifetimeDeposited := v.tr.stats.lifetimeDeposited + amount));
        Done(Vault(Recorded(tr, Entry(Deposit, amount, from, None, env.sequence)), paid), ())
  }

  ghost function Withdraw(v: Vault, env: Env, to: Address, amount: I128): Effect<()> {
    if !CouncilApproves(v.tr, env.auths) then Aborted
    else if amount <= 0 then Failed(InvalidAmount)
    else if v.tr.balance < amount then Failed(InsufficientBalance)
    else if !FitsI128(v.tr.stats.lifetimeWithdrawn + amount) then Failed(Overflow)
    else if v.tr.entryCount == U64_MAX then Aborted
    else match Transfer(v.bal, v.tr.self, to, amount)
      case None => Aborted
      case Some(paid) =>
        var tr := v.tr.(balance := v.tr.balance - amount,
                        stats := v.tr.stats.(lifetimeWithdrawn := v.tr.stats.lifetimeWithdrawn + amount));
        Done(Vault(Recorded(tr, Entry(Withdrawal, amount, v.tr.self, Some(to), env.sequence)), paid), ())
  }

  ghost function CreateProgram(v: Vault, env: Env, name: string, budget: I128): Effect<U64> {
    if !CouncilApproves(v.tr, env.auths) then Aborted
    else if budget <= 0 then Failed(InvalidAmount)
    else if |name| < 3 || |name| > 64 then Failed(InvalidProgramName)
    else if v.tr.programCount == U64_MAX then Aborted
    else
      var id: U64 := v.tr.programCount + 1;
      Done(v.(tr := v.tr.(programs := v.tr.programs[id := Program(id, budget, 0, true, name)],
                          programCount := id)), id)
  }

  ghost function UpdateBudget(v: Vault, env: Env, id: U64, budget: I128): Effect<()> {
    if !CouncilApproves(v.tr, env.auths) then Aborted
    else if id !in v.tr.programs then Failed(ProgramNotFound)
    else if budget < v.tr.programs[id].spent then Failed(InvalidAmount)
    else Done(v.(tr := v.tr.(programs := v.tr.programs[id := v.tr.programs[id].(budget := budget)])), ())
  }

  ghost function Deactivate(v: Vault, env: Env, id: U64): Effect<()> {
    if !CouncilApproves(v.tr, env.auths) then Aborted
    else if id !in v.tr.programs then Failed(ProgramNotFound)
    else Done(v.(tr := v.tr.(programs := v.tr.programs[id := v.tr.programs[id].(active := false)])), ())
  }

  /** Lowers the recorded balance and moves no tokens. */
  ghost function Allocate(v: Vault, env: Env, id: U64, amount: I128): Effect<()> {
    if !CouncilApproves(v.tr, env.auths) then Aborted
    else if amount <= 0 then Failed(InvalidAmount)
    else if id !in v.tr.programs then Failed(ProgramNotFound)
    else
      var p := v.tr.programs[id];
      if !p.active then Failed(ProgramInactive)
      else if !FitsI128(p.spent + amount) then Failed(Overflow)
      else if p.spent + amount > p.budget then Failed(ProgramOverBudget)
      else if v.tr.balance < amount then Failed(InsufficientBalance)
      else if !FitsI128(v.tr.stats.lifetimeAllocated + amount) then Failed(Overflow)
      else if v.tr.entryCount == U64_MAX then Aborted
      else
        var tr := v.tr.(programs := v.tr.programs[id := p.(spent := p.spent + amount)],
                        balance := v.tr.balance - amount,
                        stats := v.tr.stats.(lifetimeAllocated := v.tr.stats.lifetimeAllocated + amount));
        Done(v.(tr := Recorded(tr, Entry(Allocation, amount, v.tr.self, None, env.sequence))), ())
  }

  datatype Call =
    | CallInitialize(council: AdminCouncil)
    | CallDeposit(from: Address, amount: I128)
    | CallWithdraw(to: Address, amount: I128)
    | CallCreateProgram(name: string, budget: I128)
    | CallUpdateBudget(id: U64, budget: I128)
    | CallDeactivate(id: U64)
    | CallAllocate(id: U64, amount: I128)

  ghost function Apply(v: Vault, env: Env, call: Call): Vault {
    match call
    case CallInitialize(c) => WorldAfter(v, Initialize(v, c))
    case CallDeposit(from, a) => WorldAfter(v, MakeDeposit(v, env, from, a))
    case CallWithdraw(to, a) => WorldAfter(v, Withdraw(v, env, to, a))
    case CallCreateProgram(name, b) => WorldAfter(v, CreateProgram(v, env, name, b))
    case CallUpdateBudget(id, b) => WorldAfter(v, UpdateBudget(v, env, id, b))
    case CallDeactivate(id) => WorldAfter(v, Deactivate(v, env, id))
    case CallAllocate(id, a) => WorldAfter(v, Allocate(v, env, id, a))
  }
}

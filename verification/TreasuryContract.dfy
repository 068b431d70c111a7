/** The treasury contract: stores updated step by step, put back by the host when a call does not complete. */
module TreasuryContract {
  import opened Base
  import opened Council
  import opened Token
  import opened Treasury
  import opened TreasurySafety

  class TreasuryVault {
    const self: Address
    const token: TokenContract
    var council: Option<AdminCouncil>
    var balance: I128
    var stats: Stats
    var entries: map<U64, Entry>
    var entryCount: U64
    var programs: map<U64, Program>
    var programCount: U64

    function Store(): State
      reads this
    {
      State(self, council, balance, stats, entries, entryCount, programs, programCount)
    }

    ghost function View(): Vault
      reads this, token
    {
      Vault(Store(), token.balances)
    }

    constructor(self: Address, token: TokenContract)
      ensures View() == Vault(Deployed(self), token.balances) && this.token == token
    {
      this.self, this.token := self, token;
      council, balance, stats := None, 0, Stats(0, 0, 0, 0);
      entries, entryCount, programs, programCount := map[], 0, map[], 0;
    }

    /** What the host does to this contract's storage when a call fails. */
    method Restore(s: State)
      requires s.self == self
      modifies this
      ensures Store() == s
    {
      council, balance, stats := s.council, s.balance, s.stats;
      entries, entryCount, programs, programCount := s.entries, s.entryCount, s.programs, s.programCount;
    }

    /** `set_entry`: the unchecked increment panics at the top of its range. */
    method SetEntry(e: Entry) returns (ok: bool)
      modifies this
      ensures ok <==> old(entryCount) < U64_MAX
      ensures Store() == if ok then Recorded(old(Store()), e) else old(Store())
    {
      if entryCount == U64_MAX {
        return false;
      }
      var nextId: U64 := entryCount + 1;
      entries := entries[nextId := e];
      entryCount := nextId;
      return true;
    }

    method RequireCouncil(auths: set<Address>) returns (ok: bool)
      ensures ok <==> CouncilApproves(Store(), auths)
    {
      if council.None? {
        return false;
      }
      var verdict, _ := RequireCouncilAuth(council.value, auths);
      return verdict == Approved;
    }

    method InitializeContract(c: AdminCouncil) returns (r: Reply<(), Error>)
      modifies this
      ensures var o := Initialize(old(View()), c);
              r == ReplyOf(o) && View() == WorldAfter(old(View()), o)
    {
      if council.Some? {
        return Err(AlreadyInitialized);
      }
      if c.threshold == 0 || |c.members| < c.threshold {
        return Err(InvalidCouncilConfig);
      }
      council := Some(c);
      balance := 0;
      return Ok(());
    }

    method DepositTokens(env: Env, from: Address, amount: I128) returns (r: Reply<(), Error>)
      modifies this, token
      ensures var o := MakeDeposit(old(View()), env, from, amount);
              r == ReplyOf(o) && View() == WorldAfter(old(View()), o)
    {
      var before := Store();
      if from !in env.auths {
        return Panic;
      }
      if amount <= 0 {
        return Err(InvalidAmount);
      }
      var newBalance := CheckedAdd(balance, amount);
      if newBalance.None? {
        return Err(Overflow);
      }
      balance := newBalance.value;
      var deposited := CheckedAdd(stats.lifetimeDeposited, amount);
      if deposited.None? {
        Restore(before);
        return Err(Overflow);
      }
      stats := stats.(lifetimeDeposited := deposited.value);
      var recorded := SetEntry(Entry(Deposit, amount, from, None, env.sequence));
      if !recorded || council.None? {
        Restore(before);
        return Panic;
      }
      var moved := token.TransferTokens(from, self, amount);
      if !moved {
        Restore(before);
        return Panic;
      }
      return Ok(());
    }

    method WithdrawTokens(env: Env, to: Address, amount: I128) returns (r: Reply<(), Error>)
      modifies this, token
      ensures var o := Withdraw(old(View()), env, to, amount);
              r == ReplyOf(o) && View() == WorldAfter(old(View()), o)
    {
      var before := Store();
      var approved := RequireCouncil(env.auths);
      if !approved {
        return Panic;
      }
      if amount <= 0 {
        return Err(InvalidAmount);
      }
      if balance < amount {
        return Err(InsufficientBalance);
      }
      var newBalance := CheckedSub(balance, amount);
      if newBalance.None? {
        return Err(Overflow);
      }
      balance := newBalance.value;
      var withdrawn := CheckedAdd(stats.lifetimeWithdrawn, amount);
      if withdrawn.None? {
        Restore(before);
        return Err(Overflow);
      }
      stats := stats.(lifetimeWithdrawn := withdrawn.value);
      var recorded := SetEntry(Entry(Withdrawal, amount, self, Some(to), env.sequence));
      if !recorded {
        Restore(before);
        return Panic;
      }
      var moved := token.TransferTokens(self, to, amount);
      if !moved {
        Restore(before);
        return Panic;
      }
      return Ok(());
    }

    method CreateSpendingProgram(env: Env, name: string, budget: I128) returns (r: Reply<U64, Error>)
      modifies this
      ensures var o := CreateProgram(old(View()), env, name, budget);
              r == ReplyOf(o) && View() == WorldAfter(old(View()), o)
    {
      var approved := RequireCouncil(env.auths);
      if !approved {
        return Panic;
      }
      if budget <= 0 {
        return Err(InvalidAmount);
      }
      if |name| < 3 || |name| > 64 {
        return Err(InvalidProgramName);
      }
      if programCount == U64_MAX {
        return Panic;
      }
      programCount := programCount + 1;
      programs := programs[programCount := Program(programCount, budget, 0, true, name)];
      return Ok(programCount);
    }

    method UpdateProgramBudget(env: Env, id: U64, budget: I128) returns (r: Reply<(), Error>)
      modifies this
      ensures var o := UpdateBudget(old(View()), env, id, budget);
              r == ReplyOf(o) && View() == WorldAfter(old(View()), o)
    {
      var approved := RequireCouncil(env.auths);
      if !approved {
        return Panic;
      }
      if id !in programs {
        return Err(ProgramNotFound);
      }
      var program := programs[id];
      if budget < program.spent {
        return Err(InvalidAmount);
      }
      program := program.(budget := budget);
      programs := programs[id := program];
      return Ok(());
    }

    method DeactivateProgram(env: Env, id: U64) returns (r: Reply<(), Error>)
      modifies this
      ensures var o := Deactivate(old(View()), env, id);
              r == ReplyOf(o) && View() == WorldAfter(old(View()), o)
    {
      var approved := RequireCouncil(env.auths);
      if !approved {
        return Panic;
      }
      if id !in programs {
        return Err(ProgramNotFound);
      }
      var program := programs[id];
      program := program.(active := false);
      programs := programs[id := program];
      return Ok(());
    }

    method AllocateToProgram(env: Env, id: U64, amount: I128) returns (r: Reply<(), Error>)
      modifies this
      ensures var o := Allocate(old(View()), env, id, amount);
              r == ReplyOf(o) && View() == WorldAfter(old(View()), o)
    {
      var before := Store();
      var approved := RequireCouncil(env.auths);
      if !approved {
        return Panic;
      }
      if amount <= 0 {
        return Err(InvalidAmount);
      }
      if id !in programs {
        return Err(ProgramNotFound);
      }
      var program := programs[id];
      if !program.active {
        return Err(ProgramInactive);
      }
      var newSpent := CheckedAdd(program.spent, amount);
      if newSpent.None? {
        return Err(Overflow);
      }
      if newSpent.value > program.budget {
        return Err(ProgramOverBudget);
      }
      if balance < amount {
        return Err(InsufficientBalance);
      }
      program := program.(spent := newSpent.value);
      programs := programs[id := program];
      var newBalance := CheckedSub(balance, amount);
      if newBalance.None? {
        return Err(Overflow);
      }
      balance := newBalance.value;
      var total := CheckedAdd(stats.lifetimeAllocated, amount);
      if total.None? {
        Restore(before);
        return Err(Overflow);
      }
      stats := stats.(lifetimeAllocated := total.value);
      var recorded := SetEntry(Entry(Allocation, amount, self, None, env.sequence));
      if !recorded {
        Restore(before);
        return Panic;
      }
      return Ok(());
    }

    /** The statistics with the live balance. In every state calls can reach they are the replay of
        the whole log, and every deposited token is held, withdrawn or allocated. */
    method GetTreasuryStats() returns (s: Stats)
      ensures s == ReadStats(Store())
      ensures LogInvariant(Store()) ==>
                && Totals(s.current, s.lifetimeDeposited, s.lifetimeWithdrawn, s.lifetimeAllocated)
                   == Replay(entries, entryCount)
                && s.lifetimeDeposited == s.current + s.lifetimeWithdrawn + s.lifetimeAllocated
                && s.current >= 0 && s.lifetimeWithdrawn >= 0 && s.lifetimeAllocated >= 0
    {
      s := stats;
      s := s.(current := balance);
      if LogInvariant(Store()) {
        StatsAddUp(Store());
      }
    }
  }
}

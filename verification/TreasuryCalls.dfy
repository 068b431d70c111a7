/** When each treasury call completes in a state with the invariant, and what it leaves behind. */
module TreasuryCalls {
  import opened Base
  import opened Council
  import opened Token
  import opened Treasury
  import opened TreasurySafety

  /** What the log, the programs and the configuration have in common before and after. */
  ghost predicate OnlyMoney(tr: State, next: State) {
    next == tr.(balance := next.balance, stats := next.stats, entries := next.entries,
                entryCount := next.entryCount, programs := next.programs)
  }

  /** One more entry, and the same entries before it. */
  ghost predicate Logs(tr: State, next: State, e: Entry) {
    && next.entryCount == tr.entryCount + 1 && next.entries == tr.entries[next.entryCount := e]
  }

  lemma InitializeExactly(v: Vault, council: AdminCouncil)
    requires TreasuryInvariant(v.tr)
    ensures var o := Initialize(v, council);
            && (o.Done? <==> v.tr.council.None? && Accepted(council))
            && (o == Failed(AlreadyInitialized) <==> v.tr.council.Some?)
            && (o == Failed(InvalidCouncilConfig) <==> v.tr.council.None? && !Accepted(council))
            && (o.Done? ==> o.world == v.(tr := v.tr.(council := Some(council))))
  {
    if v.tr.council.None? {
      assert Replay(v.tr.entries, 0) == Totals(0, 0, 0, 0);
    }
  }

  /** The cached balance never stands in the way of a deposit. */
  lemma DepositExactly(v: Vault, env: Env, from: Address, amount: I128)
    requires TreasuryInvariant(v.tr) && v.tr.self !in env.auths
    ensures var o := MakeDeposit(v, env, from, amount);
            && (o.Done? <==> && from in env.auths && 0 < amount <= BalanceOf(v.bal, from)
                             && v.tr.stats.lifetimeDeposited + amount <= I128_MAX
                             && BalanceOf(v.bal, v.tr.self) + amount <= I128_MAX
                             && v.tr.council.Some? && v.tr.entryCount < U64_MAX)
            && (o == Failed(InvalidAmount) <==> from in env.auths && amount <= 0)
            && (o.Failed? ==> o.error in {InvalidAmount, Overflow})
            && (o.Done? ==>
                  var next := o.world;
                  && OnlyMoney(v.tr, next.tr) && next.tr.programs == v.tr.programs
                  && Logs(v.tr, next.tr, Entry(Deposit, amount, from, None, env.sequence))
                  && next.tr.balance == v.tr.balance + amount
                  && forall a :: BalanceOf(next.bal, a) == BalanceOf(v.bal, a)
                                   + (if a == v.tr.self then amount else 0) - (if a == from then amount else 0))
  {
    StatsAddUp(v.tr);
    if Transfer(v.bal, from, v.tr.self, amount).Some? {
      TransferConserves(v.bal, from, v.tr.self, amount);
    }
  }

  /** What a completed withdrawal pays, and to whom. */
  lemma WithdrawPays(v: Vault, env: Env, to: Address, amount: I128)
    requires TreasuryInvariant(v.tr)
    ensures var o := Withdraw(v, env, to, amount);
            && (o == Failed(InvalidAmount) <==> CouncilApproves(v.tr, env.auths) && amount <= 0)
            && (o == Failed(InsufficientBalance) <==>
                CouncilApproves(v.tr, env.auths) && amount > 0 && amount > v.tr.balance)
            && (o.Failed? ==> o.error in {InvalidAmount, InsufficientBalance})
            && (o.Done? ==>
                  var next := o.world;
                  && OnlyMoney(v.tr, next.tr) && next.tr.programs == v.tr.programs
                  && Logs(v.tr, next.tr, Entry(Withdrawal, amount, v.tr.self, Some(to), env.sequence))
                  && next.tr.balance == v.tr.balance - amount
                  && forall a :: BalanceOf(next.bal, a) == BalanceOf(v.bal, a)
                                   + (if a == to then amount else 0) - (if a == v.tr.self then amount else 0))
  {
    StatsAddUp(v.tr);
    if Transfer(v.bal, v.tr.self, to, amount).Some? {
      TransferConserves(v.bal, v.tr.self, to, amount);
    }
  }

  ghost predicate ActiveProgram(tr: State, id: U64) {
    id in tr.programs && tr.programs[id].active
  }

  /** `allocate` can spend a program's budget and the treasury's balance to the last unit. Neither
      checked addition can then be out of range. */
  lemma AllocateExactly(v: Vault, env: Env, id: U64, amount: I128)
    requires TreasuryInvariant(v.tr)
    ensures var o := Allocate(v, env, id, amount);
            && (o.Done? <==> && CouncilApproves(v.tr, env.auths) && ActiveProgram(v.tr, id)
                             && 0 < amount <= v.tr.programs[id].budget - v.tr.programs[id].spent
                             && amount <= v.tr.balance && v.tr.entryCount < U64_MAX)
            && (o == Failed(InvalidAmount) <==> CouncilApproves(v.tr, env.auths) && amount <= 0)
            && (o == Failed(ProgramNotFound) <==>
                CouncilApproves(v.tr, env.auths) && amount > 0 && id !in v.tr.programs)
            && (o == Failed(ProgramInactive) <==>
                && CouncilApproves(v.tr, env.auths) && amount > 0
                && id in v.tr.programs && !v.tr.programs[id].active)
            && (o == Failed(ProgramOverBudget) <==>
                && CouncilApproves(v.tr, env.auths) && amount > 0 && ActiveProgram(v.tr, id)
                && v.tr.programs[id].budget < v.tr.programs[id].spent + amount <= I128_MAX)
            && (o == Failed(InsufficientBalance) <==>
                && CouncilApproves(v.tr, env.auths) && ActiveProgram(v.tr, id)
                && v.tr.balance < amount && 0 < amount <= v.tr.programs[id].budget - v.tr.programs[id].spent)
  {
    StatsAddUp(v.tr);
  }

  lemma AllocateSpends(v: Vault, env: Env, id: U64, amount: I128)
    requires Allocate(v, env, id, amount).Done?
    ensures var next := Allocate(v, env, id, amount).world;
            && OnlyMoney(v.tr, next.tr) && next.bal == v.bal
            && Logs(v.tr, next.tr, Entry(Allocation, amount, v.tr.self, None, env.sequence))
            && next.tr.balance == v.tr.balance - amount
            && next.tr.programs == v.tr.programs[id := v.tr.programs[id].(spent := v.tr.programs[id].spent + amount)]
  {
  }

  /** The next id is free, and the program starts active with nothing spent. */
  lemma CreateExactly(v: Vault, env: Env, name: string, budget: I128)
    requires TreasuryInvariant(v.tr)
    ensures var o := CreateProgram(v, env, name, budget);
            && (o.Done? <==> && CouncilApproves(v.tr, env.auths) && budget > 0 && 3 <= |name| <= 64
                             && v.tr.programCount < U64_MAX)
            && (o == Failed(InvalidAmount) <==> CouncilApproves(v.tr, env.auths) && budget <= 0)
            && (o == Failed(InvalidProgramName) <==>
                CouncilApproves(v.tr, env.auths) && budget > 0 && !(3 <= |name| <= 64))
            && (o.Failed? ==> o.error in {InvalidAmount, InvalidProgramName})
            && (o.Done? ==>
                  && o.value !in v.tr.programs && ActiveProgram(o.world.tr, o.value)
                  && o.world.tr.programs[o.value].budget == budget && o.world.tr.programs[o.value].spent == 0
                  && o.world.tr.programs[o.value].name == name
                  && o.world == v.(tr := v.tr.(programs := o.world.tr.programs, programCount := o.value))
                  && o.world.tr.programs - {o.value} == v.tr.programs)
  {
  }

  lemma UpdateBudgetExactly(v: Vault, env: Env, id: U64, budget: I128)
    ensures var o := UpdateBudget(v, env, id, budget);
            && (o.Done? <==> CouncilApproves(v.tr, env.auths) && id in v.tr.programs
                             && v.tr.programs[id].spent <= budget)
            && (o == Failed(ProgramNotFound) <==> CouncilApproves(v.tr, env.auths) && id !in v.tr.programs)
            && (o == Failed(InvalidAmount) <==>
                CouncilApproves(v.tr, env.auths) && id in v.tr.programs && budget < v.tr.programs[id].spent)
            && (o.Done? ==>
                  && o.world == v.(tr := v.tr.(programs := o.world.tr.programs))
                  && o.world.tr.programs == v.tr.programs[id := v.tr.programs[id].(budget := budget)])
  {
  }

  lemma DeactivateExactly(v: Vault, env: Env, id: U64)
    ensures var o := Deactivate(v, env, id);
            && (o.Done? <==> CouncilApproves(v.tr, env.auths) && id in v.tr.programs)
            && (o == Failed(ProgramNotFound) <==> CouncilApproves(v.tr, env.auths) && id !in v.tr.programs)
            && (o.Done? ==>
                  && o.world == v.(tr := v.tr.(programs := o.world.tr.programs))
                  && !ActiveProgram(o.world.tr, id)
                  && o.world.tr.programs == v.tr.programs[id := v.tr.programs[id].(active := false)])
  {
  }
}

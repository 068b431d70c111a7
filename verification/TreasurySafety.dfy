/** The treasury's stores agree with a replay of its log, and with its programs, after every step. */
module TreasurySafety {
  import opened Base
  import opened MapSum
  import opened Council
  import opened Treasury

  datatype Totals = Totals(balance: int, deposited: int, withdrawn: int, granted: int)

  ghost predicate Holds(entries: map<U64, Entry>, n: int) {
    0 <= n <= U64_MAX && forall i: U64 :: 1 <= i <= n ==> i in entries
  }

  /** The totals after the first `n` entries. */
  ghost function Replay(entries: map<U64, Entry>, n: nat): Totals
    requires Holds(entries, n)
  {
    if n == 0 then Totals(0, 0, 0, 0) else
      var t, a := Replay(entries, n - 1), entries[n].amount;
      match entries[n].kind
      case Deposit => t.(balance := t.balance + a, deposited := t.deposited + a)
      case Withdrawal => t.(balance := t.balance - a, withdrawn := t.withdrawn + a)
      case Allocation => t.(balance := t.balance - a, granted := t.granted + a)
  }

  /** What the first `n` entries withdrew to one recipient. */
  ghost function WithdrawnTo(entries: map<U64, Entry>, n: nat, to: Address): int
    requires Holds(entries, n)
  {
    if n == 0 then 0 else
      WithdrawnTo(entries, n - 1, to)
      + if entries[n].kind == Withdrawal && entries[n].recipient == Some(to) then entries[n].amount else 0
  }

  ghost predicate LogIdsExact(tr: State) {
    forall i: U64 :: i in tr.entries <==> 1 <= i <= tr.entryCount
  }

  ghost predicate LogInvariant(tr: State) {
    && LogIdsExact(tr)
    && Replay(tr.entries, tr.entryCount) == Totals(tr.balance, tr.stats.lifetimeDeposited,
                                                   tr.stats.lifetimeWithdrawn, tr.stats.lifetimeAllocated)
    && (forall i :: i in tr.entries ==> tr.entries[i].amount > 0)
    && (forall k: nat :: k <= tr.entryCount ==> Replay(tr.entries, k).balance >= 0)
    && (tr.council.None? ==> tr.entryCount == 0)
    && tr.stats.current == 0
  }

  function SpentOf(p: Program): int { p.spent }

  ghost predicate ProgramInvariant(tr: State) {
    && (forall id: U64 :: id in tr.programs <==> 1 <= id <= tr.programCount)
    && (forall id :: id in tr.programs ==>
          tr.programs[id].id == id && 0 <= tr.programs[id].spent <= tr.programs[id].budget)
    && SumBy(tr.programs, SpentOf) == tr.stats.lifetimeAllocated
  }

  ghost predicate TreasuryInvariant(tr: State) {
    LogInvariant(tr) && ProgramInvariant(tr) && (tr.council.Some? ==> Accepted(tr.council.value))
  }

  /** The identity behind the dashboard statistics, at every point of every log. */
  lemma {:induction false} ReplayIdentity(entries: map<U64, Entry>, n: nat)
    requires Holds(entries, n) && forall i :: i in entries ==> entries[i].amount > 0
    ensures var t := Replay(entries, n);
            && t.deposited == t.balance + t.withdrawn + t.granted
            && t.deposited >= 0 && t.withdrawn >= 0 && t.granted >= 0
  {
    if n > 0 {
      ReplayIdentity(entries, n - 1);
    }
  }

  lemma {:induction false} ReplayFrame(a: map<U64, Entry>, b: map<U64, Entry>, n: nat)
    requires Holds(a, n) && Holds(b, n) && forall i: U64 :: 1 <= i <= n ==> a[i] == b[i]
    ensures Replay(a, n) == Replay(b, n)
    ensures forall to :: WithdrawnTo(a, n, to) == WithdrawnTo(b, n, to)
  {
    if n > 0 {
      ReplayFrame(a, b, n - 1);
    }
  }

  lemma StatsAddUp(tr: State)
    requires LogInvariant(tr)
    ensures var s := ReadStats(tr);
            && s.lifetimeDeposited == s.current + s.lifetimeWithdrawn + s.lifetimeAllocated
            && s.current >= 0 && s.lifetimeWithdrawn >= 0 && s.lifetimeAllocated >= 0
  {
    ReplayIdentity(tr.entries, tr.entryCount);
    assert Replay(tr.entries, tr.entryCount).balance >= 0;
  }

  /** Appending one entry: the log invariant and the withdrawal totals follow from the entry alone. */
  lemma RecordKeepsLog(tr: State, next: State, e: Entry)
    requires LogInvariant(tr) && tr.council.Some? && tr.entryCount < U64_MAX && e.amount > 0
    requires next.council.Some? && next.stats.current == 0
    requires next.entries == tr.entries[tr.entryCount + 1 := e] && next.entryCount == tr.entryCount + 1
    requires next.balance >= 0 && next.balance == tr.balance + (if e.kind == Deposit then e.amount else -e.amount)
    requires next.stats.lifetimeDeposited == tr.stats.lifetimeDeposited + (if e.kind == Deposit then e.amount else 0)
    requires next.stats.lifetimeWithdrawn == tr.stats.lifetimeWithdrawn + (if e.kind == Withdrawal then e.amount else 0)
    requires next.stats.lifetimeAllocated == tr.stats.lifetimeAllocated + (if e.kind == Allocation then e.amount else 0)
    ensures LogInvariant(next)
    ensures forall to :: WithdrawnTo(next.entries, next.entryCount, to) ==
                         WithdrawnTo(tr.entries, tr.entryCount, to)
                         + if e.kind == Withdrawal && e.recipient == Some(to) then e.amount else 0
  {
    forall k: nat | k <= tr.entryCount
      ensures Holds(next.entries, k) && Replay(next.entries, k) == Replay(tr.entries, k)
      ensures forall to :: WithdrawnTo(next.entries, k, to) == WithdrawnTo(tr.entries, k, to)
    {
      ReplayFrame(tr.entries, next.entries, k);
    }
    assert Replay(next.entries, tr.entryCount) == Replay(tr.entries, tr.entryCount);
  }

  // ---- What no later step undoes ----

  /** The council stands, the log only grows, entries and programs stay, and a deactivated program
      is frozen. */
  ghost predicate Continues(a: State, b: State) {
    && a.self == b.self && a.entryCount <= b.entryCount
    && (a.council.Some? ==> b.council == a.council)
    && (forall i :: i in a.entries ==> i in b.entries && b.entries[i] == a.entries[i])
    && (forall id :: id in a.programs ==> id in b.programs && ProgramContinues(a.programs[id], b.programs[id]))
  }

  predicate ProgramContinues(p: Program, q: Program) {
    q.id == p.id && q.name == p.name && q.spent >= p.spent && (!p.active ==> !q.active && q.spent == p.spent)
  }

  // ---- One step ----

  /** What a step keeps, and what it withdraws to anyone. */
  ghost predicate GoodStep(a: State, b: State) {
    TreasuryInvariant(b) && Continues(a, b)
  }

  lemma DepositStep(v: Vault, env: Env, from: Address, amount: I128)
    requires TreasuryInvariant(v.tr)
    ensures var o := MakeDeposit(v, env, from, amount);
            && GoodStep(v.tr, WorldAfter(v, o).tr)
            && (o.Done? ==> forall to :: WithdrawnTo(o.world.tr.entries, o.world.tr.entryCount, to)
                                         == WithdrawnTo(v.tr.entries, v.tr.entryCount, to))
  {
    var o := MakeDeposit(v, env, from, amount);
    if o.Done? {
      StatsAddUp(v.tr);
      RecordKeepsLog(v.tr, o.world.tr, Entry(Deposit, amount, from, None, env.sequence));
    }
  }

  lemma WithdrawStep(v: Vault, env: Env, to: Address, amount: I128)
    requires TreasuryInvariant(v.tr)
    ensures var o := Withdraw(v, env, to, amount);
            && GoodStep(v.tr, WorldAfter(v, o).tr)
            && (o.Done? ==> forall a :: WithdrawnTo(o.world.tr.entries, o.world.tr.entryCount, a)
                                        == WithdrawnTo(v.tr.entries, v.tr.entryCount, a)
                                           + if a == to then amount else 0)
  {
    var o := Withdraw(v, env, to, amount);
    if o.Done? {
      RecordKeepsLog(v.tr, o.world.tr, Entry(Withdrawal, amount, v.tr.self, Some(to), env.sequence));
    }
  }

  lemma AllocateStep(v: Vault, env: Env, id: U64, amount: I128)
    requires TreasuryInvariant(v.tr)
    ensures var o := Allocate(v, env, id, amount);
            && GoodStep(v.tr, WorldAfter(v, o).tr)
            && (o.Done? ==> forall to :: WithdrawnTo(o.world.tr.entries, o.world.tr.entryCount, to)
                                         == WithdrawnTo(v.tr.entries, v.tr.entryCount, to))
  {
    var o := Allocate(v, env, id, amount);
    if o.Done? {
      RecordKeepsLog(v.tr, o.world.tr, Entry(Allocation, amount, v.tr.self, None, env.sequence));
      SumByUpdate(v.tr.programs, SpentOf, id, o.world.tr.programs[id]);
    }
  }

  lemma ProgramStep(tr: State, id: U64, p: Program, count: U64)
    requires TreasuryInvariant(tr)
    requires p.id == id && 0 <= p.spent <= p.budget
    requires if id in tr.programs then count == tr.programCount && p.spent == tr.programs[id].spent
                                       && ProgramContinues(tr.programs[id], p)
             else id == count == tr.programCount + 1 && p.spent == 0
    ensures GoodStep(tr, tr.(programs := tr.programs[id := p], programCount := count))
  {
    SumByUpdate(tr.programs, SpentOf, id, p);
  }

  /** Every treasury call keeps the invariant and undoes nothing. */
  lemma EveryStepGood(v: Vault, env: Env, call: Call)
    requires TreasuryInvariant(v.tr)
    ensures GoodStep(v.tr, Apply(v, env, call).tr)
  {
    match call
    case CallInitialize(c) =>
      assert Replay(v.tr.entries, v.tr.entryCount).balance == v.tr.balance;
    case CallDeposit(from, a) => DepositStep(v, env, from, a);
    case CallWithdraw(to, a) => WithdrawStep(v, env, to, a);
    case CallCreateProgram(name, b) =>
      var o := CreateProgram(v, env, name, b);
      if o.Done? {
        ProgramStep(v.tr, o.value, o.world.tr.programs[o.value], o.value);
      }
    case CallUpdateBudget(id, b) =>
      var o := UpdateBudget(v, env, id, b);
      if o.Done? {
        ProgramStep(v.tr, id, o.world.tr.programs[id], v.tr.programCount);
      }
    case CallDeactivate(id) =>
      var o := Deactivate(v, env, id);
      if o.Done? {
        ProgramStep(v.tr, id, o.world.tr.programs[id], v.tr.programCount);
      }
    case CallAllocate(id, a) => AllocateStep(v, env, id, a);
  }

  // ---- When the checked additions fail ----

  /** The balance check of `deposit` is implied by its statistics check, `withdraw` never
      overflows, and `allocate` does only on a program's spent total. */
  lemma OverflowExactly(v: Vault, env: Env, a: Address, id: U64, amount: I128)
    requires TreasuryInvariant(v.tr)
    ensures MakeDeposit(v, env, a, amount) == Failed(Overflow) <==>
            a in env.auths && amount > 0 && v.tr.stats.lifetimeDeposited + amount > I128_MAX
    ensures Withdraw(v, env, a, amount) != Failed(Overflow)
    ensures Allocate(v, env, id, amount) == Failed(Overflow) <==>
            && CouncilApproves(v.tr, env.auths) && amount > 0
            && id in v.tr.programs && v.tr.programs[id].active
            && v.tr.programs[id].spent + amount > I128_MAX
  {
    StatsAddUp(v.tr);
  }
}

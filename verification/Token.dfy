/** The shared token: one balance an address, moved by `transfer`. */
module Token {
  import opened Base
  import opened MapSum

  type Funds = x: int | 0 <= x <= I128_MAX
  type Balances = map<Address, Funds>

  function BalanceOf(b: Balances, a: Address): Funds {
    if a in b then b[a] else 0
  }

  /** Debit first, then credit: a transfer to oneself moves nothing. `None` is a panic. */
  function Transfer(b: Balances, from: Address, to: Address, amount: I128): Option<Balances> {
    if amount < 0 || BalanceOf(b, from) < amount then None
    else
      var debited := b[from := BalanceOf(b, from) - amount];
      if BalanceOf(debited, to) + amount > I128_MAX then None
      else Some(debited[to := BalanceOf(debited, to) + amount])
  }

  function Mint(b: Balances, to: Address, amount: I128): Option<Balances> {
    if amount < 0 || BalanceOf(b, to) + amount > I128_MAX then None
    else Some(b[to := BalanceOf(b, to) + amount])
  }

  function Identity(x: Funds): int { x }

  ghost function Supply(b: Balances): int {
    SumBy<Address, Funds>(b, Identity)
  }

  /** A transfer conserves the supply, and moves the amount between two distinct holders only. */
  lemma TransferConserves(b: Balances, from: Address, to: Address, amount: I128)
    requires Transfer(b, from, to, amount).Some?
    ensures var after := Transfer(b, from, to, amount).value;
            && Supply(after) == Supply(b)
            && forall a :: BalanceOf(after, a) == BalanceOf(b, a)
                 - (if a == from then amount else 0) + (if a == to then amount else 0)
  {
    var debited := b[from := BalanceOf(b, from) - amount];
    SumByUpdate<Address, Funds>(b, Identity, from, BalanceOf(b, from) - amount);
    SumByUpdate<Address, Funds>(debited, Identity, to, BalanceOf(debited, to) + amount);
  }

  class TokenContract {
    var balances: Balances

    constructor(initial: Balances)
      ensures balances == initial
    {
      balances := initial;
    }

    method TransferTokens(from: Address, to: Address, amount: I128) returns (moved: bool)
      modifies this
      ensures moved <==> Transfer(old(balances), from, to, amount).Some?
      ensures balances == if moved then Transfer(old(balances), from, to, amount).value else old(balances)
    {
      var held := BalanceOf(balances, from);
      if amount < 0 || held < amount {
        return false;
      }
      var before := balances;
      balances := balances[from := held - amount];
      var credited := BalanceOf(balances, to) + amount;
      if credited > I128_MAX {
        balances := before;
        return false;
      }
      balances := balances[to := credited];
      return true;
    }
  }
}

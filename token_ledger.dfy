/** The external token the marketplace settles in, seen only through the
    interface the marketplace calls: balances, allowances granted to a
    spender, `transferFrom` and `transfer`. */
module TokenLedger {
  import opened Types

  /** The balance of `who`; an account never credited holds 0. */
  function BalanceOf(balances: map<Address, nat>, who: Address): nat
  {
    if who in balances then balances[who] else 0
  }

  /** The balances after `amount` moves from `from` to `to`. */
  function Move(balances: map<Address, nat>, from: Address, to: Address, amount: nat): (r: map<Address, nat>)
    requires amount <= BalanceOf(balances, from)
    ensures from != to ==> BalanceOf(r, from) == BalanceOf(balances, from) - amount
    ensures from != to ==> BalanceOf(r, to) == BalanceOf(balances, to) + amount
    ensures from == to ==> forall h :: BalanceOf(r, h) == BalanceOf(balances, h)
    ensures forall h :: h != from && h != to ==> BalanceOf(r, h) == BalanceOf(balances, h)
  {
    var debited := balances[from := BalanceOf(balances, from) - amount];
    debited[to := BalanceOf(debited, to) + amount]
  }

  /** The total supply held across all accounts. */
  ghost function Total(balances: map<Address, nat>): nat
    decreases |balances|
  {
    if balances == map[] then 0
    else
      var k :| k in balances;
      balances[k] + Total(balances - {k})
  }

  /** The total is any one account's balance plus the total of the rest. */
  lemma {:induction false} TotalWithout(balances: map<Address, nat>, k: Address)
    requires k in balances
    ensures Total(balances) == balances[k] + Total(balances - {k})
    decreases |balances|
  {
    var j :| j in balances && Total(balances) == balances[j] + Total(balances - {j});
    if j != k {
      TotalWithout(balances - {j}, k);
      TotalWithout(balances - {k}, j);
      assert balances - {j} - {k} == balances - {k} - {j};
    }
  }

  /** Setting one balance changes the total by the difference. */
  lemma TotalUpdate(balances: map<Address, nat>, k: Address, v: nat)
    ensures Total(balances[k := v]) + BalanceOf(balances, k) == Total(balances) + v
  {
    var updated := balances[k := v];
    TotalWithout(updated, k);
    if k in balances {
      TotalWithout(balances, k);
      assert updated - {k} == balances - {k};
    } else {
      assert updated - {k} == balances;
    }
  }

  /** A transfer creates and destroys nothing: the total supply is unchanged. */
  lemma MoveConserves(balances: map<Address, nat>, from: Address, to: Address, amount: nat)
    requires amount <= BalanceOf(balances, from)
    ensures Total(Move(balances, from, to, amount)) == Total(balances)
  {
    var debited := balances[from := BalanceOf(balances, from) - amount];
    TotalUpdate(balances, from, BalanceOf(balances, from) - amount);
    TotalUpdate(debited, to, BalanceOf(debited, to) + amount);
  }

  /** One deployed token contract. */
  class Token {
    var balances: map<Address, nat>
    /** `allowances[(holder, spender)]`: how much `spender` may still move out of `holder`'s balance. */
    var allowances: map<(Address, Address), nat>

    /** A token in the given state (the faucet and `approve` calls that set it
        up are not part of this model). */
    constructor (balances: map<Address, nat>, allowances: map<(Address, Address), nat>)
      ensures this.balances == balances && this.allowances == allowances
    {
      this.balances := balances;
      this.allowances := allowances;
    }

    function Balance(who: Address): nat
      reads this
    {
      BalanceOf(balances, who)
    }

    function Allowance(holder: Address, spender: Address): nat
      reads this
    {
      if (holder, spender) in allowances then allowances[(holder, spender)] else 0
    }

    /** `transferFrom` called by `spender`: succeeds exactly when `from` holds
        `amount` and has allowed `spender` at least `amount`, and then moves it
        and spends that much of the allowance. A failure changes nothing. */
    method TransferFrom(spender: Address, from: Address, to: Address, amount: nat) returns (ok: bool)
      modifies this
      ensures ok <==> amount <= old(Balance(from)) && amount <= old(Allowance(from, spender))
      ensures ok ==> balances == Move(old(balances), from, to, amount)
      ensures ok ==> allowances == old(allowances)[(from, spender) := old(Allowance(from, spender)) - amount]
      ensures !ok ==> unchanged(this)
      ensures Total(balances) == old(Total(balances))
    {
      if amount <= Balance(from) && amount <= Allowance(from, spender) {
        MoveConserves(balances, from, to, amount);
        allowances := allowances[(from, spender) := Allowance(from, spender) - amount];
        balances := Move(balances, from, to, amount);
        ok := true;
      } else {
        ok := false;
      }
    }

    /** `transfer` called by `from`: succeeds exactly when `from` holds `amount`. */
    method Transfer(from: Address, to: Address, amount: nat) returns (ok: bool)
      modifies this
      ensures ok <==> amount <= old(Balance(from))
      ensures ok ==> balances == Move(old(balances), from, to, amount)
      ensures allowances == old(allowances)
      ensures !ok ==> unchanged(this)
      ensures Total(balances) == old(Total(balances))
    {
      if amount <= Balance(from) {
        MoveConserves(balances, from, to, amount);
        balances := Move(balances, from, to, amount);
        ok := true;
      } else {
        ok := false;
      }
    }
  }
}

/** The token contracts the registry calls. A transfer that lacks funds fails the whole call. */
module Token {
  import opened Basics
  import opened Types

  function BalanceOf(ledger: Ledger, token: Address, holder: Address): int {
    Lookup(ledger, Account(token, holder), 0)
  }

  function Transfer(ledger: Ledger, token: Address, from: Address, to: Address, amount: int): Result<Ledger> {
    if amount < 0 || BalanceOf(ledger, token, from) < amount then Err(HostPanic)
    else
      var debited := ledger[Account(token, from) := BalanceOf(ledger, token, from) - amount];
      Ok(debited[Account(token, to) := BalanceOf(debited, token, to) + amount])
  }

  /** A transfer moves the amount between its two accounts and touches no other. */
  lemma TransferMoves(ledger: Ledger, token: Address, from: Address, to: Address, amount: int)
    ensures Transfer(ledger, token, from, to, amount).Ok?
       <==> 0 <= amount <= BalanceOf(ledger, token, from)
    ensures var r := Transfer(ledger, token, from, to, amount);
            r.Ok? ==> forall t, a ::
                        BalanceOf(r.value, t, a) == BalanceOf(ledger, t, a)
                          + (if t == token && a == to then amount else 0)
                          - (if t == token && a == from then amount else 0)
  {
  }
}

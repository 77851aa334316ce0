/**
 * The two SPL token program instructions the liquidity pool calls, on the
 * balances they touch. Both are all-or-nothing: they either apply in full or
 * fail without changing any balance.
 */
module Token {
  import opened Wrappers
  import opened Errors
  import opened States

  /** Balances of the source and the destination account after a transfer. */
  datatype Moved = Moved(from: U64, to: U64)

  /**
   * `token::transfer` of `amount` from an account holding `from` to one
   * holding `to`: the source must cover the amount, and the destination
   * must not pass the u64 limit.
   */
  function Transfer(from: U64, to: U64, amount: U64): (r: Result<Moved, ErrorCode>)
    ensures r.Ok? <==> amount <= from && to + amount <= U64_MAX
    ensures r.Err? ==> (r.error == InsufficientFunds <==> amount > from)
    ensures r.Err? ==> r.error in {InsufficientFunds, Overflow}
    ensures r.Ok? ==> r.value.from + r.value.to == from + to && r.value.to == to + amount
  {
    if from < amount then Err(InsufficientFunds)
    else if to + amount > U64_MAX then Err(Overflow)
    else Ok(Moved(from - amount, to + amount))
  }

  /** Supply of a mint and balance of the credited account after a mint. */
  datatype Minted = Minted(supply: U64, to: U64)

  /**
   * `token::mint_to` of `amount` into an account holding `to`, for a mint
   * whose supply is `supply`: neither the account nor the supply may pass
   * the u64 limit.
   */
  function MintTo(supply: U64, to: U64, amount: U64): (r: Result<Minted, ErrorCode>)
    ensures r.Ok? <==> to + amount <= U64_MAX && supply + amount <= U64_MAX
    ensures r.Err? ==> r.error == Overflow
    ensures r.Ok? ==> r.value.supply - supply == r.value.to - to == amount
  {
    if to + amount > U64_MAX || supply + amount > U64_MAX then Err(Overflow)
    else Ok(Minted(supply + amount, to + amount))
  }
}

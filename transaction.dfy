/**
 * The deposit and settlement instructions of
 * programs/liquidity_pool/src/instructions/transaction.rs, as functions from
 * the accounts before the instruction to the accounts after it. The Anchor
 * account checks run first, in the order the accounts are declared; an
 * error anywhere leaves every account as it was. These functions are the
 * reference definitions; the in-place methods of `Program.LiquidityPool`
 * are proved to agree with them.
 */
module Transaction {
  import opened Wrappers
  import opened Errors
  import opened States
  import opened Sums
  import opened Accounts
  import Token

  /** The fixed number of pool-token base units a settlement in the success branch mints. */
  const MINT_AMOUNT: U64 := 10

  /**
   * `add_liquidity`: `owner` moves `amountIn` deposit tokens into the vault
   * and a fresh record of the deposit is created at the owner's address.
   */
  function AddLiquidity(w: World, owner: Pubkey, amountIn: U64): (r: Result<World, ErrorCode>) {
    if w.pool.None? || owner !in w.userBase then Err(AccountNotInitialized)
    else if owner in w.records then Err(AccountAlreadyInUse)
    else if !w.pool.value.state.isActive then Err(PoolNotActive)
    else if amountIn > w.userBase[owner] then Err(NotEnoughBalance)
    else
      var p := w.pool.value;
      match Token.Transfer(w.userBase[owner], p.vault, amountIn)
      case Err(e) => Err(e)
      case Ok(moved) =>
        var record := DefaultTransactionAccount().(authority := owner, amount := amountIn);
        Ok(w.(pool := Some(p.(vault := moved.to)),
              userBase := w.userBase[owner := moved.from],
              records := w.records[owner := record]))
  }

  /** The settlement rule: the live vault balance has reached the target. */
  function ThresholdMet(p: PoolAccounts): (met: bool) {
    p.vault >= p.state.lpSupply
  }

  /** The accounts `ask_output` reads all exist for `owner`. */
  predicate CanSettle(w: World, owner: Pubkey) {
    w.pool.Some? && owner in w.userBase && owner in w.userPool && owner in w.records
  }

  /** Success branch of `ask_output`: mint 10 pool tokens to the owner and close the record. */
  function Convert(w: World, owner: Pubkey): (r: Result<World, ErrorCode>)
    requires CanSettle(w, owner)
  {
    var p := w.pool.value;
    match Token.MintTo(p.poolMint.supply, w.userPool[owner], MINT_AMOUNT)
    case Err(e) => Err(e)
    case Ok(minted) =>
      Ok(w.(pool := Some(p.(poolMint := p.poolMint.(supply := minted.supply))),
            userPool := w.userPool[owner := minted.to],
            records := w.records - {owner}))
  }

  /** Refund branch of `ask_output`: return the recorded amount from the vault and close the record. */
  function Refund(w: World, owner: Pubkey): (r: Result<World, ErrorCode>)
    requires CanSettle(w, owner)
  {
    var p := w.pool.value;
    match Token.Transfer(p.vault, w.userBase[owner], w.records[owner].amount)
    case Err(e) => Err(e)
    case Ok(moved) =>
      Ok(w.(pool := Some(p.(vault := moved.from)),
            userBase := w.userBase[owner := moved.to],
            records := w.records - {owner}))
  }

  /**
   * `ask_output`: on a disabled pool, `owner` either receives 10 freshly
   * minted pool tokens (vault at or above the target) or gets the recorded
   * deposit back from the vault (vault below the target); the record is
   * then closed.
   */
  function AskOutput(w: World, owner: Pubkey): (r: Result<World, ErrorCode>) {
    if !CanSettle(w, owner) then Err(AccountNotInitialized)
    else if w.pool.value.state.isActive then Err(PoolStillActive)
    else if ThresholdMet(w.pool.value) then Convert(w, owner)
    else Refund(w, owner)
  }

  // ----- add_liquidity -----

  /** A disabled pool takes no deposit; once the accounts check out, the error is `PoolNotActive`. */
  lemma AddLiquidityRejectsInactivePool(w: World, owner: Pubkey, amountIn: U64)
    requires w.pool.Some? && !w.pool.value.state.isActive
    ensures AddLiquidity(w, owner, amountIn).Err?
    ensures owner in w.userBase && owner !in w.records ==>
      AddLiquidity(w, owner, amountIn) == Err(PoolNotActive)
  {
  }

  /** A deposit above the owner's balance is refused with `NotEnoughBalance` once the earlier checks pass. */
  lemma AddLiquidityRejectsOverdraft(w: World, owner: Pubkey, amountIn: U64)
    requires owner in w.userBase && amountIn > w.userBase[owner]
    ensures AddLiquidity(w, owner, amountIn).Err?
    ensures w.pool.Some? && w.pool.value.state.isActive && owner !in w.records ==>
      AddLiquidity(w, owner, amountIn) == Err(NotEnoughBalance)
  {
  }

  /**
   * The record is `init`: while `owner` has an open record no deposit is
   * taken, so an owner never has two records and a record is never
   * overwritten or topped up.
   */
  lemma AddLiquidityRequiresNoRecord(w: World, owner: Pubkey, amountIn: U64)
    requires owner in w.records
    ensures AddLiquidity(w, owner, amountIn).Err?
    ensures w.pool.Some? && owner in w.userBase ==>
      AddLiquidity(w, owner, amountIn) == Err(AccountAlreadyInUse)
  {
  }

  /**
   * A successful deposit takes exactly `amountIn` from the owner, puts exactly
   * `amountIn` in the vault, records `authority = owner, amount = amountIn`
   * (never paid), and changes nothing else.
   */
  lemma AddLiquidityEffects(w: World, owner: Pubkey, amountIn: U64)
    requires AddLiquidity(w, owner, amountIn).Ok?
    ensures var w' := AddLiquidity(w, owner, amountIn).value;
      && w.pool.Some? && w'.pool.Some? && owner in w.userBase
      && w'.userBase == w.userBase[owner := w.userBase[owner] - amountIn]
      && w'.pool.value.vault == w.pool.value.vault + amountIn
      && w'.records == w.records[owner := TransactionAccount(owner, amountIn, false)]
      && w'.pool.value.state == w.pool.value.state
      && w'.pool.value.poolMint == w.pool.value.poolMint
      && w'.userPool == w.userPool
  {
  }

  /** A deposit moves tokens, it never creates or destroys them. */
  lemma AddLiquidityConservesBase(w: World, owner: Pubkey, amountIn: U64)
    requires AddLiquidity(w, owner, amountIn).Ok?
    ensures TotalBase(AddLiquidity(w, owner, amountIn).value) == TotalBase(w)
  {
    SumUpdate(w.userBase, owner, w.userBase[owner] - amountIn);
  }

  /**
   * On a consistent state the vault can never overflow: a deposit succeeds
   * exactly when the accounts exist, the owner has no open record, the pool
   * is active and the owner's balance covers the amount.
   */
  lemma AddLiquiditySucceedsWhenReady(w: World, owner: Pubkey, amountIn: U64)
    requires Valid(w)
    ensures AddLiquidity(w, owner, amountIn).Ok? <==>
      && w.pool.Some? && owner in w.userBase && owner !in w.records
      && w.pool.value.state.isActive && amountIn <= w.userBase[owner]
  {
    if owner in w.userBase {
      BalanceAtMostSum(w.userBase, owner);
    }
  }

  /** A deposit keeps the account invariant. */
  lemma AddLiquidityPreservesValid(w: World, owner: Pubkey, amountIn: U64)
    requires Valid(w) && AddLiquidity(w, owner, amountIn).Ok?
    ensures Valid(AddLiquidity(w, owner, amountIn).value)
  {
    AddLiquidityConservesBase(w, owner, amountIn);
    AmountsAdd(w.records, owner, TransactionAccount(owner, amountIn, false));
  }

  // ----- ask_output -----

  /** An active pool settles nobody; once the accounts check out, the error is `PoolStillActive`. */
  lemma AskOutputRejectsActivePool(w: World, owner: Pubkey)
    requires w.pool.Some? && w.pool.value.state.isActive
    ensures AskOutput(w, owner).Err?
    ensures owner in w.userBase && owner in w.userPool && owner in w.records ==>
      AskOutput(w, owner) == Err(PoolStillActive)
  {
  }

  /**
   * Success branch: with the vault at or above the target, the owner gets
   * exactly 10 pool tokens, whatever they deposited, and the vault and the
   * owner's deposit-token balance stay as they were.
   */
  lemma AskOutputConverts(w: World, owner: Pubkey)
    requires AskOutput(w, owner).Ok? && ThresholdMet(w.pool.value)
    ensures var w' := AskOutput(w, owner).value;
      && w'.pool.Some? && owner in w.userPool
      && w'.userPool == w.userPool[owner := w.userPool[owner] + 10]
      && w'.pool.value.poolMint.supply == w.pool.value.poolMint.supply + 10
      && w'.pool.value.vault == w.pool.value.vault
      && w'.userBase == w.userBase
      && w'.records == w.records - {owner}
  {
  }

  /**
   * Refund branch: with the vault below the target, exactly the recorded
   * amount goes back from the vault to the owner, and no pool token is minted.
   */
  lemma AskOutputRefunds(w: World, owner: Pubkey)
    requires AskOutput(w, owner).Ok? && !ThresholdMet(w.pool.value)
    ensures var w' := AskOutput(w, owner).value;
      && w'.pool.Some? && owner in w.userBase && owner in w.records
      && w'.pool.value.vault == w.pool.value.vault - w.records[owner].amount
      && w'.userBase == w.userBase[owner := w.userBase[owner] + w.records[owner].amount]
      && w'.userPool == w.userPool
      && w'.pool.value.poolMint == w.pool.value.poolMint
      && w'.records == w.records - {owner}
  {
  }

  /**
   * Settling closes the owner's record: asking again pays nothing and fails,
   * while a new deposit by the same owner is no longer blocked by a record.
   */
  lemma AskOutputSettlesOnce(w: World, owner: Pubkey, amountIn: U64)
    requires AskOutput(w, owner).Ok?
    ensures var w' := AskOutput(w, owner).value;
      && owner !in w'.records
      && AskOutput(w', owner) == Err(AccountNotInitialized)
      && AddLiquidity(w', owner, amountIn) != Err(AccountAlreadyInUse)
  {
  }

  /** A settlement moves or mints tokens, it never creates or destroys deposit tokens. */
  lemma AskOutputConservesBase(w: World, owner: Pubkey)
    requires AskOutput(w, owner).Ok?
    ensures TotalBase(AskOutput(w, owner).value) == TotalBase(w)
  {
    if !ThresholdMet(w.pool.value) {
      SumUpdate(w.userBase, owner, w.userBase[owner] + w.records[owner].amount);
    }
  }

  /**
   * On a consistent, disabled pool a settlement of an open record can only
   * fail by overflowing the pool-token supply: a refund is always funded
   * and never overflows the owner's account.
   */
  lemma AskOutputSucceedsWhenReady(w: World, owner: Pubkey)
    requires Valid(w) && w.pool.Some? && !w.pool.value.state.isActive
    requires owner in w.userBase && owner in w.userPool && owner in w.records
    ensures AskOutput(w, owner).Ok? <==>
      !ThresholdMet(w.pool.value) || w.pool.value.poolMint.supply + 10 <= U64_MAX
  {
    BalanceAtMostSum(w.userPool, owner);
    BalanceAtMostSum(w.userBase, owner);
    BalanceAtMostSum(Amounts(w.records), owner);
  }

  /** A settlement keeps the account invariant. */
  lemma AskOutputPreservesValid(w: World, owner: Pubkey)
    requires Valid(w) && AskOutput(w, owner).Ok?
    ensures Valid(AskOutput(w, owner).value)
  {
    AskOutputConservesBase(w, owner);
    AmountsRemove(w.records, owner);
    if ThresholdMet(w.pool.value) {
      SumUpdate(w.userPool, owner, w.userPool[owner] + 10);
    }
  }

  /**
   * A settlement never moves the vault across the target: refunds happen only
   * below it and only lower the vault, conversions leave the vault alone. So
   * while the pool stays disabled, and absent token transfers made outside
   * the program, every settler gets the same branch.
   */
  lemma AskOutputKeepsBranch(w: World, owner: Pubkey)
    requires AskOutput(w, owner).Ok?
    ensures ThresholdMet(AskOutput(w, owner).value.pool.value) == ThresholdMet(w.pool.value)
  {
  }

  /** Neither instruction writes the pool state. */
  lemma TransactionsLeavePoolState(w: World, owner: Pubkey, amountIn: U64)
    ensures AddLiquidity(w, owner, amountIn).Ok? ==>
      AddLiquidity(w, owner, amountIn).value.pool.value.state == w.pool.value.state
    ensures AskOutput(w, owner).Ok? ==>
      AskOutput(w, owner).value.pool.value.state == w.pool.value.state
  {
  }
}

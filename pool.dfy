/**
 * The pool lifecycle instructions of programs/liquidity_pool/src/instructions/pool.rs,
 * as functions from the accounts before the instruction to the accounts after it.
 * These functions are the reference definitions; the in-place methods of
 * `Program.LiquidityPool` are proved to agree with them.
 */
module Pool {
  import opened Wrappers
  import opened Errors
  import opened States
  import opened Accounts

  /**
   * `initialize_pool`: creates the pool state (`init` on the mint's address,
   * so a second pool for the same mint is refused), an empty vault and a
   * pool-token mint with 9 decimals, and fills in the three state fields.
   */
  function InitializePool(w: World, authority: Pubkey, lpSupply: U64): (r: Result<World, ErrorCode>) {
    if w.pool.Some? then Err(AccountAlreadyInUse)
    else
      var state := PoolState(lpSupply, CREDIT_OUTSTANDING, true);
      Ok(w.(pool := Some(PoolAccounts(state, 0, Mint(0, POOL_MINT_DECIMALS)))))
  }

  /** Sets `is_active` of an existing pool, the only write the toggles make. */
  function SetActive(w: World, active: bool): (r: Result<World, ErrorCode>) {
    if w.pool.None? then Err(AccountNotInitialized)
    else
      var p := w.pool.value;
      Ok(w.(pool := Some(p.(state := p.state.(isActive := active)))))
  }

  /** `disable_pool`: any signer may close the pool to deposits. */
  function DisablePool(w: World, authority: Pubkey): (r: Result<World, ErrorCode>) {
    SetActive(w, false)
  }

  /** `enable_pool`: any signer may reopen the pool to deposits. */
  function EnablePool(w: World, authority: Pubkey): (r: Result<World, ErrorCode>) {
    SetActive(w, true)
  }

  /** Initialisation succeeds exactly when no pool exists yet, and then sets the configured fields. */
  lemma InitializePoolSetsFields(w: World, authority: Pubkey, lpSupply: U64)
    ensures InitializePool(w, authority, lpSupply).Ok? <==> w.pool.None?
    ensures w.pool.Some? ==> InitializePool(w, authority, lpSupply) == Err(AccountAlreadyInUse)
    ensures InitializePool(w, authority, lpSupply).Ok? ==>
      var w' := InitializePool(w, authority, lpSupply).value;
      && w'.pool.Some?
      && w'.pool.value.state == PoolState(lpSupply, 7348028, true)
      && w'.pool.value.vault == 0
      && w'.pool.value.poolMint == Mint(0, 9)
      && w'.userBase == w.userBase && w'.userPool == w.userPool && w'.records == w.records
  {
  }

  /** A second initialisation of the same pool is always refused. */
  lemma InitializePoolOnce(w: World, authority: Pubkey, lpSupply: U64, authority': Pubkey, lpSupply': U64)
    requires InitializePool(w, authority, lpSupply).Ok?
    ensures InitializePool(InitializePool(w, authority, lpSupply).value, authority', lpSupply') == Err(AccountAlreadyInUse)
  {
  }

  /** `disable_pool` clears `is_active` and writes nothing else. */
  lemma DisablePoolEffect(w: World, authority: Pubkey)
    ensures DisablePool(w, authority).Ok? <==> w.pool.Some?
    ensures DisablePool(w, authority).Ok? ==>
      var w' := DisablePool(w, authority).value;
      && w'.pool.Some? && !w'.pool.value.state.isActive
      && w'.pool.value.state.lpSupply == w.pool.value.state.lpSupply
      && w'.pool.value.state.creditOutstanding == w.pool.value.state.creditOutstanding
      && w'.pool.value.vault == w.pool.value.vault
      && w'.pool.value.poolMint == w.pool.value.poolMint
      && w'.userBase == w.userBase && w'.userPool == w.userPool && w'.records == w.records
  {
  }

  /** `enable_pool` sets `is_active` and writes nothing else. */
  lemma EnablePoolEffect(w: World, authority: Pubkey)
    ensures EnablePool(w, authority).Ok? <==> w.pool.Some?
    ensures EnablePool(w, authority).Ok? ==>
      var w' := EnablePool(w, authority).value;
      && w'.pool.Some? && w'.pool.value.state.isActive
      && w'.pool.value.state.lpSupply == w.pool.value.state.lpSupply
      && w'.pool.value.state.creditOutstanding == w.pool.value.state.creditOutstanding
      && w'.pool.value.vault == w.pool.value.vault
      && w'.pool.value.poolMint == w.pool.value.poolMint
      && w'.userBase == w.userBase && w'.userPool == w.userPool && w'.records == w.records
  {
  }

  /** Disabling (or enabling) twice gives the same accounts as doing it once. */
  lemma TogglesIdempotent(w: World, a: Pubkey, b: Pubkey)
    requires w.pool.Some?
    ensures DisablePool(DisablePool(w, a).value, b) == DisablePool(w, a)
    ensures EnablePool(EnablePool(w, a).value, b) == EnablePool(w, a)
  {
  }

  /** No stored authority is compared: every signer gets the same outcome. */
  lemma TogglesIgnoreSigner(w: World, a: Pubkey, b: Pubkey)
    ensures DisablePool(w, a) == DisablePool(w, b)
    ensures EnablePool(w, a) == EnablePool(w, b)
  {
  }

  /** The lifecycle instructions keep the account invariant. */
  lemma PoolInstructionsPreserveValid(w: World, authority: Pubkey, lpSupply: U64, active: bool)
    requires Valid(w)
    ensures InitializePool(w, authority, lpSupply).Ok? ==> Valid(InitializePool(w, authority, lpSupply).value)
    ensures SetActive(w, active).Ok? ==> Valid(SetActive(w, active).value)
  {
  }
}

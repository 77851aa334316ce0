# Liquidity pool capital raise — Dafny model

This project models the Solana/Anchor program `liquidity_pool`. The program runs an all-or-nothing
capital raise with five instructions:

- `initialize_pool` creates a pool for a deposit mint. It stores a target (`lp_supply`) and the
  constant `credit_outstanding = 7348028`, and marks the pool active. It also creates an empty vault
  and a pool-token mint with 9 decimals.
- `disable_pool` and `enable_pool` flip `is_active`. Any signer may call them.
- `add_liquidity` works only on an active pool. It moves `amount_in` from the depositor's token
  account into the vault and creates the depositor's transaction record (`authority`, `amount`).
- `ask_output` works only on an inactive pool. It compares the vault's current balance with
  `lp_supply`. At or above the target it mints a fixed 10 base units of pool token to the depositor.
  Below the target it refunds the recorded amount from the vault. Either way it closes the record.

The model follows the code. The usual all-or-nothing escrow design has rounds, deadlines, an
authority check, accumulating deposits and pro-rata payouts. This code has none of these, so the
model has none of them either:

- the threshold reads the live vault balance;
- the payout is a constant 10;
- a second deposit while a record is open is refused, not accumulated;
- a zero deposit is accepted;
- pools close only through `disable_pool`.

The test suite only sleeps where it means to close the pool. Against the code as written, its first
`ask_output` therefore fails with `PoolStillActive`. `Scenarios.RoundOneClose` shows that refusal,
and the replay then calls `disable_pool`. `programs/liquidity_pool/src/lib.rs:20-22` calls
`pool::initialize_pool` with three arguments, including `duration_in_minutes`, but
`pool.rs:11-14` takes only two, so the source as given does not compile. The extra argument is not
modelled because no deadline or time logic exists anywhere in the program.

Layout:

- `states.dfy`: the two account records and the `u64` width.
- `errors.dfy`: the program's error codes, plus the Anchor account-check failures and the SPL token
  failures the instructions can surface.
- `token.dfy`: SPL `transfer` and `mint_to` on balances, with their insufficient-funds and overflow
  failures.
- `sums.dfy`: totals over account maps.
- `accounts.dfy`: the accounts of one pool as one value (`World`) and the invariant `Valid`.
- `pool.dfy` and `transaction.dfy`: each instruction as a function from accounts to accounts or an
  error, with the lemmas about it.
- `program.dfy`: the program as a class whose fields the instruction methods update in place. Each
  method is proved to produce exactly what its function says, or to return the same error and change
  nothing.
- `scenarios.dfy`: the test suite's run replayed against the class.

The Anchor account checks run before the instruction body, in the order the accounts are declared.
If the pool state, the depositor's token account or (for `ask_output`) the record is missing, the
instruction fails with `AccountNotInitialized`. An `init` account that already exists gives
`AccountAlreadyInUse`. The invariant `Valid` holds in every reachable state. It says:

- every record sits at its owner's address and has `is_paid = false`;
- all deposit tokens fit in a `u64`;
- the vault covers every open record;
- the pool-token supply equals what the depositors hold.

From `Valid` it follows that a deposit can never overflow the vault and a refund is always funded.

## Model

| member | source | states |
|---|---|---|
| States.DefaultTransactionAccount | programs/liquidity_pool/src/states.rs:11-17 | A fresh transaction record has amount 0 and `is_paid = false` |
| Token.Transfer | programs/liquidity_pool/src/instructions/transaction.rs:28-38 | A token transfer succeeds exactly when the source covers the amount and the destination stays within u64. It fails with InsufficientFunds exactly when the source is short. On success the two balances keep their sum and the destination gains the amount |
| Token.MintTo | programs/liquidity_pool/src/instructions/transaction.rs:79-82 | A mint succeeds exactly when neither the account nor the supply passes u64, and otherwise fails with Overflow. Supply and account both grow by exactly the amount |
| Pool.InitializePoolSetsFields | programs/liquidity_pool/src/instructions/pool.rs:11-23 | Initialisation succeeds exactly when no pool exists. It sets lp_supply to the argument, credit_outstanding to 7348028 and is_active to true, creates an empty vault and a 9-decimal mint with zero supply, and changes no depositor account |
| Pool.InitializePoolOnce | programs/liquidity_pool/src/instructions/pool.rs:57-63 | After a successful initialisation, any further initialisation fails with AccountAlreadyInUse (the pool state is `init`) |
| Pool.DisablePoolEffect | programs/liquidity_pool/src/instructions/pool.rs:25-34 | disable_pool succeeds exactly when the pool exists, clears is_active and leaves every other field and account unchanged |
| Pool.EnablePoolEffect | programs/liquidity_pool/src/instructions/pool.rs:36-45 | enable_pool succeeds exactly when the pool exists, sets is_active and leaves every other field and account unchanged |
| Pool.TogglesIdempotent | programs/liquidity_pool/src/instructions/pool.rs:25-45 | Disabling twice equals disabling once, and enabling twice equals enabling once, whoever signs |
| Pool.TogglesIgnoreSigner | programs/liquidity_pool/src/instructions/pool.rs:103-147 | No stored authority is compared: the outcome of disable_pool and enable_pool does not depend on the signer |
| Pool.PoolInstructionsPreserveValid | programs/liquidity_pool/src/instructions/pool.rs:11-45 | initialize_pool and the toggles keep the account invariant |
| Transaction.AddLiquidityRejectsInactivePool | programs/liquidity_pool/src/instructions/transaction.rs:20-21 | A deposit into an inactive pool always fails. Once the account checks pass, it fails with PoolNotActive |
| Transaction.AddLiquidityRejectsOverdraft | programs/liquidity_pool/src/instructions/transaction.rs:24-25 | A deposit above the owner's balance always fails. Once the earlier checks pass, it fails with NotEnoughBalance |
| Transaction.AddLiquidityRequiresNoRecord | programs/liquidity_pool/src/instructions/transaction.rs:152-159 | While the owner has an open record, every deposit fails, with AccountAlreadyInUse once the pool and the owner's account exist. So an owner has at most one record and a record is never overwritten |
| Transaction.AddLiquidityEffects | programs/liquidity_pool/src/instructions/transaction.rs:28-43 | A successful deposit lowers the owner's balance by exactly amount_in and raises the vault by exactly amount_in. It creates the record (authority = owner, amount = amount_in, is_paid = false) and leaves the pool state, the mint and the pool-token accounts unchanged |
| Transaction.AddLiquidityConservesBase | programs/liquidity_pool/src/instructions/transaction.rs:28-38 | A deposit leaves the total of depositor balances plus vault unchanged |
| Transaction.AddLiquiditySucceedsWhenReady | programs/liquidity_pool/src/instructions/transaction.rs:14-46 | On a valid state, a deposit succeeds if and only if the pool and the owner's account exist, the owner has no record, the pool is active and the balance covers the amount. The vault cannot overflow |
| Transaction.AddLiquidityPreservesValid | programs/liquidity_pool/src/instructions/transaction.rs:14-46 | A successful deposit keeps the account invariant. In particular, the vault still covers every open record |
| Transaction.AskOutputRejectsActivePool | programs/liquidity_pool/src/instructions/transaction.rs:53-54 | Settling on an active pool always fails. Once the account checks pass, it fails with PoolStillActive |
| Transaction.AskOutputConverts | programs/liquidity_pool/src/instructions/transaction.rs:64-82 | When the vault is at or above lp_supply, a settlement mints exactly 10 units to the owner's pool-token account and raises the supply by 10. The vault and the owner's deposit balance stay unchanged, and the record is closed |
| Transaction.AskOutputRefunds | programs/liquidity_pool/src/instructions/transaction.rs:84-96 | When the vault is below lp_supply, a settlement moves exactly the recorded amount from the vault to the owner and mints nothing. The record is closed |
| Transaction.AskOutputSettlesOnce | programs/liquidity_pool/src/instructions/transaction.rs:226-232 | After a settlement the owner's record is gone. A second ask_output fails with AccountNotInitialized, so there is no double payout. A new deposit is no longer blocked by a record |
| Transaction.AskOutputConservesBase | programs/liquidity_pool/src/instructions/transaction.rs:62-96 | A settlement leaves the total of depositor balances plus vault unchanged |
| Transaction.AskOutputSucceedsWhenReady | programs/liquidity_pool/src/instructions/transaction.rs:48-99 | On a valid, inactive pool with the owner's accounts and record present, a settlement succeeds if and only if it is a refund or the pool-token supply has room for 10 more. A refund is always funded and never overflows |
| Transaction.AskOutputPreservesValid | programs/liquidity_pool/src/instructions/transaction.rs:48-99 | A successful settlement keeps the account invariant |
| Transaction.AskOutputKeepsBranch | programs/liquidity_pool/src/instructions/transaction.rs:62-96 | A settlement never moves the live vault across lp_supply. So while the pool stays inactive, and absent token transfers made outside the program, every settler takes the same branch |
| Transaction.TransactionsLeavePoolState | programs/liquidity_pool/src/instructions/transaction.rs:14-99 | Neither add_liquidity nor ask_output changes lp_supply, credit_outstanding or is_active |
| Program.LiquidityPool.InitializePool | programs/liquidity_pool/src/instructions/pool.rs:11-23 | The in-place instruction leaves the fields exactly as Pool.InitializePool says, or returns its error and changes nothing. It keeps Valid |
| Program.LiquidityPool.DisablePool | programs/liquidity_pool/src/instructions/pool.rs:25-34 | The in-place instruction matches Pool.DisablePool, or changes nothing on error. It keeps Valid |
| Program.LiquidityPool.EnablePool | programs/liquidity_pool/src/instructions/pool.rs:36-45 | The in-place instruction matches Pool.EnablePool, or changes nothing on error. It keeps Valid |
| Program.LiquidityPool.AddLiquidity | programs/liquidity_pool/src/instructions/transaction.rs:14-46 | The in-place instruction matches Transaction.AddLiquidity, or changes nothing on error. It keeps Valid |
| Program.LiquidityPool.AskOutput | programs/liquidity_pool/src/instructions/transaction.rs:48-99 | The in-place instruction matches Transaction.AskOutput, or changes nothing on error. It keeps Valid |
| Program.LiquidityPool.MintToOwner | programs/liquidity_pool/src/instructions/transaction.rs:64-82 | The in-place success branch, callable only on an inactive pool at or above the target, matches Transaction.Convert, including the closing of the record, and keeps Valid |
| Program.LiquidityPool.RefundOwner | programs/liquidity_pool/src/instructions/transaction.rs:84-96 | The in-place refund branch, callable only on an inactive pool below the target, matches Transaction.Refund, including the closing of the record, and keeps Valid |
| Scenarios.TestSuite | tests/liquidity_pool.ts:152-559 | With a target of 120, deposits of 50 and 40 are refunded in full (100 each) and no pool token is issued. After re-enabling, deposits of 70 and 60 stay in the vault (balances 30 and 40) and each depositor receives 10 pool-token units |

## Left out

- SPL token program internals are not modelled. This covers account ownership, delegates, frozen
  accounts and the mint-equality constraints in `AskOutput`. Depositors' accounts are keyed by owner
  and always belong to the right mint, so those constraints hold by construction.
- PDA derivation, bumps, signer seeds and the `pool_authority` that owns the vault and the mint are
  not modelled. Accounts are keyed by owner, and the model holds one pool for one deposit mint.
- The transaction record's address depends on the owner alone, not on the pool. Across several pools
  a record would therefore be shared. The model has one pool, so it does not capture this.
- Rent, lamport payments for `init`, and the refund of rent by `close = owner` are not modelled.
  The System, Rent and AssociatedToken programs are not modelled either.
- Token moves made outside the program are not modelled. These include direct transfers into the
  vault, which is an ordinary token account that anyone can pay into, transfers between
  depositors' accounts, and minting of more deposit tokens. Such a transfer between two settlements
  can raise the live vault balance that `ask_output` compares with `lp_supply`. A later settler can
  then be converted after earlier ones were refunded, which `Transaction.AskOutputKeepsBranch`
  (a per-step fact about the five instructions) does not rule out.
- Creating the depositors' token accounts is not modelled. It happens outside the program, and the
  class constructor receives them.
- Transaction atomicity is modelled by failing before any write. Concurrency and ordering between
  transactions are left out, and the class applies instructions one at a time.
- `programs/liquidity_pool/src/lib.rs` is pure dispatch and is not part of this model.
- The `AlreadyPaid` error code is declared but never raised, and `is_paid` is never written. The
  model keeps both exactly as unused as the code does.

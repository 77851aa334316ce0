/**
 * The liquidity pool program as one object whose fields the five
 * instructions update in place. The functions in `Pool` and `Transaction`
 * are the reference definitions of the instructions; each method here is
 * proved to leave the fields exactly as its function says, or, when that
 * function fails, to return the same error and change nothing.
 */
module Program {
  import opened Wrappers
  import opened Errors
  import opened States
  import opened Sums
  import opened Accounts
  import Token
  import Pool
  import Transaction

  class LiquidityPool {
    // PoolState account (absent until `initialize_pool`)
    var poolExists: bool
    var lpSupply: U64
    var creditOutstanding: U64
    var isActive: bool
    // pool vault and pool-token mint, created with the pool state
    var vault: U64
    var poolMintSupply: U64
    var poolMintDecimals: nat
    // depositors' token accounts and transaction accounts
    var userBase: map<Pubkey, U64>
    var userPool: map<Pubkey, U64>
    var records: map<Pubkey, TransactionAccount>

    /** The accounts as one value. */
    function Snapshot(): (w: World)
      reads this
    {
      World(
        if poolExists
        then Some(PoolAccounts(PoolState(lpSupply, creditOutstanding, isActive), vault,
                               Mint(poolMintSupply, poolMintDecimals)))
        else None,
        userBase, userPool, records)
    }

    ghost predicate Valid()
      reads this
    {
      Accounts.Valid(Snapshot())
    }

    /**
     * The chain before the program runs: the depositors' token accounts
     * exist (`base` gives their deposit-token balances, `holders` who also has
     * a pool-token account) and no pool account exists yet.
     */
    constructor (base: map<Pubkey, U64>, holders: set<Pubkey>)
      requires Sum(base) <= U64_MAX
      ensures Valid()
      ensures Snapshot() == World(None, base, map o | o in holders :: 0, map[])
    {
      poolExists := false;
      lpSupply, creditOutstanding, isActive := 0, 0, false;
      vault, poolMintSupply, poolMintDecimals := 0, 0, 0;
      userBase := base;
      var zeros := map o | o in holders :: 0;
      SumAllZero(zeros);
      userPool := zeros;
      records := map[];
    }

    method InitializePool(authority: Pubkey, lpSupply: U64) returns (r: Result<(), ErrorCode>)
      requires Valid()
      modifies this
      ensures Valid()
      ensures match Pool.InitializePool(old(Snapshot()), authority, lpSupply)
        case Ok(w) => r == Ok(()) && Snapshot() == w
        case Err(e) => r == Err(e) && unchanged(this)
    {
      if poolExists {
        return Err(AccountAlreadyInUse);
      }
      poolExists := true;
      vault := 0;
      poolMintSupply, poolMintDecimals := 0, POOL_MINT_DECIMALS;
      this.lpSupply := lpSupply;
      creditOutstanding := CREDIT_OUTSTANDING;
      isActive := true;
      Pool.PoolInstructionsPreserveValid(old(Snapshot()), authority, lpSupply, true);
      return Ok(());
    }

    method DisablePool(authority: Pubkey) returns (r: Result<(), ErrorCode>)
      requires Valid()
      modifies this
      ensures Valid()
      ensures match Pool.DisablePool(old(Snapshot()), authority)
        case Ok(w) => r == Ok(()) && Snapshot() == w
        case Err(e) => r == Err(e) && unchanged(this)
    {
      if !poolExists {
        return Err(AccountNotInitialized);
      }
      isActive := false;
      Pool.PoolInstructionsPreserveValid(old(Snapshot()), authority, 0, false);
      return Ok(());
    }

    method EnablePool(authority: Pubkey) returns (r: Result<(), ErrorCode>)
      requires Valid()
      modifies this
      ensures Valid()
      ensures match Pool.EnablePool(old(Snapshot()), authority)
        case Ok(w) => r == Ok(()) && Snapshot() == w
        case Err(e) => r == Err(e) && unchanged(this)
    {
      if !poolExists {
        return Err(AccountNotInitialized);
      }
      isActive := true;
      Pool.PoolInstructionsPreserveValid(old(Snapshot()), authority, 0, true);
      return Ok(());
    }

    method AddLiquidity(owner: Pubkey, amountIn: U64) returns (r: Result<(), ErrorCode>)
      requires Valid()
      modifies this
      ensures Valid()
      ensures match Transaction.AddLiquidity(old(Snapshot()), owner, amountIn)
        case Ok(w) => r == Ok(()) && Snapshot() == w
        case Err(e) => r == Err(e) && unchanged(this)
    {
      // account checks
      if !poolExists || owner !in userBase {
        return Err(AccountNotInitialized);
      }
      if owner in records {
        return Err(AccountAlreadyInUse);
      }
      // instruction body
      if !isActive {
        return Err(PoolNotActive);
      }
      var userBalance := userBase[owner];
      if amountIn > userBalance {
        return Err(NotEnoughBalance);
      }
      var moved := Token.Transfer(userBalance, vault, amountIn);
      if moved.Err? {
        return Err(moved.error);
      }
      userBase := userBase[owner := moved.value.from];
      vault := moved.value.to;
      var record := DefaultTransactionAccount();
      record := record.(authority := owner);
      record := record.(amount := amountIn);
      records := records[owner := record];
      Transaction.AddLiquidityPreservesValid(old(Snapshot()), owner, amountIn);
      return Ok(());
    }

    method AskOutput(owner: Pubkey) returns (r: Result<(), ErrorCode>)
      requires Valid()
      modifies this
      ensures Valid()
      ensures match Transaction.AskOutput(old(Snapshot()), owner)
        case Ok(w) => r == Ok(()) && Snapshot() == w
        case Err(e) => r == Err(e) && unchanged(this)
    {
      // account checks
      if !poolExists || owner !in userBase || owner !in userPool || owner !in records {
        return Err(AccountNotInitialized);
      }
      // instruction body
      if isActive {
        return Err(PoolStillActive);
      }
      if vault >= lpSupply {
        r := MintToOwner(owner);
      } else {
        r := RefundOwner(owner);
      }
    }

    /**
     * The success branch of `ask_output`, then the closing of the record;
     * callable only where `ask_output` takes that branch.
     */
    method MintToOwner(owner: Pubkey) returns (r: Result<(), ErrorCode>)
      requires Valid() && Transaction.CanSettle(Snapshot(), owner)
      requires !isActive && vault >= lpSupply
      modifies this
      ensures Valid()
      ensures match Transaction.Convert(old(Snapshot()), owner)
        case Ok(w) => r == Ok(()) && Snapshot() == w
        case Err(e) => r == Err(e) && unchanged(this)
    {
      var minted := Token.MintTo(poolMintSupply, userPool[owner], Transaction.MINT_AMOUNT);
      if minted.Err? {
        return Err(minted.error);
      }
      userPool := userPool[owner := minted.value.to];
      poolMintSupply := minted.value.supply;
      // `close = owner` runs after the body succeeds
      records := records - {owner};
      Transaction.AskOutputPreservesValid(old(Snapshot()), owner);
      return Ok(());
    }

    /**
     * The refund branch of `ask_output`, then the closing of the record;
     * callable only where `ask_output` takes that branch.
     */
    method RefundOwner(owner: Pubkey) returns (r: Result<(), ErrorCode>)
      requires Valid() && Transaction.CanSettle(Snapshot(), owner)
      requires !isActive && vault < lpSupply
      modifies this
      ensures Valid()
      ensures match Transaction.Refund(old(Snapshot()), owner)
        case Ok(w) => r == Ok(()) && Snapshot() == w
        case Err(e) => r == Err(e) && unchanged(this)
    {
      var moved := Token.Transfer(vault, userBase[owner], records[owner].amount);
      if moved.Err? {
        return Err(moved.error);
      }
      vault := moved.value.from;
      userBase := userBase[owner := moved.value.to];
      // `close = owner` runs after the body succeeds
      records := records - {owner};
      Transaction.AskOutputPreservesValid(old(Snapshot()), owner);
      return Ok(());
    }
  }
}

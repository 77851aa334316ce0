/**
 * The run of tests/liquidity_pool.ts, replayed against the program object:
 * a target of 120 tokens and two depositors with 100 tokens each (amounts in
 * base units of a 9-decimal mint). Each method below is one stage of the
 * test and states the balances the stage leaves behind.
 */
module Scenarios {
  import opened Wrappers
  import opened Errors
  import opened States
  import opened Sums
  import opened Program

  const UNIT: nat := 1_000_000_000
  const AUTHORITY: Pubkey := 0
  const USER0: Pubkey := 1
  const USER1: Pubkey := 2

  /** What the test observes between two stages; `rec` is the amount of an open record. */
  datatype Stage = Stage(
    active: bool, vault: nat,
    base0: nat, base1: nat, pool0: nat, pool1: nat,
    rec0: Option<nat>, rec1: Option<nat>)

  ghost predicate HasRecord(p: LiquidityPool, owner: Pubkey, rec: Option<nat>)
    reads p
  {
    && (owner in p.records <==> rec.Some?)
    && (rec.Some? ==>
          var t := p.records[owner];
          t.authority == owner && t.amount == rec.value && !t.isPaid)
  }

  /** The pool (target 120) and the two depositors' accounts are as `s` says. */
  ghost predicate At(p: LiquidityPool, s: Stage)
    reads p
  {
    && p.Valid() && p.poolExists && p.lpSupply == 120 * UNIT
    && p.isActive == s.active && p.vault == s.vault
    && p.userBase.Keys == p.userPool.Keys == {USER0, USER1}
    && p.userBase[USER0] == s.base0 && p.userBase[USER1] == s.base1
    && p.userPool[USER0] == s.pool0 && p.userPool[USER1] == s.pool1
    && p.poolMintSupply == s.pool0 + s.pool1
    && p.records.Keys <= {USER0, USER1}
    && HasRecord(p, USER0, s.rec0) && HasRecord(p, USER1, s.rec1)
  }

  lemma SumOfTwo(a: Pubkey, b: Pubkey, x: nat, y: nat)
    requires a != b
    ensures Sum(map[a := x, b := y]) == x + y
  {
    SumUpdate(map[], a, x);
    SumUpdate(map[a := x], b, y);
  }

  /** Two depositors with 100 tokens each, and a pool with a target of 120. */
  method Setup() returns (p: LiquidityPool)
    ensures fresh(p)
    ensures At(p, Stage(true, 0, 100 * UNIT, 100 * UNIT, 0, 0, None, None))
  {
    SumOfTwo(USER0, USER1, 100 * UNIT, 100 * UNIT);
    p := new LiquidityPool(map[USER0 := 100 * UNIT, USER1 := 100 * UNIT], {USER0, USER1});
    var r := p.InitializePool(AUTHORITY, 120 * UNIT);
    assert r == Ok(());
  }

  /** The round-one deposits of 50 and 40. */
  method RoundOneDeposits(p: LiquidityPool)
    requires At(p, Stage(true, 0, 100 * UNIT, 100 * UNIT, 0, 0, None, None))
    modifies p
    ensures At(p, Stage(true, 90 * UNIT, 50 * UNIT, 60 * UNIT, 0, 0, Some(50 * UNIT), Some(40 * UNIT)))
  {
    var r := p.AddLiquidity(USER0, 50 * UNIT);
    assert r == Ok(());
    r := p.AddLiquidity(USER1, 40 * UNIT);
    assert r == Ok(());
  }

  /**
   * End of round one: the test only waits before asking for output, and a
   * pool that is still active refuses; `disable_pool` is what closes it.
   */
  method RoundOneClose(p: LiquidityPool)
    requires At(p, Stage(true, 90 * UNIT, 50 * UNIT, 60 * UNIT, 0, 0, Some(50 * UNIT), Some(40 * UNIT)))
    modifies p
    ensures At(p, Stage(false, 90 * UNIT, 50 * UNIT, 60 * UNIT, 0, 0, Some(50 * UNIT), Some(40 * UNIT)))
  {
    var r := p.AskOutput(USER0);
    assert r == Err(PoolStillActive);
    r := p.DisablePool(AUTHORITY);
    assert r == Ok(());
  }

  /** Round-one settlement, first depositor: the vault (90) is below the target (120); 50 comes back. */
  method RoundOneFirstRefund(p: LiquidityPool)
    requires At(p, Stage(false, 90 * UNIT, 50 * UNIT, 60 * UNIT, 0, 0, Some(50 * UNIT), Some(40 * UNIT)))
    modifies p
    ensures At(p, Stage(false, 40 * UNIT, 100 * UNIT, 60 * UNIT, 0, 0, None, Some(40 * UNIT)))
  {
    var r := p.AskOutput(USER0);
    assert r == Ok(());
  }

  /** Round-one settlement, second depositor: the vault (40) is still below the target; 40 comes back. */
  method RoundOneSecondRefund(p: LiquidityPool)
    requires At(p, Stage(false, 40 * UNIT, 100 * UNIT, 60 * UNIT, 0, 0, None, Some(40 * UNIT)))
    modifies p
    ensures At(p, Stage(false, 0, 100 * UNIT, 100 * UNIT, 0, 0, None, None))
  {
    var r := p.AskOutput(USER1);
    assert r == Ok(());
  }

  /** Start of round two: `enable_pool`, after which the pool reads as active. */
  method RoundTwoOpen(p: LiquidityPool)
    requires At(p, Stage(false, 0, 100 * UNIT, 100 * UNIT, 0, 0, None, None))
    modifies p
    ensures At(p, Stage(true, 0, 100 * UNIT, 100 * UNIT, 0, 0, None, None))
  {
    var r := p.EnablePool(AUTHORITY);
    assert r == Ok(());
  }

  /** The round-two deposits of 70 and 60. */
  method RoundTwoDeposits(p: LiquidityPool)
    requires At(p, Stage(true, 0, 100 * UNIT, 100 * UNIT, 0, 0, None, None))
    modifies p
    ensures At(p, Stage(true, 130 * UNIT, 30 * UNIT, 40 * UNIT, 0, 0, Some(70 * UNIT), Some(60 * UNIT)))
  {
    var r := p.AddLiquidity(USER0, 70 * UNIT);
    assert r == Ok(());
    r := p.AddLiquidity(USER1, 60 * UNIT);
    assert r == Ok(());
  }

  /** End of round two: `disable_pool` again. */
  method RoundTwoClose(p: LiquidityPool)
    requires At(p, Stage(true, 130 * UNIT, 30 * UNIT, 40 * UNIT, 0, 0, Some(70 * UNIT), Some(60 * UNIT)))
    modifies p
    ensures At(p, Stage(false, 130 * UNIT, 30 * UNIT, 40 * UNIT, 0, 0, Some(70 * UNIT), Some(60 * UNIT)))
  {
    var r := p.DisablePool(AUTHORITY);
    assert r == Ok(());
  }

  /**
   * Round-two settlement, first depositor: the vault (130) reaches the
   * target (120), so 10 pool-token base units are minted and the deposit
   * stays in the vault.
   */
  method RoundTwoFirstMint(p: LiquidityPool)
    requires At(p, Stage(false, 130 * UNIT, 30 * UNIT, 40 * UNIT, 0, 0, Some(70 * UNIT), Some(60 * UNIT)))
    modifies p
    ensures At(p, Stage(false, 130 * UNIT, 30 * UNIT, 40 * UNIT, 10, 0, None, Some(60 * UNIT)))
  {
    var r := p.AskOutput(USER0);
    assert r == Ok(());
  }

  /**
   * Round-two settlement, second depositor: the first conversion left the
   * vault as it was, so the second depositor is converted too; asking a
   * second time fails because the record is gone.
   */
  method RoundTwoSecondMint(p: LiquidityPool)
    requires At(p, Stage(false, 130 * UNIT, 30 * UNIT, 40 * UNIT, 10, 0, None, Some(60 * UNIT)))
    modifies p
    ensures At(p, Stage(false, 130 * UNIT, 30 * UNIT, 40 * UNIT, 10, 10, None, None))
  {
    var r := p.AskOutput(USER1);
    assert r == Ok(());
    r := p.AskOutput(USER1);
    assert r == Err(AccountNotInitialized);
  }

  /**
   * The whole suite: full refunds after round one; after round two the
   * deposits stay in the vault and each depositor holds 10 pool-token base
   * units.
   */
  method TestSuite() returns (refunded0: nat, refunded1: nat, base0: nat, pool0: nat, base1: nat, pool1: nat)
    ensures refunded0 == refunded1 == 100 * UNIT
    ensures base0 == 30 * UNIT && base1 == 40 * UNIT
    ensures pool0 == pool1 == 10
  {
    var p := Setup();
    RoundOneDeposits(p);
    RoundOneClose(p);
    RoundOneFirstRefund(p);
    RoundOneSecondRefund(p);
    refunded0, refunded1 := p.userBase[USER0], p.userBase[USER1];
    RoundTwoOpen(p);
    RoundTwoDeposits(p);
    RoundTwoClose(p);
    RoundTwoFirstMint(p);
    RoundTwoSecondMint(p);
    base0, pool0 := p.userBase[USER0], p.userPool[USER0];
    base1, pool1 := p.userBase[USER1], p.userPool[USER1];
  }
}

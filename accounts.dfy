/**
 * The accounts one liquidity pool touches, as one value: the pool's own
 * accounts (state, base-token vault, pool-token mint), the token accounts of
 * the depositors and the per-owner deposit records.
 */
module Accounts {
  import opened Wrappers
  import opened States
  import opened Sums

  /** The number of decimals `initialize_pool` gives the pool-token mint. */
  const POOL_MINT_DECIMALS: nat := 9

  /** The value `initialize_pool` stores in `credit_outstanding`. */
  const CREDIT_OUTSTANDING: U64 := 7348028

  /** A token mint, as far as the program uses it. */
  datatype Mint = Mint(supply: U64, decimals: nat)

  /** The three accounts `initialize_pool` creates together. */
  datatype PoolAccounts = PoolAccounts(state: PoolState, vault: U64, poolMint: Mint)

  /**
   * `pool` is None until `initialize_pool` runs; `userBase` and `userPool` are
   * the owners' deposit-token and pool-token accounts; `records` holds the
   * transaction account of each owner that has one.
   */
  datatype World = World(
    pool: Option<PoolAccounts>,
    userBase: map<Pubkey, U64>,
    userPool: map<Pubkey, U64>,
    records: map<Pubkey, TransactionAccount>)

  /** Deposit tokens held in the vault (none before the vault exists). */
  function VaultBalance(w: World): (v: U64) {
    if w.pool.Some? then w.pool.value.vault else 0
  }

  /** Pool tokens in circulation (none before the mint exists). */
  function PoolSupply(w: World): (s: U64) {
    if w.pool.Some? then w.pool.value.poolMint.supply else 0
  }

  /** The amount recorded for each open deposit. */
  function Amounts(records: map<Pubkey, TransactionAccount>): (m: map<Pubkey, nat>)
    ensures m.Keys == records.Keys
  {
    map o | o in records :: records[o].amount
  }

  /** All deposit tokens held by the depositors and the vault together. */
  ghost function TotalBase(w: World): (t: nat) {
    Sum(w.userBase) + VaultBalance(w)
  }

  /**
   * What every reachable state satisfies:
   *  - each record sits at its own owner's address and was never marked paid;
   *  - no record exists before the pool does;
   *  - all deposit tokens fit in one u64 (they are part of one mint's supply);
   *  - the vault covers every open record, so a refund is always funded;
   *  - the pool-token supply is exactly what the depositors hold.
   */
  ghost predicate Valid(w: World) {
    && (forall o :: o in w.records ==> w.records[o].authority == o && !w.records[o].isPaid)
    && (w.pool.None? ==> w.records == map[])
    && TotalBase(w) <= U64_MAX
    && Sum(Amounts(w.records)) <= VaultBalance(w)
    && Sum(w.userPool) == PoolSupply(w)
  }

  /** Opening a record for `o` raises the recorded total by its amount. */
  lemma AmountsAdd(records: map<Pubkey, TransactionAccount>, o: Pubkey, t: TransactionAccount)
    requires o !in records
    ensures Sum(Amounts(records[o := t])) == Sum(Amounts(records)) + t.amount
  {
    assert Amounts(records[o := t]) == Amounts(records)[o := t.amount];
    SumUpdate(Amounts(records), o, t.amount);
  }

  /** Closing the record of `o` lowers the recorded total by its amount. */
  lemma AmountsRemove(records: map<Pubkey, TransactionAccount>, o: Pubkey)
    requires o in records
    ensures Sum(Amounts(records - {o})) + records[o].amount == Sum(Amounts(records))
  {
    assert Amounts(records - {o}) == Amounts(records) - {o};
    SumWithout(Amounts(records), o);
  }
}

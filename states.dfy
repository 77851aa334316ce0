/** The program's stored account records and the width of their amount fields. */
module States {

  /** Largest value of a Rust `u64`. */
  const U64_MAX: nat := 0xFFFF_FFFF_FFFF_FFFF

  /** Every amount field of the program is a `u64`. */
  type U64 = x: nat | x <= U64_MAX

  /** An account address; the program never looks inside one. */
  type Pubkey = nat

  /** Per-pool configuration, stored at the address derived from the deposit mint. */
  datatype PoolState = PoolState(lpSupply: U64, creditOutstanding: U64, isActive: bool)

  /** Per-owner deposit record, stored at the address derived from the owner. */
  datatype TransactionAccount = TransactionAccount(authority: Pubkey, amount: U64, isPaid: bool)

  /** The zero-filled record Anchor creates for an `init` account (Rust's `Default`). */
  function DefaultTransactionAccount(): (t: TransactionAccount)
    ensures t.amount == 0 && !t.isPaid
  {
    TransactionAccount(0, 0, false)
  }
}

/** Every way an instruction of the liquidity pool program can fail. */
module Errors {

  datatype ErrorCode =
    // The program's own error codes (programs/liquidity_pool/src/errors.rs).
    | NotEnoughBalance
    | PoolStillActive
    | PoolNotActive
    | AlreadyPaid
    // Raised by the Anchor account checks before an instruction body runs:
    // an account the instruction reads does not exist, or an `init` account
    // already exists.
    | AccountNotInitialized
    | AccountAlreadyInUse
    // Raised by the SPL token program from `transfer` and `mint_to`.
    | InsufficientFunds
    | Overflow
}

/** The parts of the Solana runtime the three programs rely on: account keys,
    the integer widths of instruction data and token amounts, the error codes a
    handler can return, and the account iterator behind `next_account_info`. */
module Solana {

  /** An account's public key. The 32 bytes are abstracted to a number: the
      programs only compare keys and pass them on. */
  type Pubkey = nat

  const U8_MAX: int := 0xFF
  const U64_MAX: int := 0xFFFF_FFFF_FFFF_FFFF

  /** One byte of instruction data. */
  type U8 = x: int | 0 <= x <= U8_MAX

  /** A token amount, a supply or an instruction's numeric argument. */
  type U64 = x: int | 0 <= x <= U64_MAX

  /** The SPL Token program's own error codes that the abstract ledger raises. */
  datatype TokenError =
    | InsufficientFunds  // the source account holds less than the amount moved
    | MintMismatch       // the two accounts, or the account and the mint, belong to different mints
    | Overflow           // a balance or a supply would exceed the u64 range

  /** What a handler returns on failure. `Custom` carries an error of the token
      program propagated through `invoke(...)?`; `Panic` stands for an
      out-of-bounds index on the instruction data, which aborts the program. */
  datatype ProgramError =
    | InvalidInstructionData
    | InvalidArgument
    | InvalidAccountData
    | InsufficientFunds
    | NotEnoughAccountKeys
    | Custom(token: TokenError)
    | Panic

  /** `Result<T, ProgramError>`, usable with `:-` like Rust's `?`. */
  datatype Result<T> = Ok(value: T) | Err(error: ProgramError) {
    predicate IsFailure() {
      Err?
    }

    function PropagateFailure<U>(): Result<U>
      requires Err?
    {
      Err(error)
    }

    function Extract(): T
      requires Ok?
    {
      value
    }
  }

  /** `ProgramResult`: success carries nothing. */
  type ProgramResult = Result<()>

  /** The mutable iterator over a handler's account list. `NextAccountInfo`
      hands out the accounts in order and fails with `NotEnoughAccountKeys`
      once the list is exhausted, as `next_account_info` does. */
  class AccountIter {
    const accounts: seq<Pubkey>
    var position: nat

    ghost predicate Valid()
      reads this
    {
      position <= |accounts|
    }

    constructor (accounts: seq<Pubkey>)
      ensures Valid()
      ensures this.accounts == accounts && position == 0
    {
      this.accounts := accounts;
      position := 0;
    }

    method NextAccountInfo() returns (r: Result<Pubkey>)
      requires Valid()
      modifies this
      ensures Valid()
      ensures old(position) < |accounts| ==> r == Ok(accounts[old(position)]) && position == old(position) + 1
      ensures old(position) == |accounts| ==> r == Err(NotEnoughAccountKeys) && position == old(position)
    {
      if position < |accounts| {
        r := Ok(accounts[position]);
        position := position + 1;
      } else {
        r := Err(NotEnoughAccountKeys);
      }
    }
  }
}

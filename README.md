# HelPet token economy: a Dafny model of its three Solana programs

HelPet is a game in which players earn the HPET token for in-game actions and
spend it to unlock animals. Three on-chain programs do this:

- **helpet_unlock** routes on byte 0 of the instruction data. Opcode 0 is
  `unlock_animal`: it checks that the player's token account holds at least 100
  HPET and then transfers 100 to the animal state account. Opcode 1 is
  `spend_tokens`: it reads the amount from byte 1 (so at most 255), checks the
  balance and then transfers that amount to the player account.
- **helpet_rewards** routes on byte 0 too. Opcode 0 is `collect_bones`, which
  mints a fixed 10 HPET to the player's token account. Opcode 1 is
  `unlock_animal`, which transfers a fixed 100 HPET from the player's token
  account to the player account. It has no balance check of its own and relies
  on the token program to refuse a low balance.
- **helpet_token** has `initialize_token` (one account, no effect) and
  `mint_tokens` (refuses a mint whose decimals are not 18, then mints).
  `transfer_tokens` moves tokens with no check of its own.
  `buy_tokens_with_usdc` makes a USDC payment transfer and then a mint;
  the first failure stops it.

Every handler takes its accounts by position from the account iterator
(`next_account_info`). It fails with `NotEnoughAccountKeys` before touching the
ledger when the list is too short.

The SPL Token program, which the handlers call through `invoke`, is modelled
as an abstract ledger (module `TokenLedger`). It maps mint keys to a supply and
a decimals value, and token-account keys to a mint and a balance. It offers two
operations: `Transfer` and `MintTo`. Each either succeeds with its exact
balance effect or fails and changes nothing. Each makes its checks in the
order the token program's `process_transfer` and `process_mint_to` make them,
and the first that fails gives the error:

- `Transfer`: an unknown source or destination gives `InvalidAccountData`;
  then a source balance below the amount gives `InsufficientFunds`, whatever
  the mints; then accounts of different mints give `MintMismatch`; then a
  self-transfer succeeds and changes nothing; then a destination balance
  pushed past the u64 range gives `Overflow`.
- `MintTo`: an unknown destination gives `InvalidAccountData`; then a
  destination holding another mint's token gives `MintMismatch`, whether or
  not the named mint exists; then an unknown mint gives `InvalidAccountData`;
  then a balance or a supply pushed past the u64 range gives `Overflow`.

The `Ledger` class holds the ledger's maps. Its `InvokeTransfer` and
`InvokeMintTo` methods update them in place. Each handler is a method that
steps an `AccountIter`, reads balances and calls these methods. It is proved
against a pure specification function (`...Spec`), and the properties are
stated on those functions and in lemmas.

The runtime makes a transaction all or nothing. Module `Runtime` models this:
`Execute` saves the ledger, runs one entry point, and puts the saved ledger
back when the handler fails. This matters only for `buy_tokens_with_usdc`,
whose payment has already happened when its mint fails.

Behaviour modelled as the code has it:

- An empty instruction buffer, and `spend_tokens` without a byte 1, index out
  of bounds and abort the program. Both are modelled as the distinct error
  `Panic`, not as a dedicated error code and not as a precondition.
  `spend_tokens` fetches its three accounts before it reads byte 1, so too few
  accounts come first.
- An unknown opcode gives `InvalidInstructionData`.
- `spend_tokens` and the rewards `unlock_animal` send the tokens to the player
  account itself, not to an escrow account. `buy_tokens_with_usdc` moves the
  USDC from the USDC account (accounts[1]) to the payer (accounts[0]).
- The swap rate is a float computation in the code, not an integer ratio with
  an overflow check; this model leaves it out (see below).
- There is no record that an animal was unlocked, no replay guard and no
  signer check, and the model adds none.

Account keys are abstracted to `nat`. Instruction bytes are `U8` and
amounts are `U64` (subset types of `int` bounded by 255 and 2^64−1). Every
u64 addition done by the token program is checked against that bound.

## Model

| member | source | states |
|---|---|---|
| `Solana.AccountIter.NextAccountInfo` | programs/helpet_unlock/src/lib.rs:43-47 | hands out the accounts in order, one per call; once the list is exhausted it returns `NotEnoughAccountKeys` and stays put |
| `TokenLedger.UnpackAccount` | programs/helpet_unlock/src/lib.rs:52 | reading a token account (here and at helpet_unlock line 94) succeeds exactly when the key holds one and then yields its stored mint and balance; otherwise it fails with `InvalidAccountData` |
| `TokenLedger.UnpackMint` | programs/helpet_token/src/lib.rs:46 | reading a mint succeeds exactly when the key holds one and then yields its stored supply and decimals; otherwise it fails with `InvalidAccountData` |
| `TokenLedger.Transfer` | programs/helpet_token/src/lib.rs:89-105 | succeeds exactly when both accounts exist, share a mint, the source holds the amount and the destination cannot overflow; unknown accounts give `InvalidAccountData`, then a low balance gives the token program's `InsufficientFunds` whatever the mints, then different mints give `MintMismatch`; on success supplies are unchanged, the source loses and the destination gains exactly the amount, every other account is untouched, and a self-transfer changes nothing |
| `TokenLedger.MintTo` | programs/helpet_token/src/lib.rs:54-70 | succeeds exactly when the mint and the account exist, the account holds that mint's token and neither the balance nor the supply overflows; an unknown destination gives `InvalidAccountData`, then a destination of another mint gives `MintMismatch` even when the named mint is unknown, then an unknown mint gives `InvalidAccountData`, and any other failure is `Overflow`; on success that mint's supply and that account's balance rise by exactly the amount and nothing else changes |
| `TokenLedger.MintToTwice` | programs/helpet_rewards/src/lib.rs:52-70 | two mints of x and y to one account give the same outcome, error and ledger as one mint of x + y |
| `TokenLedger.TransferBack` | programs/helpet_token/src/lib.rs:89-105 | a successful transfer is undone exactly by transferring the same amount back |
| `TokenLedger.Ledger.GetAccount` | programs/helpet_unlock/src/lib.rs:52 | reading a token account from the in-place ledger gives exactly what `UnpackAccount` gives on its current state |
| `TokenLedger.Ledger.GetMint` | programs/helpet_token/src/lib.rs:46 | reading a mint from the in-place ledger gives exactly what `UnpackMint` gives on its current state |
| `TokenLedger.Ledger.InvokeTransfer` | programs/helpet_unlock/src/lib.rs:58-71 | the in-place ledger ends as `Transfer` specifies, or is left unchanged with `Transfer`'s error |
| `TokenLedger.Ledger.InvokeMintTo` | programs/helpet_rewards/src/lib.rs:55-70 | the in-place ledger ends as `MintTo` specifies, or is left unchanged with `MintTo`'s error |
| `TokenLedger.Ledger.Restore` | programs/helpet_token/src/lib.rs:150-166 | the ledger becomes exactly the saved state |
| `HelpetUnlock.Decode` | programs/helpet_unlock/src/lib.rs:24-32 | empty data aborts; bytes 0 and 1 are the only accepted opcodes and each is the encoding of the opcode decoded; every other byte is `InvalidInstructionData` |
| `HelpetUnlock.DecodeEncode` | programs/helpet_unlock/src/lib.rs:24-32 | an encoded opcode decodes back to itself whatever payload follows |
| `HelpetUnlock.UnlockAnimalSpec` | programs/helpet_unlock/src/lib.rs:42-75 | fewer than 4 accounts, an unreadable token account, or a balance below 100 (`InsufficientFunds`) fail with the ledger unchanged; otherwise exactly one transfer of 100 goes from the token account to the state account; on success supplies are unchanged, the token account drops by 100, the state account rises by 100 and no other account changes |
| `HelpetUnlock.SpendTokensSpec` | programs/helpet_unlock/src/lib.rs:85-117 | fewer than 3 accounts fail, then a missing byte 1 aborts, then an unreadable account or a balance below `data[1]` fails with `InsufficientFunds`; otherwise exactly one transfer of `data[1]` (at most 255) goes from the token account to the player account, with supplies and all other accounts unchanged |
| `HelpetUnlock.ProcessSpec` | programs/helpet_unlock/src/lib.rs:19-33 | opcode 0 runs only `unlock_animal` and opcode 1 only `spend_tokens`; empty data aborts and any other opcode fails with `InvalidInstructionData`, whatever the accounts |
| `HelpetUnlock.UnlockTwiceFromHundredFifty` | programs/helpet_unlock/src/lib.rs:49-71 | from a balance of 150 one unlock leaves 50 and credits the state account with 100; a second unlock then fails with `InsufficientFunds` |
| `HelpetUnlock.UnlockAnimalHandler` | programs/helpet_unlock/src/lib.rs:42-75 | the handler's result and ledger agree with `UnlockAnimalSpec`; on failure the ledger is untouched |
| `HelpetUnlock.SpendTokensHandler` | programs/helpet_unlock/src/lib.rs:85-117 | the handler's result and ledger agree with `SpendTokensSpec`; on failure the ledger is untouched |
| `HelpetUnlock.ProcessInstruction` | programs/helpet_unlock/src/lib.rs:19-33 | the router's result and ledger agree with `ProcessSpec` |
| `HelpetRewards.Decode` | programs/helpet_rewards/src/lib.rs:26-34 | empty data aborts; bytes 0 and 1 are the only accepted opcodes and each is the encoding of the opcode decoded; every other byte is `InvalidInstructionData` |
| `HelpetRewards.DecodeEncode` | programs/helpet_rewards/src/lib.rs:26-34 | an encoded opcode decodes back to itself whatever payload follows |
| `HelpetRewards.CollectBonesSpec` | programs/helpet_rewards/src/lib.rs:45-74 | fewer than 4 accounts fail before any ledger call; otherwise the outcome is one mint of exactly 10 to the token account, whatever the payload; on success that mint's supply and that one balance rise by 10 and nothing else changes |
| `HelpetRewards.UnlockAnimalSpec` | programs/helpet_rewards/src/lib.rs:83-109 | fewer than 3 accounts fail before any ledger call; otherwise the outcome is that of one transfer of 100 from the token account to the player account, with no local check, so when both accounts are token accounts a balance below 100 fails with the token program's own `InsufficientFunds`, whatever their mints; on success supplies are unchanged and exactly 100 moves |
| `HelpetRewards.ProcessSpec` | programs/helpet_rewards/src/lib.rs:21-35 | opcode 0 runs only `collect_bones` and opcode 1 only `unlock_animal`; empty data aborts and any other opcode fails with `InvalidInstructionData`, whatever the accounts |
| `HelpetRewards.CollectBonesTimes` | programs/helpet_rewards/src/lib.rs:52-70 | after k successful collections through the router the token account and the mint's supply have each risen by 10·k |
| `HelpetRewards.CollectBonesTimesIsOneMint` | programs/helpet_rewards/src/lib.rs:52-70 | k ≥ 1 collections give the same outcome, error and ledger as one mint of 10·k |
| `HelpetRewards.CollectThenUnlock` | programs/helpet_rewards/src/lib.rs:45-105 | with the mint and token accounts set up and no overflow, k collections all succeed, and the following unlock succeeds exactly when the starting balance b satisfies b + 10·k ≥ 100 |
| `HelpetRewards.CollectBonesHandler` | programs/helpet_rewards/src/lib.rs:45-74 | the handler's result and ledger agree with `CollectBonesSpec`; on failure the ledger is untouched |
| `HelpetRewards.UnlockAnimalHandler` | programs/helpet_rewards/src/lib.rs:83-109 | the handler's result and ledger agree with the rewards `UnlockAnimalSpec`; on failure the ledger is untouched |
| `HelpetRewards.ProcessInstruction` | programs/helpet_rewards/src/lib.rs:21-35 | the router's result and ledger agree with the rewards `ProcessSpec` |
| `HelpetToken.InitializeToken` | programs/helpet_token/src/lib.rs:20-32 | succeeds exactly when at least one account is supplied, and otherwise fails with `NotEnoughAccountKeys` |
| `HelpetToken.InitializeTokenSpec` | programs/helpet_token/src/lib.rs:20-32 | as a ledger transition, succeeds exactly when an account is supplied and never changes the ledger |
| `HelpetToken.MintTokensSpec` | programs/helpet_token/src/lib.rs:35-73 | fewer than 3 accounts or an unreadable mint fail; a mint whose decimals are not 18 fails with `InvalidArgument` and nothing is minted; success implies decimals 18, and the supply and the token account each rise by exactly `amount` with nothing else changed |
| `HelpetToken.TransferTokensSpec` | programs/helpet_token/src/lib.rs:76-108 | fewer than 3 accounts fail; otherwise, with no local balance check, the outcome is one transfer of `amount` from the first account to the second; supplies are unchanged and exactly `amount` moves |
| `HelpetToken.Payment` | programs/helpet_token/src/lib.rs:131-157 | the USDC payment moves `usdcAmount` from the USDC account to the payer: it succeeds only when both are token accounts of one mint, leaves every supply and every other account unchanged, and for distinct accounts debits the USDC account and credits the payer by exactly `usdcAmount`; a USDC balance below `usdcAmount` fails with `InsufficientFunds` |
| `HelpetToken.BuyTokensWithUsdcSpec` | programs/helpet_token/src/lib.rs:111-169 | fewer than 4 accounts fail; a failed payment fails the purchase with its error and no mint; after the payment the outcome is the mint's; on success the mint's supply rises by `tokensToMint`, only the three named accounts change, and for distinct accounts the USDC account loses `usdcAmount`, the payer gains it and the HPET account gains `tokensToMint` |
| `HelpetToken.MintTokens` | programs/helpet_token/src/lib.rs:35-73 | the handler's result and ledger agree with `MintTokensSpec`; on failure the ledger is untouched |
| `HelpetToken.TransferTokens` | programs/helpet_token/src/lib.rs:76-108 | the handler's result and ledger agree with `TransferTokensSpec`; on failure the ledger is untouched |
| `HelpetToken.BuyTokensWithUsdc` | programs/helpet_token/src/lib.rs:111-169 | the handler's result agrees with `BuyTokensWithUsdcSpec`. On failure the handler leaves the ledger unchanged when the payment failed. When only the mint failed, it leaves the ledger paid and never minted to. |
| `Runtime.FailedMintRollsBackPayment` | programs/helpet_token/src/lib.rs:150-166 | when the payment succeeds but the mint is refused, the purchase fails and the transaction commits the original ledger |
| `Runtime.CommittedKeepsDecimals` | programs/helpet_token/src/lib.rs:45-49 | no transaction of any of the three programs adds or removes a mint or token account, or changes any mint's decimals |
| `Runtime.Execute` | programs/helpet_token/src/lib.rs:150-166 | a transaction's result and committed ledger agree with its program's specification; any failure leaves the ledger exactly as it was before |

## Left out

- `msg!` logging, the `entrypoint!` macro, the `program_id` arguments and the sysvar/rent imports: none of them affect the logic.
- The token program's internals: byte layouts of `Mint`/`TokenAccount`, authority and signer checks, frozen and native accounts. The ledger therefore accepts a mint or transfer whatever authority the handler names. In particular it does not reject `collect_bones` naming the player as mint authority.
- The check done when an instruction is built (`token_instruction::transfer(...)?` / `mint_to(...)?`). Its program-id test can refuse a caller-supplied token program key. The model issues the ledger call directly.
- The account list given to `invoke`. In helpet_unlock and in the rewards `unlock_animal`, `token_instruction::transfer` is called with five arguments and no authority. That does not match the token program's six-argument builder. The model keeps the source and destination as written.
- The float conversion in `buy_tokens_with_usdc` (`usdc_amount as f64 / 0.0999`). Floating point is out of scope, so the minted quantity `tokensToMint` is an input.
- `try_borrow_data` failing because an account is already borrowed: this cannot happen within one sequential handler.
- The runtime's account locking and concurrent transactions. Atomicity is modelled only as restoring the saved ledger when a handler fails.
- The real 32-byte public keys: keys are abstract numbers.
- `TokenLedger.UnpackAccount`: an account that is allocated but not initialised gives `InvalidAccountData` here, where the token program gives `UninitializedAccount`. The ledger does not distinguish uninitialised accounts from accounts it does not hold.
- Keeping mints and token accounts apart: the ledger's two maps are independent, so one key can be both a mint and a token account (then `MintTo(s, k, k, n)` can succeed). In the token program an account holds one or the other. No property here depends on keeping them apart.
- The Anchor `initialize` in hel-pet-game/src/lib.rs and its client test. They only log.

/** The helpet_token program: setting up the HPET token, minting it to an
    account once the mint is checked to have 18 decimals, transferring it, and
    buying it with USDC (a payment transfer followed by a mint). */
module HelpetToken {
  import opened Solana
  import opened TokenLedger

  /** The precision the HPET mint must declare. */
  const HPET_DECIMALS: U8 := 18

  /** `initialize_token` needs one account (the payer) and does nothing else:
      it succeeds exactly when an account is supplied. */
  method InitializeToken(accounts: seq<Pubkey>, seed: seq<U8>) returns (r: ProgramResult)
    ensures r.Ok? <==> |accounts| >= 1
    ensures r.Err? ==> r.error == NotEnoughAccountKeys
  {
    var iter := new AccountIter(accounts);
    var payerAccount :- iter.NextAccountInfo();
    r := Ok(());
  }

  /** `initialize_token` as a ledger transition: the ledger is never touched. */
  function InitializeTokenSpec(s: LedgerState, accounts: seq<Pubkey>): (r: Result<LedgerState>)
    ensures r.Ok? <==> |accounts| >= 1
    ensures r.Ok? ==> r.value == s
  {
    if |accounts| < 1 then Err(NotEnoughAccountKeys) else Ok(s)
  }

  /** `mint_tokens` over accounts [payer, token account, mint]: too few
      accounts or an unreadable mint fail first, a mint whose decimals are not
      18 is refused with `InvalidArgument` and nothing is minted; otherwise the
      outcome is exactly that of one mint of `amount`, so on success the supply
      and the token account each rise by `amount` and nothing else changes. */
  function MintTokensSpec(s: LedgerState, accounts: seq<Pubkey>, amount: U64): (r: Result<LedgerState>)
    ensures |accounts| < 3 ==> r == Err(NotEnoughAccountKeys)
    ensures |accounts| >= 3 && accounts[2] !in s.mints ==> r == Err(InvalidAccountData)
    ensures |accounts| >= 3 && accounts[2] in s.mints && s.mints[accounts[2]].decimals != HPET_DECIMALS ==>
              r == Err(InvalidArgument)
    ensures |accounts| >= 3 && accounts[2] in s.mints && s.mints[accounts[2]].decimals == HPET_DECIMALS ==>
              r == MintTo(s, accounts[2], accounts[1], amount)
    ensures r.Ok? ==>
              && |accounts| >= 3
              && s.mints[accounts[2]].decimals == HPET_DECIMALS
              && MintsFramed(s, r.value, {accounts[2]})
              && r.value.mints[accounts[2]].supply == s.mints[accounts[2]].supply + amount
              && AccountsFramed(s, r.value, {accounts[1]})
              && r.value.accounts[accounts[1]].amount == s.accounts[accounts[1]].amount + amount
  {
    if |accounts| < 3 then Err(NotEnoughAccountKeys)
    else
      var tokenAccount, mintAccount := accounts[1], accounts[2];
      match UnpackMint(s, mintAccount)
      case Err(e) => Err(e)
      case Ok(mint) =>
        if mint.decimals != HPET_DECIMALS then Err(InvalidArgument)
        else MintTo(s, mintAccount, tokenAccount, amount)
  }

  /** `transfer_tokens` over accounts [sender, recipient, token account]: too
      few accounts fail; otherwise, with no balance check of its own, the
      outcome is exactly that of one transfer of `amount` from the sender to
      the recipient, which leaves every supply as it was. */
  function TransferTokensSpec(s: LedgerState, accounts: seq<Pubkey>, amount: U64): (r: Result<LedgerState>)
    ensures |accounts| < 3 ==> r == Err(NotEnoughAccountKeys)
    ensures |accounts| >= 3 ==> r == Transfer(s, accounts[0], accounts[1], amount)
    ensures r.Ok? ==> |accounts| >= 3 && r.value.mints == s.mints && AccountsFramed(s, r.value, {accounts[0], accounts[1]})
    ensures r.Ok? && accounts[0] != accounts[1] ==>
              && r.value.accounts[accounts[0]].amount == s.accounts[accounts[0]].amount - amount
              && r.value.accounts[accounts[1]].amount == s.accounts[accounts[1]].amount + amount
  {
    if |accounts| < 3 then Err(NotEnoughAccountKeys)
    else
      var senderAccount, recipientAccount := accounts[0], accounts[1];
      Transfer(s, senderAccount, recipientAccount, amount)
  }

  /** The payment step of `buy_tokens_with_usdc`: `usdcAmount` from the USDC
      account (accounts[1]) to the payer (accounts[0]). */
  function Payment(s: LedgerState, accounts: seq<Pubkey>, usdcAmount: U64): (r: Result<LedgerState>)
    requires |accounts| >= 4
    ensures r.Ok? ==>
              && accounts[0] in s.accounts && accounts[1] in s.accounts
              && s.accounts[accounts[0]].mint == s.accounts[accounts[1]].mint
              && r.value.mints == s.mints && AccountsFramed(s, r.value, {accounts[0], accounts[1]})
    ensures r.Ok? && accounts[0] != accounts[1] ==>
              && r.value.accounts[accounts[1]].amount == s.accounts[accounts[1]].amount - usdcAmount
              && r.value.accounts[accounts[0]].amount == s.accounts[accounts[0]].amount + usdcAmount
    ensures accounts[1] in s.accounts && accounts[0] in s.accounts && s.accounts[accounts[1]].amount < usdcAmount ==>
              r == Err(Custom(TokenError.InsufficientFunds))
  {
    Transfer(s, accounts[1], accounts[0], usdcAmount)
  }

  /** `buy_tokens_with_usdc` over accounts [payer, USDC account, HPET account,
      mint], where `tokensToMint` is the already converted quantity: too few
      accounts fail; a failed payment fails the purchase with its error and no
      mint is issued; after a payment the outcome is that of the mint on the
      paid ledger. On success the mint's supply rises by `tokensToMint`, and
      when the three accounts are distinct the USDC account loses `usdcAmount`,
      the payer gains it and the HPET account gains `tokensToMint`. */
  function BuyTokensWithUsdcSpec(s: LedgerState, accounts: seq<Pubkey>, usdcAmount: U64, tokensToMint: U64): (r: Result<LedgerState>)
    ensures |accounts| < 4 ==> r == Err(NotEnoughAccountKeys)
    ensures |accounts| >= 4 && Payment(s, accounts, usdcAmount).Err? ==> r == Err(Payment(s, accounts, usdcAmount).error)
    ensures |accounts| >= 4 && Payment(s, accounts, usdcAmount).Ok? ==>
              r == MintTo(Payment(s, accounts, usdcAmount).value, accounts[3], accounts[2], tokensToMint)
    ensures r.Ok? ==>
              && |accounts| >= 4
              && MintsFramed(s, r.value, {accounts[3]})
              && r.value.mints[accounts[3]].supply == s.mints[accounts[3]].supply + tokensToMint
              && AccountsFramed(s, r.value, {accounts[0], accounts[1], accounts[2]})
    ensures r.Ok? && accounts[0] != accounts[1] && accounts[0] != accounts[2] && accounts[1] != accounts[2] ==>
              && r.value.accounts[accounts[1]].amount == s.accounts[accounts[1]].amount - usdcAmount
              && r.value.accounts[accounts[0]].amount == s.accounts[accounts[0]].amount + usdcAmount
              && r.value.accounts[accounts[2]].amount == s.accounts[accounts[2]].amount + tokensToMint
  {
    if |accounts| < 4 then Err(NotEnoughAccountKeys)
    else
      var helpetAccount, mintAccount := accounts[2], accounts[3];
      match Payment(s, accounts, usdcAmount)
      case Err(e) => Err(e)
      case Ok(paid) => MintTo(paid, mintAccount, helpetAccount, tokensToMint)
  }

  method MintTokens(ledger: Ledger, accounts: seq<Pubkey>, amount: U64) returns (r: ProgramResult)
    modifies ledger
    ensures Reflects(r, old(ledger.State()), ledger.State(), MintTokensSpec(old(ledger.State()), accounts, amount))
  {
    var iter := new AccountIter(accounts);
    var payerAccount :- iter.NextAccountInfo();
    var tokenAccount :- iter.NextAccountInfo();
    var mintAccount :- iter.NextAccountInfo();

    var mint :- ledger.GetMint(mintAccount);
    if mint.decimals != HPET_DECIMALS {
      return Err(InvalidArgument);
    }

    r := ledger.InvokeMintTo(mintAccount, tokenAccount, amount);
  }

  method TransferTokens(ledger: Ledger, accounts: seq<Pubkey>, amount: U64) returns (r: ProgramResult)
    modifies ledger
    ensures Reflects(r, old(ledger.State()), ledger.State(), TransferTokensSpec(old(ledger.State()), accounts, amount))
  {
    var iter := new AccountIter(accounts);
    var senderAccount :- iter.NextAccountInfo();
    var recipientAccount :- iter.NextAccountInfo();
    var tokenAccount :- iter.NextAccountInfo();

    r := ledger.InvokeTransfer(senderAccount, recipientAccount, amount);
  }

  /** On failure the ledger is left as the handler leaves it, before the
      runtime discards the transaction: untouched when the payment failed, and
      paid but never minted to when the mint failed. */
  method BuyTokensWithUsdc(ledger: Ledger, accounts: seq<Pubkey>, usdcAmount: U64, tokensToMint: U64) returns (r: ProgramResult)
    modifies ledger
    ensures var spec := BuyTokensWithUsdcSpec(old(ledger.State()), accounts, usdcAmount, tokensToMint);
            && (r.Ok? <==> spec.Ok?)
            && (r.Ok? ==> ledger.State() == spec.value)
            && (r.Err? ==> r.error == spec.error)
    ensures r.Err? ==>
              if |accounts| >= 4 && Payment(old(ledger.State()), accounts, usdcAmount).Ok?
              then ledger.State() == Payment(old(ledger.State()), accounts, usdcAmount).value
              else ledger.State() == old(ledger.State())
  {
    var iter := new AccountIter(accounts);
    var payerAccount :- iter.NextAccountInfo();
    var usdcAccount :- iter.NextAccountInfo();
    var helpetAccount :- iter.NextAccountInfo();
    var mintAccount :- iter.NextAccountInfo();

    var paid := ledger.InvokeTransfer(usdcAccount, payerAccount, usdcAmount);
    if paid.Err? {
      return paid;
    }
    r := ledger.InvokeMintTo(mintAccount, helpetAccount, tokensToMint);
  }
}

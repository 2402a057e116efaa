/** The runtime's side of a transaction: it runs one entry point of one of the
    three programs against the ledger and, when the handler returns an error,
    discards every ledger change the handler made, so a transaction is all or
    nothing. */
module Runtime {
  import opened Solana
  import opened TokenLedger
  import HelpetUnlock
  import HelpetRewards
  import HelpetToken

  /** An instruction addressed to one of the three programs. The two routed
      programs take raw instruction data; the token program's entry points take
      their decoded arguments. */
  datatype Instruction =
    | UnlockProgram(data: seq<U8>)
    | RewardsProgram(data: seq<U8>)
    | InitializeToken(seed: seq<U8>)
    | MintTokens(amount: U64)
    | TransferTokens(amount: U64)
    | BuyTokensWithUsdc(usdcAmount: U64, tokensToMint: U64)

  /** The ledger a transaction commits, or the error it fails with. */
  function Spec(s: LedgerState, ix: Instruction, accounts: seq<Pubkey>): Result<LedgerState> {
    match ix
    case UnlockProgram(data) => HelpetUnlock.ProcessSpec(s, accounts, data)
    case RewardsProgram(data) => HelpetRewards.ProcessSpec(s, accounts, data)
    case InitializeToken(_) => HelpetToken.InitializeTokenSpec(s, accounts)
    case MintTokens(amount) => HelpetToken.MintTokensSpec(s, accounts, amount)
    case TransferTokens(amount) => HelpetToken.TransferTokensSpec(s, accounts, amount)
    case BuyTokensWithUsdc(usdcAmount, tokensToMint) =>
      HelpetToken.BuyTokensWithUsdcSpec(s, accounts, usdcAmount, tokensToMint)
  }

  /** The ledger the runtime keeps after the transaction. */
  function Committed(s: LedgerState, ix: Instruction, accounts: seq<Pubkey>): LedgerState {
    match Spec(s, ix, accounts)
    case Ok(t) => t
    case Err(_) => s
  }

  /** A purchase whose mint is refused commits nothing: the payment that
      already went through is rolled back with it. */
  lemma FailedMintRollsBackPayment(s: LedgerState, accounts: seq<Pubkey>, usdcAmount: U64, tokensToMint: U64)
    requires |accounts| >= 4 && HelpetToken.Payment(s, accounts, usdcAmount).Ok?
    requires MintTo(HelpetToken.Payment(s, accounts, usdcAmount).value, accounts[3], accounts[2], tokensToMint).Err?
    ensures Spec(s, BuyTokensWithUsdc(usdcAmount, tokensToMint), accounts).Err?
    ensures Committed(s, BuyTokensWithUsdc(usdcAmount, tokensToMint), accounts) == s
  {
  }

  /** No instruction of any program changes the decimals of any mint, and
      none removes or adds a mint or a token account. */
  lemma CommittedKeepsDecimals(s: LedgerState, ix: Instruction, accounts: seq<Pubkey>)
    ensures var t := Committed(s, ix, accounts);
            && t.mints.Keys == s.mints.Keys
            && t.accounts.Keys == s.accounts.Keys
            && forall m :: m in s.mints ==> t.mints[m].decimals == s.mints[m].decimals
  {
  }

  /** Runs `ix` as a transaction: snapshot, run the handler, put the snapshot
      back when the handler fails. */
  method Execute(ledger: Ledger, ix: Instruction, accounts: seq<Pubkey>) returns (r: ProgramResult)
    modifies ledger
    ensures Reflects(r, old(ledger.State()), ledger.State(), Spec(old(ledger.State()), ix, accounts))
    ensures ledger.State() == Committed(old(ledger.State()), ix, accounts)
  {
    var snapshot := ledger.State();
    match ix {
    case UnlockProgram(data) =>
      r := HelpetUnlock.ProcessInstruction(ledger, accounts, data);
    case RewardsProgram(data) =>
      r := HelpetRewards.ProcessInstruction(ledger, accounts, data);
    case InitializeToken(seed) =>
      r := HelpetToken.InitializeToken(accounts, seed);
    case MintTokens(amount) =>
      r := HelpetToken.MintTokens(ledger, accounts, amount);
    case TransferTokens(amount) =>
      r := HelpetToken.TransferTokens(ledger, accounts, amount);
    case BuyTokensWithUsdc(usdcAmount, tokensToMint) =>
      r := HelpetToken.BuyTokensWithUsdc(ledger, accounts, usdcAmount, tokensToMint);
    }
    if r.Err? {
      ledger.Restore(snapshot);
    }
  }
}

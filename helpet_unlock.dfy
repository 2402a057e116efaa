/** The helpet_unlock program: byte 0 of the instruction data selects
    `unlock_animal` (a fixed cost of 100 HPET paid to the animal state account)
    or `spend_tokens` (a cost read from byte 1, paid to the player account).
    Both handlers check the balance before issuing their one transfer. */
module HelpetUnlock {
  import opened Solana
  import opened TokenLedger

  /** Tokens it costs to unlock an animal. */
  const REQUIRED_HPET: U64 := 100

  /** The closed set of opcodes this program accepts. */
  datatype Instruction = UnlockAnimal | SpendTokens

  function Encode(ix: Instruction): U8 {
    match ix
    case UnlockAnimal => 0
    case SpendTokens => 1
  }

  /** Reads the opcode in byte 0. Empty data aborts, any byte but 0 and 1 is
      rejected; an accepted byte is the encoding of the opcode it yields. */
  function Decode(data: seq<U8>): (r: Result<Instruction>)
    ensures |data| == 0 ==> r == Err(Panic)
    ensures |data| > 0 && data[0] > 1 ==> r == Err(InvalidInstructionData)
    ensures r.Ok? <==> |data| > 0 && data[0] <= 1
    ensures r.Ok? ==> Encode(r.value) == data[0]
  {
    if |data| == 0 then Err(Panic)
    else if data[0] == 0 then Ok(UnlockAnimal)
    else if data[0] == 1 then Ok(SpendTokens)
    else Err(InvalidInstructionData)
  }

  /** Every opcode survives encoding, whatever payload follows it. */
  lemma DecodeEncode(ix: Instruction, payload: seq<U8>)
    ensures Decode([Encode(ix)] + payload) == Ok(ix)
  {
  }

  /** `unlock_animal` over accounts [player, player token account, token
      program, animal state account]: too few accounts, an unreadable token
      account or a balance below 100 fail before any ledger call; otherwise the
      outcome is exactly that of one transfer of 100 from the player's token
      account to the state account. */
  function UnlockAnimalSpec(s: LedgerState, accounts: seq<Pubkey>): (r: Result<LedgerState>)
    ensures |accounts| < 4 ==> r == Err(NotEnoughAccountKeys)
    ensures |accounts| >= 4 && accounts[1] !in s.accounts ==> r == Err(InvalidAccountData)
    ensures |accounts| >= 4 && accounts[1] in s.accounts && s.accounts[accounts[1]].amount < REQUIRED_HPET ==>
              r == Err(ProgramError.InsufficientFunds)
    ensures |accounts| >= 4 && accounts[1] in s.accounts && s.accounts[accounts[1]].amount >= REQUIRED_HPET ==>
              r == Transfer(s, accounts[1], accounts[3], REQUIRED_HPET)
    ensures r.Ok? ==> |accounts| >= 4 && r.value.mints == s.mints && AccountsFramed(s, r.value, {accounts[1], accounts[3]})
    ensures r.Ok? && accounts[1] != accounts[3] ==>
              && r.value.accounts[accounts[1]].amount == s.accounts[accounts[1]].amount - REQUIRED_HPET
              && r.value.accounts[accounts[3]].amount == s.accounts[accounts[3]].amount + REQUIRED_HPET
  {
    if |accounts| < 4 then Err(NotEnoughAccountKeys)
    else
      var hpetTokenAccount, animalStateAccount := accounts[1], accounts[3];
      match UnpackAccount(s, hpetTokenAccount)
      case Err(e) => Err(e)
      case Ok(tokenBalance) =>
        if tokenBalance.amount < REQUIRED_HPET then Err(ProgramError.InsufficientFunds)
        else Transfer(s, hpetTokenAccount, animalStateAccount, REQUIRED_HPET)
  }

  /** `spend_tokens` over accounts [player, player token account, token
      program], spending `data[1]` (so never more than 255): too few accounts
      fail first, then missing byte 1 aborts, then an unreadable token account
      or a balance below the amount fail; otherwise the outcome is exactly that
      of one transfer of the amount from the token account to the player. */
  function SpendTokensSpec(s: LedgerState, accounts: seq<Pubkey>, data: seq<U8>): (r: Result<LedgerState>)
    ensures |accounts| < 3 ==> r == Err(NotEnoughAccountKeys)
    ensures |accounts| >= 3 && |data| < 2 ==> r == Err(Panic)
    ensures |accounts| >= 3 && |data| >= 2 && accounts[1] !in s.accounts ==> r == Err(InvalidAccountData)
    ensures |accounts| >= 3 && |data| >= 2 && accounts[1] in s.accounts && s.accounts[accounts[1]].amount < data[1] ==>
              r == Err(ProgramError.InsufficientFunds)
    ensures |accounts| >= 3 && |data| >= 2 && accounts[1] in s.accounts && s.accounts[accounts[1]].amount >= data[1] ==>
              r == Transfer(s, accounts[1], accounts[0], data[1])
    ensures r.Ok? ==> |accounts| >= 3 && |data| >= 2 && r.value.mints == s.mints && AccountsFramed(s, r.value, {accounts[0], accounts[1]})
    ensures r.Ok? && accounts[0] != accounts[1] ==>
              && 0 <= s.accounts[accounts[1]].amount - r.value.accounts[accounts[1]].amount == data[1] <= U8_MAX
              && r.value.accounts[accounts[0]].amount == s.accounts[accounts[0]].amount + data[1]
  {
    if |accounts| < 3 then Err(NotEnoughAccountKeys)
    else if |data| < 2 then Err(Panic)
    else
      var playerAccount, hpetTokenAccount, amount := accounts[0], accounts[1], data[1];
      match UnpackAccount(s, hpetTokenAccount)
      case Err(e) => Err(e)
      case Ok(tokenBalance) =>
        if tokenBalance.amount < amount then Err(ProgramError.InsufficientFunds)
        else Transfer(s, hpetTokenAccount, playerAccount, amount)
  }

  /** `process_instruction`: opcode 0 runs only `unlock_animal`, opcode 1 runs
      only `spend_tokens`, empty data aborts and any other opcode is rejected
      with `InvalidInstructionData`, whatever the accounts. */
  function ProcessSpec(s: LedgerState, accounts: seq<Pubkey>, data: seq<U8>): (r: Result<LedgerState>)
    ensures |data| == 0 ==> r == Err(Panic)
    ensures |data| > 0 && data[0] == 0 ==> r == UnlockAnimalSpec(s, accounts)
    ensures |data| > 0 && data[0] == 1 ==> r == SpendTokensSpec(s, accounts, data)
    ensures |data| > 0 && data[0] > 1 ==> r == Err(InvalidInstructionData)
  {
    match Decode(data)
    case Err(e) => Err(e)
    case Ok(UnlockAnimal) => UnlockAnimalSpec(s, accounts)
    case Ok(SpendTokens) => SpendTokensSpec(s, accounts, data)
  }

  /** A player holding 150 unlocks once and keeps 50, the state account gains
      100; a second unlock on the result fails with `InsufficientFunds` and
      changes nothing. */
  lemma UnlockTwiceFromHundredFifty(s: LedgerState, player: Pubkey, token: Pubkey, program: Pubkey, state: Pubkey)
    requires token in s.accounts && state in s.accounts && token != state
    requires s.accounts[token].amount == 150 && s.accounts[state].mint == s.accounts[token].mint
    requires s.accounts[state].amount + REQUIRED_HPET <= U64_MAX
    ensures var first := ProcessSpec(s, [player, token, program, state], [0]);
            && first.Ok?
            && first.value.accounts[token].amount == 50
            && first.value.accounts[state].amount == s.accounts[state].amount + 100
            && ProcessSpec(first.value, [player, token, program, state], [0]) == Err(ProgramError.InsufficientFunds)
  {
  }

  method UnlockAnimalHandler(ledger: Ledger, accounts: seq<Pubkey>, instructionData: seq<U8>) returns (r: ProgramResult)
    modifies ledger
    ensures Reflects(r, old(ledger.State()), ledger.State(), UnlockAnimalSpec(old(ledger.State()), accounts))
  {
    var iter := new AccountIter(accounts);
    var playerAccount :- iter.NextAccountInfo();
    var hpetTokenAccount :- iter.NextAccountInfo();
    var tokenProgram :- iter.NextAccountInfo();
    var animalStateAccount :- iter.NextAccountInfo();

    var tokenBalance :- ledger.GetAccount(hpetTokenAccount);
    if tokenBalance.amount < REQUIRED_HPET {
      return Err(ProgramError.InsufficientFunds);
    }

    r := ledger.InvokeTransfer(hpetTokenAccount, animalStateAccount, REQUIRED_HPET);
  }

  method SpendTokensHandler(ledger: Ledger, accounts: seq<Pubkey>, instructionData: seq<U8>) returns (r: ProgramResult)
    modifies ledger
    ensures Reflects(r, old(ledger.State()), ledger.State(), SpendTokensSpec(old(ledger.State()), accounts, instructionData))
  {
    var iter := new AccountIter(accounts);
    var playerAccount :- iter.NextAccountInfo();
    var hpetTokenAccount :- iter.NextAccountInfo();
    var tokenProgram :- iter.NextAccountInfo();

    if |instructionData| < 2 {
      return Err(Panic);
    }
    var amount := instructionData[1];

    var tokenBalance :- ledger.GetAccount(hpetTokenAccount);
    if tokenBalance.amount < amount {
      return Err(ProgramError.InsufficientFunds);
    }

    r := ledger.InvokeTransfer(hpetTokenAccount, playerAccount, amount);
  }

  method ProcessInstruction(ledger: Ledger, accounts: seq<Pubkey>, instructionData: seq<U8>) returns (r: ProgramResult)
    modifies ledger
    ensures Reflects(r, old(ledger.State()), ledger.State(), ProcessSpec(old(ledger.State()), accounts, instructionData))
  {
    if |instructionData| == 0 {
      return Err(Panic);
    }
    var instruction := instructionData[0];
    if instruction == 0 {
      r := UnlockAnimalHandler(ledger, accounts, instructionData);
    } else if instruction == 1 {
      r := SpendTokensHandler(ledger, accounts, instructionData);
    } else {
      r := Err(InvalidInstructionData);
    }
  }
}

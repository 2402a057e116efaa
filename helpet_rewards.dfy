/** The helpet_rewards program: byte 0 of the instruction data selects
    `collect_bones` (mint a fixed 10 HPET to the player's token account) or
    `unlock_animal` (transfer a fixed 100 HPET from the player's token account
    to the player account, with no balance check of its own). */
module HelpetRewards {
  import opened Solana
  import opened TokenLedger

  /** Tokens minted per collected bone. */
  const BONE_REWARD: U64 := 10

  /** Tokens it costs to unlock an animal. */
  const UNLOCK_COST: U64 := 100

  /** The closed set of opcodes this program accepts. */
  datatype Instruction = CollectBones | UnlockAnimal

  function Encode(ix: Instruction): U8 {
    match ix
    case CollectBones => 0
    case UnlockAnimal => 1
  }

  /** Reads the opcode in byte 0. Empty data aborts, any byte but 0 and 1 is
      rejected; an accepted byte is the encoding of the opcode it yields. */
  function Decode(data: seq<U8>): (r: Result<Instruction>)
    ensures |data| == 0 ==> r == Err(Panic)
    ensures |data| > 0 && data[0] > 1 ==> r == Err(InvalidInstructionData)
    ensures r.Ok? <==> |data| > 0 && data[0] <= 1
    ensures r.Ok? ==> Encode(r.value) == data[0]
  {
    if |data| == 0 then Err(Panic)
    else if data[0] == 0 then Ok(CollectBones)
    else if data[0] == 1 then Ok(UnlockAnimal)
    else Err(InvalidInstructionData)
  }

  /** Every opcode survives encoding, whatever payload follows it. */
  lemma DecodeEncode(ix: Instruction, payload: seq<U8>)
    ensures Decode([Encode(ix)] + payload) == Ok(ix)
  {
  }

  /** `collect_bones` over accounts [player, HPET mint, player token account,
      token program]: too few accounts fail before any ledger call; otherwise
      the outcome is exactly that of one mint of 10 to the token account, so
      on success the mint's supply and that one balance rise by 10 and nothing
      else changes. */
  function CollectBonesSpec(s: LedgerState, accounts: seq<Pubkey>): (r: Result<LedgerState>)
    ensures |accounts| < 4 ==> r == Err(NotEnoughAccountKeys)
    ensures |accounts| >= 4 ==> r == MintTo(s, accounts[1], accounts[2], BONE_REWARD)
    ensures r.Ok? ==>
              && |accounts| >= 4
              && MintsFramed(s, r.value, {accounts[1]})
              && r.value.mints[accounts[1]].supply == s.mints[accounts[1]].supply + BONE_REWARD
              && AccountsFramed(s, r.value, {accounts[2]})
              && r.value.accounts[accounts[2]].amount == s.accounts[accounts[2]].amount + BONE_REWARD
  {
    if |accounts| < 4 then Err(NotEnoughAccountKeys)
    else
      var hpetMint, hpetTokenAccount := accounts[1], accounts[2];
      MintTo(s, hpetMint, hpetTokenAccount, BONE_REWARD)
  }

  /** `unlock_animal` over accounts [player, player token account, token
      program]: too few accounts fail before any ledger call; otherwise the
      outcome is exactly that of one transfer of 100 from the token account to
      the player, including the ledger's own rejection of a low balance. */
  function UnlockAnimalSpec(s: LedgerState, accounts: seq<Pubkey>): (r: Result<LedgerState>)
    ensures |accounts| < 3 ==> r == Err(NotEnoughAccountKeys)
    ensures |accounts| >= 3 ==> r == Transfer(s, accounts[1], accounts[0], UNLOCK_COST)
    ensures && |accounts| >= 3 && accounts[0] in s.accounts && accounts[1] in s.accounts
            && s.accounts[accounts[1]].amount < UNLOCK_COST
            ==> r == Err(Custom(TokenError.InsufficientFunds))
    ensures r.Ok? ==> |accounts| >= 3 && r.value.mints == s.mints && AccountsFramed(s, r.value, {accounts[0], accounts[1]})
    ensures r.Ok? && accounts[0] != accounts[1] ==>
              && r.value.accounts[accounts[1]].amount == s.accounts[accounts[1]].amount - UNLOCK_COST
              && r.value.accounts[accounts[0]].amount == s.accounts[accounts[0]].amount + UNLOCK_COST
  {
    if |accounts| < 3 then Err(NotEnoughAccountKeys)
    else
      var playerAccount, hpetTokenAccount := accounts[0], accounts[1];
      Transfer(s, hpetTokenAccount, playerAccount, UNLOCK_COST)
  }

  /** `process_instruction`: opcode 0 runs only `collect_bones`, opcode 1 runs
      only `unlock_animal`, empty data aborts and any other opcode is rejected
      with `InvalidInstructionData`, whatever the accounts. The payload after
      byte 0 is never read. */
  function ProcessSpec(s: LedgerState, accounts: seq<Pubkey>, data: seq<U8>): (r: Result<LedgerState>)
    ensures |data| == 0 ==> r == Err(Panic)
    ensures |data| > 0 && data[0] == 0 ==> r == CollectBonesSpec(s, accounts)
    ensures |data| > 0 && data[0] == 1 ==> r == UnlockAnimalSpec(s, accounts)
    ensures |data| > 0 && data[0] > 1 ==> r == Err(InvalidInstructionData)
  {
    match Decode(data)
    case Err(e) => Err(e)
    case Ok(CollectBones) => CollectBonesSpec(s, accounts)
    case Ok(UnlockAnimal) => UnlockAnimalSpec(s, accounts)
  }

  /** The ledger after `k` collect-bones instructions with the same accounts,
      each sent through the router with opcode 0, or the first failure. On
      success the token account and the mint's supply have risen by 10 per
      collection. */
  function CollectBonesTimes(s: LedgerState, accounts: seq<Pubkey>, k: nat): (r: Result<LedgerState>)
    ensures r.Ok? && k > 0 ==> |accounts| >= 4
    ensures r.Ok? && |accounts| >= 4 && accounts[2] in s.accounts ==>
              && accounts[2] in r.value.accounts
              && r.value.accounts[accounts[2]].amount == s.accounts[accounts[2]].amount + BONE_REWARD * k
    ensures r.Ok? && |accounts| >= 4 && accounts[1] in s.mints ==>
              && accounts[1] in r.value.mints
              && r.value.mints[accounts[1]].supply == s.mints[accounts[1]].supply + BONE_REWARD * k
  {
    if k == 0 then Ok(s)
    else
      match CollectBonesTimes(s, accounts, k - 1)
      case Err(e) => Err(e)
      case Ok(t) => ProcessSpec(t, accounts, [0])
  }

  /** One or more collections, `k` of them, are one mint of `10 * k`: the
      same outcome, error and ledger. */
  lemma {:induction false} CollectBonesTimesIsOneMint(s: LedgerState, accounts: seq<Pubkey>, k: nat)
    requires |accounts| >= 4 && 1 <= k && BONE_REWARD * k <= U64_MAX
    ensures CollectBonesTimes(s, accounts, k) == MintTo(s, accounts[1], accounts[2], BONE_REWARD * k)
  {
    if k > 1 {
      CollectBonesTimesIsOneMint(s, accounts, k - 1);
      MintToTwice(s, accounts[1], accounts[2], BONE_REWARD * (k - 1), BONE_REWARD);
    }
  }

  /** A player whose mint and token accounts are set up collects `k` times and
      then unlocks: every collection succeeds, and the unlock succeeds exactly
      when the starting balance plus 10 per collection reaches 100. */
  lemma CollectThenUnlock(s: LedgerState, player: Pubkey, mint: Pubkey, token: Pubkey, program: Pubkey, k: nat)
    requires mint in s.mints && token in s.accounts && s.accounts[token].mint == mint
    requires player in s.accounts && s.accounts[player].mint == mint
    requires s.mints[mint].supply + BONE_REWARD * k <= U64_MAX
    requires s.accounts[token].amount + BONE_REWARD * k <= U64_MAX
    requires player != token ==> s.accounts[player].amount + UNLOCK_COST <= U64_MAX
    ensures var collected := CollectBonesTimes(s, [player, mint, token, program], k);
            && collected.Ok?
            && (ProcessSpec(collected.value, [player, token, program], [1]).Ok? <==>
                s.accounts[token].amount + BONE_REWARD * k >= UNLOCK_COST)
  {
    var collectAccounts := [player, mint, token, program];
    if k > 0 {
      CollectBonesTimesIsOneMint(s, collectAccounts, k);
      var t := MintTo(s, mint, token, BONE_REWARD * k).value;
      assert player != token ==> t.accounts[player] == s.accounts[player];
    }
  }

  method CollectBonesHandler(ledger: Ledger, accounts: seq<Pubkey>) returns (r: ProgramResult)
    modifies ledger
    ensures Reflects(r, old(ledger.State()), ledger.State(), CollectBonesSpec(old(ledger.State()), accounts))
  {
    var iter := new AccountIter(accounts);
    var payerAccount :- iter.NextAccountInfo();
    var hpetMint :- iter.NextAccountInfo();
    var hpetTokenAccount :- iter.NextAccountInfo();
    var tokenProgram :- iter.NextAccountInfo();

    var amount := BONE_REWARD;
    r := ledger.InvokeMintTo(hpetMint, hpetTokenAccount, amount);
  }

  method UnlockAnimalHandler(ledger: Ledger, accounts: seq<Pubkey>) returns (r: ProgramResult)
    modifies ledger
    ensures Reflects(r, old(ledger.State()), ledger.State(), UnlockAnimalSpec(old(ledger.State()), accounts))
  {
    var iter := new AccountIter(accounts);
    var playerAccount :- iter.NextAccountInfo();
    var hpetTokenAccount :- iter.NextAccountInfo();
    var tokenProgram :- iter.NextAccountInfo();

    var cost := UNLOCK_COST;
    r := ledger.InvokeTransfer(hpetTokenAccount, playerAccount, cost);
  }

  method ProcessInstruction(ledger: Ledger, accounts: seq<Pubkey>, instructionData: seq<U8>) returns (r: ProgramResult)
    modifies ledger
    ensures Reflects(r, old(ledger.State()), ledger.State(), ProcessSpec(old(ledger.State()), accounts, instructionData))
  {
    if |instructionData| == 0 {
      return Err(Panic);
    }
    var instruction := instructionData[0];
    if instruction == 0 {
      r := CollectBonesHandler(ledger, accounts);
    } else if instruction == 1 {
      r := UnlockAnimalHandler(ledger, accounts);
    } else {
      r := Err(InvalidInstructionData);
    }
  }
}

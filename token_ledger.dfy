/** The SPL Token program as the three programs see it through `invoke`: an
    abstract ledger of mints and token accounts with two operations, a mint and
    a transfer, each of which either succeeds with its balance effect or fails
    and changes nothing. */
module TokenLedger {
  import opened Solana

  /** A mint: the total supply of its token and the precision it declares. */
  datatype Mint = Mint(supply: U64, decimals: U8)

  /** A token account: the mint whose token it holds and its balance. */
  datatype TokenAccount = TokenAccount(mint: Pubkey, amount: U64)

  /** Everything the token program stores, keyed by account. */
  datatype LedgerState = LedgerState(mints: map<Pubkey, Mint>, accounts: map<Pubkey, TokenAccount>)

  /** `TokenAccount::unpack`: the key must hold an initialised token account. */
  function UnpackAccount(s: LedgerState, key: Pubkey): (r: Result<TokenAccount>)
    ensures r.Ok? <==> key in s.accounts
    ensures r.Ok? ==> r.value == s.accounts[key]
    ensures r.Err? ==> r.error == InvalidAccountData
  {
    if key in s.accounts then Ok(s.accounts[key]) else Err(InvalidAccountData)
  }

  /** `Mint::unpack`: the key must hold an initialised mint. */
  function UnpackMint(s: LedgerState, key: Pubkey): (r: Result<Mint>)
    ensures r.Ok? <==> key in s.mints
    ensures r.Ok? ==> r.value == s.mints[key]
    ensures r.Err? ==> r.error == InvalidAccountData
  {
    if key in s.mints then Ok(s.mints[key]) else Err(InvalidAccountData)
  }

  /** `t` has the same token accounts as `s`, and every one outside `touched`
      is exactly as it was. */
  predicate AccountsFramed(s: LedgerState, t: LedgerState, touched: set<Pubkey>) {
    && t.accounts.Keys == s.accounts.Keys
    && forall a :: a in s.accounts && a !in touched ==> t.accounts[a] == s.accounts[a]
  }

  /** `t` has the same mints as `s`, and every one outside `touched` is exactly
      as it was. */
  predicate MintsFramed(s: LedgerState, t: LedgerState, touched: set<Pubkey>) {
    && t.mints.Keys == s.mints.Keys
    && forall m :: m in s.mints && m !in touched ==> t.mints[m] == s.mints[m]
  }

  /** The transfer the token program performs for `transfer(source,
      destination, amount)`, with its checks in the token program's order:
      both accounts readable, then the balance, then the mints, then overflow.
      Supplies never change; on success the source loses and the destination
      gains exactly `amount`, and nothing else moves. */
  function Transfer(s: LedgerState, source: Pubkey, destination: Pubkey, amount: U64): (r: Result<LedgerState>)
    ensures r.Ok? <==>
              && source in s.accounts && destination in s.accounts
              && s.accounts[source].mint == s.accounts[destination].mint
              && amount <= s.accounts[source].amount
              && (source == destination || s.accounts[destination].amount + amount <= U64_MAX)
    ensures source !in s.accounts || destination !in s.accounts ==> r == Err(InvalidAccountData)
    ensures source in s.accounts && destination in s.accounts && s.accounts[source].amount < amount ==>
              r == Err(Custom(TokenError.InsufficientFunds))
    ensures && source in s.accounts && destination in s.accounts
            && amount <= s.accounts[source].amount
            && s.accounts[source].mint != s.accounts[destination].mint
            ==> r == Err(Custom(MintMismatch))
    ensures r.Ok? ==> r.value.mints == s.mints && AccountsFramed(s, r.value, {source, destination})
    ensures r.Ok? && source != destination ==>
              && r.value.accounts[source] == s.accounts[source].(amount := s.accounts[source].amount - amount)
              && r.value.accounts[destination] == s.accounts[destination].(amount := s.accounts[destination].amount + amount)
    ensures r.Ok? && source == destination ==> r.value == s
  {
    if source !in s.accounts || destination !in s.accounts then Err(InvalidAccountData)
    else
      var from, to := s.accounts[source], s.accounts[destination];
      if from.amount < amount then Err(Custom(TokenError.InsufficientFunds))
      else if from.mint != to.mint then Err(Custom(MintMismatch))
      else if source == destination then Ok(s)
      else if to.amount + amount > U64_MAX then Err(Custom(Overflow))
      else
        Ok(s.(accounts := s.accounts[source := from.(amount := from.amount - amount)]
                                    [destination := to.(amount := to.amount + amount)]))
  }

  /** The mint the token program performs for `mint_to(mint, destination,
      amount)`, with its checks in the token program's order: the destination
      readable, then its mint, then the mint readable, then overflow of the
      balance and of the supply. On success the mint's supply and the destination's balance both
      rise by exactly `amount`, and nothing else changes. */
  function MintTo(s: LedgerState, mint: Pubkey, destination: Pubkey, amount: U64): (r: Result<LedgerState>)
    ensures r.Ok? <==>
              && mint in s.mints && destination in s.accounts
              && s.accounts[destination].mint == mint
              && s.accounts[destination].amount + amount <= U64_MAX
              && s.mints[mint].supply + amount <= U64_MAX
    ensures destination !in s.accounts ==> r == Err(InvalidAccountData)
    ensures destination in s.accounts && s.accounts[destination].mint != mint ==> r == Err(Custom(MintMismatch))
    ensures destination in s.accounts && s.accounts[destination].mint == mint && mint !in s.mints ==>
              r == Err(InvalidAccountData)
    ensures r.Err? && mint in s.mints && destination in s.accounts && s.accounts[destination].mint == mint ==>
              r == Err(Custom(Overflow))
    ensures r.Ok? ==>
              && MintsFramed(s, r.value, {mint})
              && r.value.mints[mint] == s.mints[mint].(supply := s.mints[mint].supply + amount)
              && AccountsFramed(s, r.value, {destination})
              && r.value.accounts[destination] == s.accounts[destination].(amount := s.accounts[destination].amount + amount)
  {
    if destination !in s.accounts then Err(InvalidAccountData)
    else if s.accounts[destination].mint != mint then Err(Custom(MintMismatch))
    else if mint !in s.mints then Err(InvalidAccountData)
    else
      var to, m := s.accounts[destination], s.mints[mint];
      if to.amount + amount > U64_MAX then Err(Custom(Overflow))
      else if m.supply + amount > U64_MAX then Err(Custom(Overflow))
      else
        Ok(LedgerState(s.mints[mint := m.(supply := m.supply + amount)],
                       s.accounts[destination := to.(amount := to.amount + amount)]))
  }

  /** Two mints to the same account are one mint of the sum: same outcome,
      same error and same final ledger. */
  lemma MintToTwice(s: LedgerState, mint: Pubkey, destination: Pubkey, x: U64, y: U64)
    requires x + y <= U64_MAX
    ensures (match MintTo(s, mint, destination, x)
             case Ok(t) => MintTo(t, mint, destination, y)
             case Err(e) => Err(e)) == MintTo(s, mint, destination, x + y)
  {
    var once := MintTo(s, mint, destination, x + y);
    match MintTo(s, mint, destination, x)
    case Err(e) =>
    case Ok(t) =>
      var twice := MintTo(t, mint, destination, y);
      if twice.Ok? {
        assert twice.value.mints == once.value.mints;
        assert twice.value.accounts == once.value.accounts;
      }
  }

  /** A transfer is undone by the transfer of the same amount back. */
  lemma TransferBack(s: LedgerState, source: Pubkey, destination: Pubkey, amount: U64)
    requires Transfer(s, source, destination, amount).Ok?
    ensures Transfer(Transfer(s, source, destination, amount).value, destination, source, amount) == Ok(s)
  {
    var t := Transfer(s, source, destination, amount).value;
    if source != destination {
      var back := Transfer(t, destination, source, amount);
      assert back.Ok?;
      assert back.value.accounts == s.accounts;
    }
  }

  /** How a handler's outcome `r` and the ledger it leaves (`after`) agree with
      its specification `spec` taken from the ledger `before`: success with
      exactly the specified ledger, or the specified error with the ledger as
      it was. */
  predicate Reflects(r: ProgramResult, before: LedgerState, after: LedgerState, spec: Result<LedgerState>) {
    match spec
    case Ok(t) => r.Ok? && after == t
    case Err(e) => r == Err(e) && after == before
  }

  /** The token program's storage, which `invoke` updates in place. */
  class Ledger {
    var mints: map<Pubkey, Mint>
    var accounts: map<Pubkey, TokenAccount>

    function State(): LedgerState
      reads this
    {
      LedgerState(mints, accounts)
    }

    constructor (s: LedgerState)
      ensures State() == s
    {
      mints := s.mints;
      accounts := s.accounts;
    }

    /** Reads a token account, as `TokenAccount::unpack` does. */
    method GetAccount(key: Pubkey) returns (r: Result<TokenAccount>)
      ensures r == UnpackAccount(State(), key)
    {
      if key in accounts {
        r := Ok(accounts[key]);
      } else {
        r := Err(InvalidAccountData);
      }
    }

    /** Reads a mint, as `Mint::unpack` does. */
    method GetMint(key: Pubkey) returns (r: Result<Mint>)
      ensures r == UnpackMint(State(), key)
    {
      if key in mints {
        r := Ok(mints[key]);
      } else {
        r := Err(InvalidAccountData);
      }
    }

    /** `invoke(&transfer(..., source, destination, ..., amount), ...)`. */
    method InvokeTransfer(source: Pubkey, destination: Pubkey, amount: U64) returns (r: ProgramResult)
      modifies this
      ensures Reflects(r, old(State()), State(), Transfer(old(State()), source, destination, amount))
    {
      var t := Transfer(State(), source, destination, amount);
      match t
      case Ok(next) =>
        accounts := next.accounts;
        r := Ok(());
      case Err(e) =>
        r := Err(e);
    }

    /** `invoke(&mint_to(..., mint, destination, ..., amount), ...)`. */
    method InvokeMintTo(mint: Pubkey, destination: Pubkey, amount: U64) returns (r: ProgramResult)
      modifies this
      ensures Reflects(r, old(State()), State(), MintTo(old(State()), mint, destination, amount))
    {
      var t := MintTo(State(), mint, destination, amount);
      match t
      case Ok(next) =>
        mints, accounts := next.mints, next.accounts;
        r := Ok(());
      case Err(e) =>
        r := Err(e);
    }

    /** Puts back a saved ledger: the runtime discarding a failed transaction. */
    method Restore(s: LedgerState)
      modifies this
      ensures State() == s
    {
      mints, accounts := s.mints, s.accounts;
    }
  }
}

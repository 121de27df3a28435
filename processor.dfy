/**
 * The on-ledger processor: it decodes the instruction, walks the account
 * list in a fixed order, checks each account, and on success issues a fixed
 * sequence of cross-program invocations. The methods follow the program
 * step by step; each is proved equal to a specification function, about
 * which the lemmas in ProcessorProperties are stated.
 */
module Processor {
  import opened Wrappers
  import opened Solana
  import opened Cpi
  import opened Errors
  import opened Borsh
  import opened Instructions

  /** What a run ends in, with the invocations it issued, in order. */
  type Outcome = (ProgramResult, seq<Invocation>)

  /** The outcome of a run that stopped before issuing any invocation. */
  datatype Checked<T> = Pass(context: T) | Stop(result: ProgramResult)

  // ----------------------------------------------------------- invocations

  /** Every invocation of `pending` succeeds after the ones before it. */
  ghost predicate AllSucceed(host: Host, issued: seq<Invocation>, pending: seq<Invocation>) {
    forall k :: 0 <= k < |pending| ==> host.invoke(issued + pending[..k], pending[k]).None?
  }

  lemma AllSucceedStep(host: Host, issued: seq<Invocation>, pending: seq<Invocation>)
    requires pending != []
    ensures AllSucceed(host, issued, pending) <==>
      host.invoke(issued, pending[0]).None? && AllSucceed(host, issued + [pending[0]], pending[1..])
  {
    forall k | 0 <= k < |pending| - 1
      ensures issued + pending[..k + 1] == (issued + [pending[0]]) + pending[1..][..k]
    {
      assert pending[..k + 1] == [pending[0]] + pending[1..][..k];
    }
    assert issued + pending[..0] == issued;
    if host.invoke(issued, pending[0]).None? && AllSucceed(host, issued + [pending[0]], pending[1..]) {
      forall k | 0 <= k < |pending|
        ensures host.invoke(issued + pending[..k], pending[k]).None?
      {
        if k > 0 {
          assert pending[k] == pending[1..][k - 1];
        }
      }
    }
  }

  /**
   * Issues `pending` in order after `issued`, as a chain of `invoke(...)?`:
   * the first invocation that fails ends the run with its error.
   */
  function Run(host: Host, issued: seq<Invocation>, pending: seq<Invocation>): (r: Outcome)
    ensures r.0 != Abort && |issued| <= |r.1| <= |issued| + |pending|
    decreases |pending|
  {
    if pending == [] then (Success, issued)
    else
      match host.invoke(issued, pending[0])
      case Some(e) => (Failure(e), issued + [pending[0]])
      case None => Run(host, issued + [pending[0]], pending[1..])
  }

  /**
   * A run issues a prefix of its plan; it succeeds exactly when every
   * planned invocation succeeds, and otherwise fails with the error of the
   * last invocation it issued.
   */
  lemma {:induction false} RunShape(host: Host, issued: seq<Invocation>, pending: seq<Invocation>)
    ensures var r := Run(host, issued, pending);
      && |issued| <= |r.1| <= |issued| + |pending| && r.1 == (issued + pending)[..|r.1|]
      && r.0 != Abort
      && (r.0 == Success <==> r.1 == issued + pending && AllSucceed(host, issued, pending))
      && (r.0.Failure? ==> |issued| < |r.1| && host.invoke(r.1[..|r.1| - 1], r.1[|r.1| - 1]) == Some(r.0.err))
    decreases |pending|
  {
    if pending == [] {
      assert issued + pending == issued;
    } else {
      var call := pending[0];
      AllSucceedStep(host, issued, pending);
      assert (issued + [call]) + pending[1..] == issued + pending;
      match host.invoke(issued, call)
      case Some(e) =>
        assert (issued + pending)[..|issued| + 1] == issued + [call];
      case None =>
        RunShape(host, issued + [call], pending[1..]);
    }
  }

  /** Issuing the invocation at position `k` of a planned run, after the ones before it. */
  lemma RunNext(host: Host, planned: seq<Invocation>, k: nat, issued: seq<Invocation>, invocation: Invocation)
    requires k < |planned| && issued == planned[..k] && invocation == planned[k]
    ensures issued + [invocation] == planned[..k + 1]
    ensures host.invoke(issued, invocation).None? ==>
      Run(host, issued, planned[k..]) == Run(host, issued + [invocation], planned[k + 1..])
    ensures host.invoke(issued, invocation).Some? ==>
      Run(host, issued, planned[k..]) == (Failure(host.invoke(issued, invocation).value), issued + [invocation])
  {
    assert planned[k..][0] == planned[k];
    assert planned[k..][1..] == planned[k + 1..];
    assert planned[..k] + [planned[k]] == planned[..k + 1];
  }

  // ------------------------------------------------------------------ Mint

  /** The keys and values the `Mint` checks establish, as the invocations use them. */
  datatype MintContext = MintContext(
    minter: Pubkey, owner: Pubkey, mintAccount: Pubkey, tokenAccount: Pubkey,
    tokenProgram: Pubkey, systemProgram: Pubkey, rentAccount: Pubkey,
    mintBump: byte, tokenBump: byte, rent: Rent)

  /** The checks of `process_mint`, in the program's order; the first that fails decides the result. */
  function ValidateMint(accounts: seq<AccountInfo>, name: Utf8, programId: Pubkey, host: Host)
    : (v: Checked<MintContext>)
    ensures v.Stop? ==> v.result != Success
  {
    var mismatch := Stop(Failure(ToProgramError(AccountMismatch)));
    if |accounts| < 1 then Stop(Failure(NotEnoughAccountKeys))
    else if !accounts[0].isSigner then Stop(Failure(MissingRequiredSignature))
    else if |accounts| < 5 then Stop(Failure(NotEnoughAccountKeys))
    else if accounts[4].key != SPL_TOKEN_ID then mismatch
    else if |accounts| < 6 then Stop(Failure(NotEnoughAccountKeys))
    else if accounts[5].key != SYSTEM_PROGRAM_ID then mismatch
    else
      match DeriveMintAccount(host.derive, programId, accounts[4].key, accounts[0].key, name)
      case None => Stop(Abort)
      case Some((mintPda, mintBump)) =>
        if mintPda != accounts[2].key then mismatch
        else
          match DeriveTokenAccount(host.derive, programId, accounts[4].key, accounts[0].key, name, accounts[1].key)
          case None => Stop(Abort)
          case Some((tokenPda, tokenBump)) =>
            if tokenPda != accounts[3].key then mismatch
            else if |accounts| < 7 then Stop(Failure(NotEnoughAccountKeys))
            else
              match host.loadRent(accounts[6])
              case Err(e) => Stop(Failure(e))
              case Ok(rent) =>
                Pass(MintContext(accounts[0].key, accounts[1].key, mintPda, tokenPda, accounts[4].key,
                                 accounts[5].key, accounts[6].key, mintBump, tokenBump, rent))
  }

  /** The signer seeds of the mint address: its six seeds, then its bump. */
  function MintSignerSeeds(c: MintContext, name: Utf8, programId: Pubkey): (seeds: seq<seq<byte>>)
    ensures |seeds| == 7 && seeds[6] == [c.mintBump]
  {
    MintAccountSeeds(programId, c.tokenProgram, c.minter, name) + [[c.mintBump]]
  }

  /** The signer seeds of the token-holding address: its seven seeds, then its bump. */
  function TokenSignerSeeds(c: MintContext, name: Utf8, programId: Pubkey): (seeds: seq<seq<byte>>)
    ensures |seeds| == 8 && seeds[7] == [c.tokenBump]
  {
    TokenAccountSeeds(programId, c.tokenProgram, c.minter, name, c.owner) + [[c.tokenBump]]
  }

  /** The six invocations of a `Mint` that passed its checks. */
  function MintCalls(c: MintContext, name: Utf8, programId: Pubkey): (calls: seq<Invocation>)
    ensures |calls| == 6
  {
    var mintSigner := MintSignerSeeds(c, name, programId);
    [ Invocation(CreateAccount(c.minter, c.mintAccount, c.rent.minimumBalance(MINT_LEN), MINT_LEN, c.tokenProgram),
                 [c.minter, c.mintAccount, c.tokenProgram, c.systemProgram], [mintSigner]),
      Invocation(CreateAccount(c.minter, c.tokenAccount, c.rent.minimumBalance(ACCOUNT_LEN), ACCOUNT_LEN, c.tokenProgram),
                 [c.minter, c.tokenAccount, c.tokenProgram, c.systemProgram], [TokenSignerSeeds(c, name, programId)]),
      Invocation(InitializeMint(c.tokenProgram, c.mintAccount, c.mintAccount, None, 0),
                 [c.mintAccount, c.rentAccount, c.tokenProgram], []),
      Invocation(InitializeAccount(c.tokenProgram, c.tokenAccount, c.mintAccount, c.owner),
                 [c.tokenAccount, c.mintAccount, c.owner, c.rentAccount, c.tokenProgram], []),
      Invocation(MintTo(c.tokenProgram, c.mintAccount, c.tokenAccount, c.mintAccount, [c.mintAccount], 1),
                 [c.mintAccount, c.tokenAccount, c.mintAccount, c.tokenProgram], [mintSigner]),
      Invocation(SetAuthority(c.tokenProgram, c.mintAccount, None, MintTokens, c.mintAccount, [c.mintAccount]),
                 [c.mintAccount, c.mintAccount, c.tokenProgram], [mintSigner]) ]
  }

  /** `process_mint`, as a function of its inputs. */
  function MintSpec(accounts: seq<AccountInfo>, name: Utf8, programId: Pubkey, host: Host): Outcome {
    match ValidateMint(accounts, name, programId, host)
    case Stop(r) => (r, [])
    case Pass(c) => Run(host, [], MintCalls(c, name, programId))
  }

  // ----------------------------------------------------------------- Mint2

  /** The keys the `Mint2` checks establish. */
  datatype Mint2Context = Mint2Context(
    minter: Pubkey, receiver: Pubkey, mint: Pubkey, tokenAccount: Pubkey,
    tokenProgram: Pubkey, rentAccount: Pubkey)

  /** The checks of `process_mint2`, in the program's order. */
  function ValidateMint2(accounts: seq<AccountInfo>): (v: Checked<Mint2Context>)
    ensures v.Stop? ==> v.result.Failure?
  {
    if |accounts| < 1 then Stop(Failure(NotEnoughAccountKeys))
    else if !accounts[0].isSigner then Stop(Failure(MissingRequiredSignature))
    else if |accounts| < 5 then Stop(Failure(NotEnoughAccountKeys))
    else if accounts[4].key != SPL_TOKEN_ID then Stop(Failure(ToProgramError(AccountMismatch)))
    else if accounts[2].owner != accounts[4].key || accounts[3].owner != accounts[4].key then
      Stop(Failure(IllegalOwner))
    else if |accounts| < 6 then Stop(Failure(NotEnoughAccountKeys))
    else
      Pass(Mint2Context(accounts[0].key, accounts[1].key, accounts[2].key, accounts[3].key,
                        accounts[4].key, accounts[5].key))
  }

  /** The four invocations of a `Mint2` that passed its checks; the minter signs directly. */
  function Mint2Calls(c: Mint2Context): (calls: seq<Invocation>)
    ensures |calls| == 4
  {
    [ Invocation(InitializeMint(c.tokenProgram, c.mint, c.minter, None, 0),
                 [c.mint, c.rentAccount, c.tokenProgram], []),
      Invocation(InitializeAccount(c.tokenProgram, c.tokenAccount, c.mint, c.receiver),
                 [c.tokenAccount, c.mint, c.receiver, c.rentAccount, c.tokenProgram], []),
      Invocation(MintTo(c.tokenProgram, c.mint, c.tokenAccount, c.minter, [c.minter], 1),
                 [c.mint, c.tokenAccount, c.minter], []),
      Invocation(SetAuthority(c.tokenProgram, c.mint, None, MintTokens, c.minter, [c.minter]),
                 [c.mint, c.minter], []) ]
  }

  /** `process_mint2`, as a function of its inputs. */
  function Mint2Spec(accounts: seq<AccountInfo>, host: Host): Outcome {
    match ValidateMint2(accounts)
    case Stop(r) => (r, [])
    case Pass(c) => Run(host, [], Mint2Calls(c))
  }

  // --------------------------------------------------------------- process

  /** The dispatch on the decoded instruction. */
  function ProcessInstruction(programId: Pubkey, accounts: seq<AccountInfo>, instruction: GloweInstruction,
                              host: Host)
    : Outcome
  {
    match instruction
    case Mint(name, _) => MintSpec(accounts, name, programId, host)
    case Mint2(_, _) => Mint2Spec(accounts, host)
  }

  /** `Processor::process`, as a function of its inputs. */
  function ProcessSpec(programId: Pubkey, accounts: seq<AccountInfo>, instructionData: seq<byte>, host: Host)
    : Outcome
  {
    match Decode(instructionData)
    case None => (Failure(ToProgramError(InvalidInstruction)), [])
    case Some(instruction) => ProcessInstruction(programId, accounts, instruction, host)
  }

  // ------------------------------------------------------- imperative code

  /** `accounts.iter()`, consumed with `next_account_info`. */
  class AccountIter {
    const accounts: seq<AccountInfo>
    var position: nat

    ghost predicate Valid()
      reads this
    {
      position <= |accounts|
    }

    constructor (accounts: seq<AccountInfo>)
      ensures Valid() && this.accounts == accounts && position == 0
    {
      this.accounts := accounts;
      position := 0;
    }

    /** `next_account_info`: the next account, or `NotEnoughAccountKeys` once none is left. */
    method Next() returns (r: Result<AccountInfo, ProgramError>)
      requires Valid()
      modifies this
      ensures Valid()
      ensures old(position) < |accounts| ==> r == Ok(accounts[old(position)]) && position == old(position) + 1
      ensures old(position) == |accounts| ==> r == Err(NotEnoughAccountKeys) && position == old(position)
    {
      if position < |accounts| {
        r := Ok(accounts[position]);
        position := position + 1;
      } else {
        r := Err(NotEnoughAccountKeys);
      }
    }
  }

  /** `dst[..src.len()].copy_from_slice(src)`. */
  method CopyFromSlice(dst: array<seq<byte>>, src: seq<seq<byte>>)
    requires |src| <= dst.Length
    modifies dst
    ensures dst[..|src|] == src
    ensures forall k :: |src| <= k < dst.Length ==> dst[k] == old(dst[k])
  {
    var i := 0;
    while i < |src|
      invariant 0 <= i <= |src|
      invariant forall k :: 0 <= k < i ==> dst[k] == src[k]
      invariant forall k :: i <= k < dst.Length ==> dst[k] == old(dst[k])
    {
      dst[i] := src[i];
      i := i + 1;
    }
  }

  /**
   * A signer-seed array: an array one longer than the derivation seeds,
   * filled with them by `copy_from_slice`, with the bump as its last seed.
   */
  method SignerSeeds(seeds: seq<seq<byte>>, bump: byte) returns (signer: seq<seq<byte>>)
    ensures signer == seeds + [[bump]]
  {
    var buffer := new seq<byte>[|seeds| + 1](_ => []);
    CopyFromSlice(buffer, seeds);
    buffer[|seeds|] := [bump];
    signer := buffer[..];
  }

  /** One `invoke` or `invoke_signed`, recorded after the ones already issued. */
  method Invoke(host: Host, issued: seq<Invocation>, invocation: Invocation)
    returns (err: Option<ProgramError>, now: seq<Invocation>)
    ensures err == host.invoke(issued, invocation) && now == issued + [invocation]
  {
    err := host.invoke(issued, invocation);
    now := issued + [invocation];
  }

  /**
   * The account walk of `process_mint` up to its first invocation: the
   * checks, the two derivations and the assembly of the two signer-seed
   * arrays.
   */
  method CheckMintAccounts(accounts: seq<AccountInfo>, name: Utf8, programId: Pubkey, host: Host)
    returns (v: Checked<MintContext>, mintSigner: seq<seq<byte>>, tokenSigner: seq<seq<byte>>)
    ensures v == ValidateMint(accounts, name, programId, host)
    ensures v.Pass? ==> mintSigner == MintSignerSeeds(v.context, name, programId)
    ensures v.Pass? ==> tokenSigner == TokenSignerSeeds(v.context, name, programId)
  {
    mintSigner, tokenSigner := [], [];
    var iter := new AccountIter(accounts);

    var next := iter.Next();
    if next.Err? { return Stop(Failure(next.error)), [], []; }
    var minter := next.value;
    if !minter.isSigner { return Stop(Failure(MissingRequiredSignature)), [], []; }

    next := iter.Next();
    if next.Err? { return Stop(Failure(next.error)), [], []; }
    var owner := next.value;

    next := iter.Next();
    if next.Err? { return Stop(Failure(next.error)), [], []; }
    var mintAccountInfo := next.value;

    next := iter.Next();
    if next.Err? { return Stop(Failure(next.error)), [], []; }
    var tokenAccountInfo := next.value;

    next := iter.Next();
    if next.Err? { return Stop(Failure(next.error)), [], []; }
    var tokenProgram := next.value;
    if tokenProgram.key != SPL_TOKEN_ID { return Stop(Failure(ToProgramError(AccountMismatch))), [], []; }

    next := iter.Next();
    if next.Err? { return Stop(Failure(next.error)), [], []; }
    var systemProgram := next.value;
    if systemProgram.key != SYSTEM_PROGRAM_ID { return Stop(Failure(ToProgramError(AccountMismatch))), [], []; }

    var mintDerived := DeriveMintAccount(host.derive, programId, tokenProgram.key, minter.key, name);
    if mintDerived.None? { return Stop(Abort), [], []; }
    var (mintPda, mintBump) := mintDerived.value;
    if mintPda != mintAccountInfo.key { return Stop(Failure(ToProgramError(AccountMismatch))), [], []; }

    var tokenDerived := DeriveTokenAccount(host.derive, programId, tokenProgram.key, minter.key, name, owner.key);
    if tokenDerived.None? { return Stop(Abort), [], []; }
    var (tokenPda, tokenBump) := tokenDerived.value;
    if tokenPda != tokenAccountInfo.key { return Stop(Failure(ToProgramError(AccountMismatch))), [], []; }

    mintSigner := SignerSeeds(MintAccountSeeds(programId, tokenProgram.key, minter.key, name), mintBump);
    tokenSigner := SignerSeeds(TokenAccountSeeds(programId, tokenProgram.key, minter.key, name, owner.key), tokenBump);

    next := iter.Next();
    if next.Err? { return Stop(Failure(next.error)), [], []; }
    var rentAccount := next.value;
    var loaded := host.loadRent(rentAccount);
    if loaded.Err? { return Stop(Failure(loaded.error)), [], []; }

    v := Pass(MintContext(minter.key, owner.key, mintPda, tokenPda, tokenProgram.key, systemProgram.key,
                          rentAccount.key, mintBump, tokenBump, loaded.value));
  }

  method ProcessMint(accounts: seq<AccountInfo>, name: Utf8, url: Utf8, programId: Pubkey, host: Host)
    returns (result: ProgramResult, calls: seq<Invocation>)
    ensures (result, calls) == MintSpec(accounts, name, programId, host)
  {
    var checked, mintSigner, tokenSigner := CheckMintAccounts(accounts, name, programId, host);
    if checked.Stop? { return checked.result, []; }
    var c := checked.context;
    var (minter, owner, mintPda, tokenPda) := (c.minter, c.owner, c.mintAccount, c.tokenAccount);
    var (tokenProgram, systemProgram, rentAccount, rent) := (c.tokenProgram, c.systemProgram, c.rentAccount, c.rent);
    ghost var planned := MintCalls(c, name, programId);
    calls := [];
    var err;
    assert MintSpec(accounts, name, programId, host) == Run(host, planned[..0], planned[0..]);
    assert planned[6..] == [];

    var invocation := Invocation(
        CreateAccount(minter, mintPda, rent.minimumBalance(MINT_LEN), MINT_LEN, tokenProgram),
        [minter, mintPda, tokenProgram, systemProgram], [mintSigner]);
    RunNext(host, planned, 0, calls, invocation);
    err, calls := Invoke(host, calls, invocation);
    if err.Some? { return Failure(err.value), calls; }

    invocation := Invocation(
        CreateAccount(minter, tokenPda, rent.minimumBalance(ACCOUNT_LEN), ACCOUNT_LEN, tokenProgram),
        [minter, tokenPda, tokenProgram, systemProgram], [tokenSigner]);
    RunNext(host, planned, 1, calls, invocation);
    err, calls := Invoke(host, calls, invocation);
    if err.Some? { return Failure(err.value), calls; }

    invocation := Invocation(
        InitializeMint(tokenProgram, mintPda, mintPda, None, 0),
        [mintPda, rentAccount, tokenProgram], []);
    RunNext(host, planned, 2, calls, invocation);
    err, calls := Invoke(host, calls, invocation);
    if err.Some? { return Failure(err.value), calls; }

    invocation := Invocation(
        InitializeAccount(tokenProgram, tokenPda, mintPda, owner),
        [tokenPda, mintPda, owner, rentAccount, tokenProgram], []);
    RunNext(host, planned, 3, calls, invocation);
    err, calls := Invoke(host, calls, invocation);
    if err.Some? { return Failure(err.value), calls; }

    invocation := Invocation(
        MintTo(tokenProgram, mintPda, tokenPda, mintPda, [mintPda], 1),
        [mintPda, tokenPda, mintPda, tokenProgram], [mintSigner]);
    RunNext(host, planned, 4, calls, invocation);
    err, calls := Invoke(host, calls, invocation);
    if err.Some? { return Failure(err.value), calls; }

    invocation := Invocation(
        SetAuthority(tokenProgram, mintPda, None, MintTokens, mintPda, [mintPda]),
        [mintPda, mintPda, tokenProgram], [mintSigner]);
    RunNext(host, planned, 5, calls, invocation);
    err, calls := Invoke(host, calls, invocation);
    if err.Some? { return Failure(err.value), calls; }

    return Success, calls;
  }

  /** `process_mint2`: the account walk and checks, then four plain invocations. */
  method ProcessMint2(accounts: seq<AccountInfo>, name: Utf8, url: Utf8, programId: Pubkey, host: Host)
    returns (result: ProgramResult, calls: seq<Invocation>)
    ensures (result, calls) == Mint2Spec(accounts, host)
  {
    calls := [];
    var iter := new AccountIter(accounts);

    var next := iter.Next();
    if next.Err? { return Failure(next.error), []; }
    var minter := next.value;
    if !minter.isSigner { return Failure(MissingRequiredSignature), []; }

    next := iter.Next();
    if next.Err? { return Failure(next.error), []; }
    var receiver := next.value;

    next := iter.Next();
    if next.Err? { return Failure(next.error), []; }
    var mint := next.value;

    next := iter.Next();
    if next.Err? { return Failure(next.error), []; }
    var tokenAccount := next.value;

    next := iter.Next();
    if next.Err? { return Failure(next.error), []; }
    var tokenProgram := next.value;
    if tokenProgram.key != SPL_TOKEN_ID { return Failure(ToProgramError(AccountMismatch)), []; }
    if mint.owner != tokenProgram.key || tokenAccount.owner != tokenProgram.key {
      return Failure(IllegalOwner), [];
    }

    next := iter.Next();
    if next.Err? { return Failure(next.error), []; }
    var rentAccount := next.value;

    ghost var planned := Mint2Calls(ValidateMint2(accounts).context);
    assert Mint2Spec(accounts, host) == Run(host, planned[..0], planned[0..]);
    assert planned[4..] == [];
    var err;

    var invocation := Invocation(
        InitializeMint(tokenProgram.key, mint.key, minter.key, None, 0),
        [mint.key, rentAccount.key, tokenProgram.key], []);
    RunNext(host, planned, 0, calls, invocation);
    err, calls := Invoke(host, calls, invocation);
    if err.Some? { return Failure(err.value), calls; }

    invocation := Invocation(
        InitializeAccount(tokenProgram.key, tokenAccount.key, mint.key, receiver.key),
        [tokenAccount.key, mint.key, receiver.key, rentAccount.key, tokenProgram.key], []);
    RunNext(host, planned, 1, calls, invocation);
    err, calls := Invoke(host, calls, invocation);
    if err.Some? { return Failure(err.value), calls; }

    invocation := Invocation(
        MintTo(tokenProgram.key, mint.key, tokenAccount.key, minter.key, [minter.key], 1),
        [mint.key, tokenAccount.key, minter.key], []);
    RunNext(host, planned, 2, calls, invocation);
    err, calls := Invoke(host, calls, invocation);
    if err.Some? { return Failure(err.value), calls; }

    invocation := Invocation(
        SetAuthority(tokenProgram.key, mint.key, None, MintTokens, minter.key, [minter.key]),
        [mint.key, minter.key], []);
    RunNext(host, planned, 3, calls, invocation);
    err, calls := Invoke(host, calls, invocation);
    if err.Some? { return Failure(err.value), calls; }

    return Success, calls;
  }

  /** `Processor::process`: decode the instruction data, then dispatch on the variant. */
  method Process(programId: Pubkey, accounts: seq<AccountInfo>, instructionData: seq<byte>, host: Host)
    returns (result: ProgramResult, calls: seq<Invocation>)
    ensures (result, calls) == ProcessSpec(programId, accounts, instructionData, host)
  {
    var instruction := Decode(instructionData);
    if instruction.None? { return Failure(ToProgramError(InvalidInstruction)), []; }
    match instruction.value
    case Mint(name, url) =>
      result, calls := ProcessMint(accounts, name, url, programId, host);
    case Mint2(name, url) =>
      result, calls := ProcessMint2(accounts, name, url, programId, host);
  }
}

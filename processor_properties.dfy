/**
 * What the processor promises, stated over its specification functions:
 * the order of its checks, the exact invocations of a successful run, where
 * each error comes from, and that the instructions the client builders
 * produce are the ones the processor accepts.
 */
module ProcessorProperties {
  import opened Wrappers
  import opened Solana
  import opened Cpi
  import opened Errors
  import opened Borsh
  import opened Instructions
  import opened Processor

  // ---------------------------------------------------------------- decode

  /** Data that does not decode fails with `InvalidInstruction`, whatever the accounts, before any invocation. */
  lemma ProcessRejectsUndecodable(programId: Pubkey, accounts: seq<AccountInfo>, data: seq<byte>, host: Host)
    requires Decode(data).None?
    ensures ProcessSpec(programId, accounts, data, host) == (Failure(Custom(0)), [])
  {
    ErrorCodes();
  }

  /** With data a decoder accepts, the outcome is that of the decoded variant's path. */
  lemma ProcessDispatches(programId: Pubkey, accounts: seq<AccountInfo>, i: GloweInstruction, host: Host)
    requires Serializable(i)
    ensures i.Mint? ==>
      ProcessSpec(programId, accounts, Encode(i).value, host) == MintSpec(accounts, i.name, programId, host)
    ensures i.Mint2? ==>
      ProcessSpec(programId, accounts, Encode(i).value, host) == Mint2Spec(accounts, host)
  {
    EncodeDecode(i);
  }

  /** `url` never affects a `Mint`. */
  lemma MintIgnoresUrl(programId: Pubkey, accounts: seq<AccountInfo>, name: Utf8, url: Utf8, url': Utf8,
                       host: Host)
    requires Serializable(Mint(name, url)) && Serializable(Mint(name, url'))
    ensures ProcessSpec(programId, accounts, Encode(Mint(name, url)).value, host)
         == ProcessSpec(programId, accounts, Encode(Mint(name, url')).value, host)
  {
    EncodeDecode(Mint(name, url));
    EncodeDecode(Mint(name, url'));
  }

  /** Neither `name` nor `url` affects a `Mint2`. */
  lemma Mint2IgnoresNameAndUrl(programId: Pubkey, accounts: seq<AccountInfo>, name: Utf8, url: Utf8,
                               name': Utf8, url': Utf8, host: Host)
    requires Serializable(Mint2(name, url)) && Serializable(Mint2(name', url'))
    ensures ProcessSpec(programId, accounts, Encode(Mint2(name, url)).value, host)
         == ProcessSpec(programId, accounts, Encode(Mint2(name', url')).value, host)
  {
    EncodeDecode(Mint2(name, url));
    EncodeDecode(Mint2(name', url'));
  }

  // ------------------------------------------------------------ Mint checks

  /** Everything the `Mint` checks demand, stated at once rather than in order. */
  predicate MintChecksPass(accounts: seq<AccountInfo>, name: Utf8, programId: Pubkey, host: Host) {
    && |accounts| >= 7
    && accounts[0].isSigner
    && accounts[4].key == SPL_TOKEN_ID
    && accounts[5].key == SYSTEM_PROGRAM_ID
    && DeriveMintAccount(host.derive, programId, SPL_TOKEN_ID, accounts[0].key, name).Some?
    && DeriveMintAccount(host.derive, programId, SPL_TOKEN_ID, accounts[0].key, name).value.0 == accounts[2].key
    && DeriveTokenAccount(host.derive, programId, SPL_TOKEN_ID, accounts[0].key, name, accounts[1].key).Some?
    && DeriveTokenAccount(host.derive, programId, SPL_TOKEN_ID, accounts[0].key, name, accounts[1].key).value.0
       == accounts[3].key
    && host.loadRent(accounts[6]).Ok?
  }

  /**
   * The ordered checks pass exactly when all of them hold, and then the
   * context is made of the accounts' keys, the two bumps and the rent.
   */
  lemma MintValidationExact(accounts: seq<AccountInfo>, name: Utf8, programId: Pubkey, host: Host)
    ensures ValidateMint(accounts, name, programId, host).Pass? <==> MintChecksPass(accounts, name, programId, host)
    ensures MintChecksPass(accounts, name, programId, host) ==>
      ValidateMint(accounts, name, programId, host).context
      == MintContext(accounts[0].key, accounts[1].key, accounts[2].key, accounts[3].key,
                     SPL_TOKEN_ID, SYSTEM_PROGRAM_ID, accounts[6].key,
                     DeriveMintAccount(host.derive, programId, SPL_TOKEN_ID, accounts[0].key, name).value.1,
                     DeriveTokenAccount(host.derive, programId, SPL_TOKEN_ID, accounts[0].key, name,
                                        accounts[1].key).value.1,
                     host.loadRent(accounts[6]).value)
  {
  }

  /** A `Mint` whose first account did not sign fails before any other check and any invocation. */
  lemma MintRequiresSigner(accounts: seq<AccountInfo>, name: Utf8, programId: Pubkey, host: Host)
    requires |accounts| >= 1 && !accounts[0].isSigner
    ensures MintSpec(accounts, name, programId, host) == (Failure(MissingRequiredSignature), [])
  {
  }

  /**
   * Account 4 must be the SPL token program, checked before account 5 is
   * taken, and account 5 the system program.
   */
  lemma MintChecksWellKnownIds(accounts: seq<AccountInfo>, name: Utf8, programId: Pubkey, host: Host)
    requires |accounts| >= 5 && accounts[0].isSigner
    requires accounts[4].key != SPL_TOKEN_ID || (|accounts| >= 6 && accounts[5].key != SYSTEM_PROGRAM_ID)
    ensures MintSpec(accounts, name, programId, host) == (Failure(Custom(2)), [])
  {
    ErrorCodes();
  }

  /**
   * Account 2 must be the derived mint address; the token-holding address
   * is not derived before this check.
   */
  lemma MintChecksMintAddress(accounts: seq<AccountInfo>, name: Utf8, programId: Pubkey, host: Host)
    requires |accounts| >= 6 && accounts[0].isSigner
    requires accounts[4].key == SPL_TOKEN_ID && accounts[5].key == SYSTEM_PROGRAM_ID
    requires DeriveMintAccount(host.derive, programId, SPL_TOKEN_ID, accounts[0].key, name).Some?
    requires DeriveMintAccount(host.derive, programId, SPL_TOKEN_ID, accounts[0].key, name).value.0 != accounts[2].key
    ensures MintSpec(accounts, name, programId, host) == (Failure(Custom(2)), [])
  {
    ErrorCodes();
  }

  /** Once account 2 matches, account 3 must be the derived token-holding address for account 1 as owner. */
  lemma MintChecksTokenAddress(accounts: seq<AccountInfo>, name: Utf8, programId: Pubkey, host: Host)
    requires |accounts| >= 6 && accounts[0].isSigner
    requires accounts[4].key == SPL_TOKEN_ID && accounts[5].key == SYSTEM_PROGRAM_ID
    requires DeriveMintAccount(host.derive, programId, SPL_TOKEN_ID, accounts[0].key, name).Some?
    requires DeriveMintAccount(host.derive, programId, SPL_TOKEN_ID, accounts[0].key, name).value.0 == accounts[2].key
    requires DeriveTokenAccount(host.derive, programId, SPL_TOKEN_ID, accounts[0].key, name, accounts[1].key).Some?
    requires DeriveTokenAccount(host.derive, programId, SPL_TOKEN_ID, accounts[0].key, name, accounts[1].key).value.0
             != accounts[3].key
    ensures MintSpec(accounts, name, programId, host) == (Failure(Custom(2)), [])
  {
    ErrorCodes();
  }

  /**
   * A `Mint` whose name is longer than a seed may be panics at the first
   * derivation, once the signer and the program ids have passed.
   */
  lemma MintAbortsOnLongName(accounts: seq<AccountInfo>, name: Utf8, programId: Pubkey, host: Host)
    requires |accounts| >= 6 && accounts[0].isSigner
    requires accounts[4].key == SPL_TOKEN_ID && accounts[5].key == SYSTEM_PROGRAM_ID
    requires |name| > MAX_SEED_LEN
    ensures MintSpec(accounts, name, programId, host) == (Abort, [])
    ensures !MintChecksPass(accounts, name, programId, host)
  {
  }

  /**
   * The outcome of any `Mint`: no invocation unless every check passed;
   * then a prefix of the six planned invocations, failing with the error
   * of the last one issued, or succeeding exactly when all six succeeded.
   */
  lemma MintOutcome(accounts: seq<AccountInfo>, name: Utf8, programId: Pubkey, host: Host)
    ensures var (result, calls) := MintSpec(accounts, name, programId, host);
      && (calls != [] ==> MintChecksPass(accounts, name, programId, host))
      && (MintChecksPass(accounts, name, programId, host) ==>
            var planned := MintCalls(ValidateMint(accounts, name, programId, host).context, name, programId);
            && 1 <= |calls| <= 6 && calls == planned[..|calls|]
            && result != Abort
            && (result == Success <==> calls == planned && AllSucceed(host, [], planned))
            && (result.Failure? ==> host.invoke(calls[..|calls| - 1], calls[|calls| - 1]) == Some(result.err)))
  {
    MintValidationExact(accounts, name, programId, host);
    var v := ValidateMint(accounts, name, programId, host);
    if v.Pass? {
      var planned := MintCalls(v.context, name, programId);
      RunShape(host, [], planned);
      assert [] + planned == planned;
    }
  }

  /**
   * A successful `Mint` issued exactly these six invocations, in this order,
   * with the mint and token addresses' signer seeds.
   */
  lemma MintSuccessCalls(accounts: seq<AccountInfo>, name: Utf8, programId: Pubkey, host: Host)
    requires MintSpec(accounts, name, programId, host).0 == Success
    ensures MintChecksPass(accounts, name, programId, host)
    ensures
      var calls := MintSpec(accounts, name, programId, host).1;
      var (payer, owner, mint, token, rentAccount) :=
        (accounts[0].key, accounts[1].key, accounts[2].key, accounts[3].key, accounts[6].key);
      var rent := host.loadRent(accounts[6]).value;
      var mintSigner := MintAccountSeeds(programId, SPL_TOKEN_ID, payer, name)
        + [[DeriveMintAccount(host.derive, programId, SPL_TOKEN_ID, payer, name).value.1]];
      var tokenSigner := TokenAccountSeeds(programId, SPL_TOKEN_ID, payer, name, owner)
        + [[DeriveTokenAccount(host.derive, programId, SPL_TOKEN_ID, payer, name, owner).value.1]];
      && calls == [
        Invocation(CreateAccount(payer, mint, rent.minimumBalance(MINT_LEN), MINT_LEN, SPL_TOKEN_ID),
                   [payer, mint, SPL_TOKEN_ID, SYSTEM_PROGRAM_ID], [mintSigner]),
        Invocation(CreateAccount(payer, token, rent.minimumBalance(ACCOUNT_LEN), ACCOUNT_LEN, SPL_TOKEN_ID),
                   [payer, token, SPL_TOKEN_ID, SYSTEM_PROGRAM_ID], [tokenSigner]),
        Invocation(InitializeMint(SPL_TOKEN_ID, mint, mint, None, 0),
                   [mint, rentAccount, SPL_TOKEN_ID], []),
        Invocation(InitializeAccount(SPL_TOKEN_ID, token, mint, owner),
                   [token, mint, owner, rentAccount, SPL_TOKEN_ID], []),
        Invocation(MintTo(SPL_TOKEN_ID, mint, token, mint, [mint], 1),
                   [mint, token, mint, SPL_TOKEN_ID], [mintSigner]),
        Invocation(SetAuthority(SPL_TOKEN_ID, mint, None, MintTokens, mint, [mint]),
                   [mint, mint, SPL_TOKEN_ID], [mintSigner]) ]
      && AllSucceed(host, [], calls)
  {
    MintOutcome(accounts, name, programId, host);
    assert MintSpec(accounts, name, programId, host).1 != [];
  }

  /**
   * Every error of a `Mint` is a missing account, a missing signature, a
   * mismatched account, an error loading the rent sysvar, or the error of
   * the last invocation issued. The program never raises `NotRentExempt`
   * itself.
   */
  lemma MintErrorOrigin(accounts: seq<AccountInfo>, name: Utf8, programId: Pubkey, host: Host)
    requires MintSpec(accounts, name, programId, host).0.Failure?
    ensures var (result, calls) := MintSpec(accounts, name, programId, host);
      || (calls == [] && result.err in {NotEnoughAccountKeys, MissingRequiredSignature, Custom(2)})
      || (calls == [] && |accounts| >= 7 && host.loadRent(accounts[6]) == Err(result.err))
      || (calls != [] && host.invoke(calls[..|calls| - 1], calls[|calls| - 1]) == Some(result.err))
  {
    ErrorCodes();
    MintOutcome(accounts, name, programId, host);
  }

  // ----------------------------------------------------------- Mint2 checks

  /** Everything the `Mint2` checks demand; no system program is checked. */
  predicate Mint2ChecksPass(accounts: seq<AccountInfo>) {
    && |accounts| >= 6
    && accounts[0].isSigner
    && accounts[4].key == SPL_TOKEN_ID
    && accounts[2].owner == SPL_TOKEN_ID
    && accounts[3].owner == SPL_TOKEN_ID
  }

  /** The ordered checks pass exactly when all of them hold; the context is then the accounts' keys. */
  lemma Mint2ValidationExact(accounts: seq<AccountInfo>)
    ensures ValidateMint2(accounts).Pass? <==> Mint2ChecksPass(accounts)
    ensures Mint2ChecksPass(accounts) ==>
      ValidateMint2(accounts).context
      == Mint2Context(accounts[0].key, accounts[1].key, accounts[2].key, accounts[3].key,
                      SPL_TOKEN_ID, accounts[5].key)
  {
  }

  /** A `Mint2` whose first account did not sign fails before any other check and any invocation. */
  lemma Mint2RequiresSigner(accounts: seq<AccountInfo>, host: Host)
    requires |accounts| >= 1 && !accounts[0].isSigner
    ensures Mint2Spec(accounts, host) == (Failure(MissingRequiredSignature), [])
  {
  }

  /** Account 4 must be the SPL token program. */
  lemma Mint2ChecksTokenProgram(accounts: seq<AccountInfo>, host: Host)
    requires |accounts| >= 5 && accounts[0].isSigner && accounts[4].key != SPL_TOKEN_ID
    ensures Mint2Spec(accounts, host) == (Failure(Custom(2)), [])
  {
    ErrorCodes();
  }

  /** Accounts 2 and 3 must be owned by the token program, which is checked before the rent account is taken. */
  lemma Mint2ChecksOwners(accounts: seq<AccountInfo>, host: Host)
    requires |accounts| >= 5 && accounts[0].isSigner && accounts[4].key == SPL_TOKEN_ID
    requires accounts[2].owner != SPL_TOKEN_ID || accounts[3].owner != SPL_TOKEN_ID
    ensures Mint2Spec(accounts, host) == (Failure(IllegalOwner), [])
  {
  }

  /** The outcome of any `Mint2`, as for `Mint` but over its four planned invocations. */
  lemma Mint2Outcome(accounts: seq<AccountInfo>, host: Host)
    ensures var (result, calls) := Mint2Spec(accounts, host);
      && (calls != [] ==> Mint2ChecksPass(accounts))
      && (Mint2ChecksPass(accounts) ==>
            var planned := Mint2Calls(ValidateMint2(accounts).context);
            && 1 <= |calls| <= 4 && calls == planned[..|calls|]
            && result != Abort
            && (result == Success <==> calls == planned && AllSucceed(host, [], planned))
            && (result.Failure? ==> host.invoke(calls[..|calls| - 1], calls[|calls| - 1]) == Some(result.err)))
  {
    Mint2ValidationExact(accounts);
    var v := ValidateMint2(accounts);
    if v.Pass? {
      var planned := Mint2Calls(v.context);
      RunShape(host, [], planned);
      assert [] + planned == planned;
    }
  }

  /**
   * A successful `Mint2` issued exactly these four invocations, none signed
   * by a derived address: the minter is the mint authority throughout.
   */
  lemma Mint2SuccessCalls(accounts: seq<AccountInfo>, host: Host)
    requires Mint2Spec(accounts, host).0 == Success
    ensures Mint2ChecksPass(accounts)
    ensures
      var calls := Mint2Spec(accounts, host).1;
      var (minter, receiver, mint, token, rentAccount) :=
        (accounts[0].key, accounts[1].key, accounts[2].key, accounts[3].key, accounts[5].key);
      && calls == [
        Invocation(InitializeMint(SPL_TOKEN_ID, mint, minter, None, 0), [mint, rentAccount, SPL_TOKEN_ID], []),
        Invocation(InitializeAccount(SPL_TOKEN_ID, token, mint, receiver),
                   [token, mint, receiver, rentAccount, SPL_TOKEN_ID], []),
        Invocation(MintTo(SPL_TOKEN_ID, mint, token, minter, [minter], 1), [mint, token, minter], []),
        Invocation(SetAuthority(SPL_TOKEN_ID, mint, None, MintTokens, minter, [minter]), [mint, minter], []) ]
      && AllSucceed(host, [], calls)
  {
    Mint2Outcome(accounts, host);
    assert Mint2Spec(accounts, host).1 != [];
  }

  /**
   * Every error of a `Mint2` is a missing account, a missing signature, a
   * mismatched token program, a wrong owner, or the error of the last
   * invocation issued; `NotRentExempt` only ever comes from an invocation.
   */
  lemma Mint2ErrorOrigin(accounts: seq<AccountInfo>, host: Host)
    requires Mint2Spec(accounts, host).0.Failure?
    ensures var (result, calls) := Mint2Spec(accounts, host);
      || (calls == [] && result.err in {NotEnoughAccountKeys, MissingRequiredSignature, Custom(2), IllegalOwner})
      || (calls != [] && host.invoke(calls[..|calls| - 1], calls[|calls| - 1]) == Some(result.err))
  {
    ErrorCodes();
    Mint2Outcome(accounts, host);
  }

  // ------------------------------------------------------- client builders

  /** The keys of the account list an instruction carries, as the runtime hands them to the program. */
  predicate Supplies(infos: seq<AccountInfo>, ix: Instruction) {
    |infos| == |ix.accounts| && forall k :: 0 <= k < |infos| ==> infos[k].key == ix.accounts[k].pubkey
  }

  /**
   * An instruction built by `mint`, sent to the placeholder program
   * identity with the payer's signature, passes every `Mint` check once the
   * rent sysvar loads, and is processed as that `Mint`.
   */
  lemma MintInstructionAccepted(host: Host, name: Utf8, url: Utf8, payer: Pubkey, owner: Pubkey,
                                infos: seq<AccountInfo>)
    requires MintInstruction(host.derive, LOOKUP_PROGRAM_ID, name, url, payer, owner).Some?
    requires Supplies(infos, MintInstruction(host.derive, LOOKUP_PROGRAM_ID, name, url, payer, owner).value)
    requires infos[0].isSigner && host.loadRent(infos[6]).Ok?
    ensures MintChecksPass(infos, name, LOOKUP_PROGRAM_ID, host)
    ensures ProcessSpec(LOOKUP_PROGRAM_ID, infos,
                        MintInstruction(host.derive, LOOKUP_PROGRAM_ID, name, url, payer, owner).value.data, host)
         == MintSpec(infos, name, LOOKUP_PROGRAM_ID, host)
  {
    var ix := MintInstruction(host.derive, LOOKUP_PROGRAM_ID, name, url, payer, owner).value;
    var keys := Keys(ix.accounts);
    assert keys[0] == payer && keys[1] == owner && keys[4] == SPL_TOKEN_ID && keys[5] == SYSTEM_PROGRAM_ID;
    assert infos[2].key == keys[2] && infos[3].key == keys[3];
  }

  /**
   * The lookups behind `mint` always derive under the placeholder identity,
   * so under any other program identity its accounts pass the `Mint`
   * checks only if the deriver maps two different seed lists, under two
   * different programs, to the same address.
   */
  lemma MintInstructionTiedToLookupId(host: Host, programId: Pubkey, name: Utf8, url: Utf8, payer: Pubkey,
                                      owner: Pubkey, infos: seq<AccountInfo>)
    requires programId != LOOKUP_PROGRAM_ID
    requires MintInstruction(host.derive, programId, name, url, payer, owner).Some?
    requires Supplies(infos, MintInstruction(host.derive, programId, name, url, payer, owner).value)
    requires MintChecksPass(infos, name, programId, host)
    ensures MintAccountSeeds(programId, SPL_TOKEN_ID, payer, name)
         != MintAccountSeeds(LOOKUP_PROGRAM_ID, SPL_TOKEN_ID, payer, name)
    ensures host.derive(MintAccountSeeds(programId, SPL_TOKEN_ID, payer, name), programId).value.0
         == host.derive(MintAccountSeeds(LOOKUP_PROGRAM_ID, SPL_TOKEN_ID, payer, name), LOOKUP_PROGRAM_ID).value.0
  {
    var ix := MintInstruction(host.derive, programId, name, url, payer, owner).value;
    var keys := Keys(ix.accounts);
    assert keys[0] == payer && infos[0].key == payer && infos[2].key == keys[2];
    assert MintAccountSeeds(programId, SPL_TOKEN_ID, payer, name)[3] == programId;
  }

  /** `mint` panics on a name longer than a seed may be, whatever the deriver. */
  lemma MintInstructionRejectsLongName(derive: Deriver, programId: Pubkey, name: Utf8, url: Utf8, payer: Pubkey,
                                       owner: Pubkey)
    requires |name| > MAX_SEED_LEN
    ensures MintInstruction(derive, programId, name, url, payer, owner).None?
  {
  }

  /**
   * An instruction built by `mint2`, with the payer's signature and a mint
   * and token account the token program owns, passes every `Mint2` check
   * and is processed as a `Mint2`, under any program identity.
   */
  lemma Mint2InstructionAccepted(host: Host, programId: Pubkey, name: Utf8, url: Utf8, payer: Pubkey,
                                 owner: Pubkey, mint: Pubkey, tokenHolder: Pubkey, infos: seq<AccountInfo>)
    requires Mint2Instruction(programId, name, url, payer, owner, mint, tokenHolder).Some?
    requires Supplies(infos, Mint2Instruction(programId, name, url, payer, owner, mint, tokenHolder).value)
    requires infos[0].isSigner && infos[2].owner == SPL_TOKEN_ID && infos[3].owner == SPL_TOKEN_ID
    ensures Mint2ChecksPass(infos)
    ensures ProcessSpec(programId, infos,
                        Mint2Instruction(programId, name, url, payer, owner, mint, tokenHolder).value.data, host)
         == Mint2Spec(infos, host)
  {
    var ix := Mint2Instruction(programId, name, url, payer, owner, mint, tokenHolder).value;
    assert Keys(ix.accounts)[4] == SPL_TOKEN_ID;
  }
}

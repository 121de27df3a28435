# glowenft, modelled in Dafny

glowenft is a Solana program that mints a one-off NFT. A client builds a
`Mint` or `Mint2` instruction. The program decodes it, walks its account list
in a fixed order and checks each account. `Mint` checks the signer, the SPL
token and system program ids, and that the mint and token-holding accounts
are the program-derived addresses (PDAs) for the NFT's name. `Mint2` checks
the signer, the SPL token id, and that the caller's mint and token accounts
belong to the token program. Once the checks pass, the program issues a fixed
sequence of cross-program invocations. `Mint` creates both accounts,
initializes the mint and the token account, mints one token and revokes the
mint authority. `Mint2` does the last four of these steps.

The project is laid out as follows:

- `wrappers.dfy`: `Option` and `Result`.
- `solana.dfy`, module `Solana`: bytes, public keys, `ProgramError`, account
  infos and metas, instructions, and the three well-known ids.
- `solana.dfy`, module `Cpi`: the system and token program calls the program
  issues, recorded as descriptors, and the `Host`. The `Host` holds
  everything the runtime supplies: the address deriver, the rent sysvar
  loader and the outcome of each invocation.
- `borsh.dfy`: the Borsh wire format of a `String`. This is a u32
  little-endian length followed by the UTF-8 bytes. The file also holds
  UTF-8 validity.
- `errors.dfy`: `GloweError` and its conversion to `ProgramError`.
- `instructions.dfy`:
  - the instruction enum and its encoding and decoding;
  - the two seed lists;
  - the address lookups;
  - the `mint` and `mint2` builders.
- `processor.dfy`: the processor itself.
  - It is written imperatively. The account iterator is a class. The seed
    arrays are filled in place. Each invocation is issued as one step.
  - Each method is proved equal to a specification function
    (`MintSpec`, `Mint2Spec`, `ProcessSpec`).
  - An outcome is the program result together with the list of invocations
    issued, in order. `Abort` stands for a panic.
- `processor_properties.dfy`: the lemmas about those specification
  functions.

Three details of the code that the model keeps:

- `Mint2` accepts `name` but does not use it.
- The `Mint2` owner check comes before the rent account is taken.
- Each `next_account_info` can fail with `NotEnoughAccountKeys` at its own
  point in the order of checks.

## Model

| member | source | states |
|---|---|---|
| Errors.Discriminant | src/errors.rs:5-17 | each error's code is its position in the declaration, always below 3 |
| Errors.ToProgramError | src/errors.rs:19-23 | every program error becomes a `Custom` code below 3, never a built-in error |
| Errors.ErrorCodes | src/errors.rs:5-23 | `InvalidInstruction`, `NotRentExempt` and `AccountMismatch` map to `Custom(0)`, `Custom(1)` and `Custom(2)` |
| Errors.ToProgramErrorInjective | src/errors.rs:19-23 | distinct errors give distinct codes |
| Borsh.Pow256Four | src/instructions.rs:10 | 256^4 is the u32 range |
| Borsh.LittleEndian | src/instructions.rs:10 | a `k`-byte little-endian encoding has `k` bytes |
| Borsh.FromLittleEndian | src/instructions.rs:10 | the value read from `b` is below 256^\|b\| |
| Borsh.FromLittleEndianOfLittleEndian | src/instructions.rs:10 | reading back `k` little-endian bytes gives the value |
| Borsh.LittleEndianOfFromLittleEndian | src/instructions.rs:10 | re-encoding a read value gives the same bytes |
| Borsh.SequenceLength | src/instructions.rs:24-25 | the length of a UTF-8 sequence, from its lead byte and continuation bytes (Unicode table 3-7); 0 when malformed |
| Borsh.ValidUtf8 | src/instructions.rs:24-25 | the check `String::from_utf8` makes: the bytes split into well-formed sequences as `SequenceLength` measures them. `ParseString` rejects the rest, and `AsciiIsUtf8` shows every ASCII string passes |
| Borsh.AsciiIsUtf8 | src/lib.rs:18 | every ASCII byte string, such as an NFT name like "GloweNFT", is valid UTF-8 |
| Borsh.EncodeString | src/instructions.rs:22-26 | a string is written as a 4-byte length, then exactly its bytes |
| Borsh.ParseU32 | src/instructions.rs:10 | reads 4 bytes when there are at least 4, leaving the rest |
| Borsh.ParseString | src/instructions.rs:10 | a parsed string is valid UTF-8 and shorter than the input |
| Borsh.ParseStringOfEncoded | src/instructions.rs:10 | parsing an encoded string followed by anything gives the string back and the rest |
| Borsh.ParseStringExact | src/instructions.rs:10 | whatever parses is an encoded string followed by the rest |
| Instructions.Tag | src/instructions.rs:10-42 | `Mint` has variant index 0 and `Mint2` has variant index 1 |
| Instructions.Encode | src/instructions.rs:10-42 | encoding succeeds exactly when both strings fit a u32 length. Its length is 9 plus the two string lengths, and its first byte is the tag |
| Instructions.Decode | src/instructions.rs:10-42 | empty data and unknown tags are rejected |
| Instructions.ParseInstruction | src/instructions.rs:10-42 | the derived reader behind `try_from_slice`. A parsed instruction starts with its own tag, and at least 9 bytes are consumed. `ParseInstructionOfEncoded` and `ParseInstructionExact` state it exactly |
| Instructions.ParseInstructionOfEncoded | src/instructions.rs:10-42 | parsing an encoding followed by anything gives the instruction back and the rest |
| Instructions.ParseInstructionExact | src/instructions.rs:10-42 | whatever parses is an encoding followed by the rest |
| Instructions.EncodeDecode | src/instructions.rs:10-42 | `Decode(Encode(i)) == i` for every serializable `i` |
| Instructions.DecodeEncode | src/instructions.rs:10-42 | data that decodes is exactly the encoding of its result |
| Instructions.DecodeRejectsTruncated | src/instructions.rs:10-42 | every proper prefix of an encoding is rejected |
| Instructions.MintAccountSeeds | src/instructions.rs:56-70 | six seeds, with the name second and the `mint` tag third |
| Instructions.TokenAccountSeeds | src/instructions.rs:96-112 | seven seeds, with the name second and the `owner` tag third |
| Instructions.MintAndTokenSeedsDiffer | src/instructions.rs:56-112 | a mint seed list and a token seed list always differ at index 2. For names of at most 32 bytes, their concatenated bytes, which are what is hashed, differ too |
| Instructions.MintSeedBytes | src/instructions.rs:56-70 | the seed bytes that are hashed are the tag, the name, `mint` and the three keys, concatenated |
| Instructions.TokenSeedBytes | src/instructions.rs:96-112 | the same for the token seeds, with the owner key last |
| Instructions.MintSeedBytesInjective | src/instructions.rs:56-70 | equal concatenated mint seeds imply an equal name, program, token program and payer |
| Instructions.TokenSeedBytesInjective | src/instructions.rs:96-112 | equal concatenated token seeds imply equal names and equal keys, the owner included |
| Instructions.DeriveMintAccount | src/instructions.rs:44-54 | a name longer than 32 bytes, the seed limit, makes the derivation panic. Otherwise the result is the bump search over exactly the mint seeds under the given program |
| Instructions.DeriveTokenAccount | src/instructions.rs:83-94 | the same for the token seeds, the owner included |
| Instructions.GetMintAccount | src/instructions.rs:73-81 | the mint address derived from the mint seeds under the fixed `[42; 32]` id and the SPL token id. It exists only for a name of at most 32 bytes |
| Instructions.GetTokenAccount | src/instructions.rs:115-124 | the token-holding address derived from the owner's seeds under the same fixed ids, with the same name limit |
| Instructions.MintAccountMetas | src/instructions.rs:148-156 | the seven keys, in order. Only the payer signs. The payer, mint and token accounts are writable |
| Instructions.Mint2AccountMetas | src/instructions.rs:187-194 | six keys with no system program. Only the payer signs. The payer, mint and token holder are writable |
| Instructions.MintInstruction | src/instructions.rs:133-159 | built exactly when serialization and both lookups succeed. It has the given program id, data that decodes to `Mint{name, url}`, and the seven keys and flags in order |
| Instructions.Mint2Instruction | src/instructions.rs:170-197 | built exactly when serialization succeeds. It has the caller's mint and token holder at positions 2 and 3, data that decodes to `Mint2{name, url}`, and six metas |
| Processor.ValidateMint | src/processor.rs:48-134 | the checks of `process_mint` in program order. A check that stops the run never reports success |
| Processor.MintSignerSeeds | src/processor.rs:103-115 | seven seeds, the mint bump alone in the last |
| Processor.TokenSignerSeeds | src/processor.rs:117-130 | eight seeds, the token bump alone in the last |
| Processor.MintCalls | src/processor.rs:136-278 | the six invocations of a checked `Mint` |
| Processor.Run | src/processor.rs:136-280 | the chain of `invoke(...)?`. It never panics, and it issues at least what was issued before and at most the whole plan. `RunShape` states the rest |
| Processor.RunShape | src/processor.rs:136-280 | a chain of `invoke(...)?` issues a prefix of its plan and never aborts. It succeeds exactly when every invocation succeeds; otherwise it fails with the error of the last invocation issued |
| Processor.RunNext | src/processor.rs:147-156 | issuing the next planned invocation either ends the run with its error or continues with the rest |
| Processor.ValidateMint2 | src/processor.rs:284-317 | the checks of `process_mint2` in program order; a stop is always a failure |
| Processor.Mint2Calls | src/processor.rs:319-409 | the four invocations of a checked `Mint2` |
| Processor.AccountIter.constructor | src/processor.rs:48 | the iterator starts at the first account |
| Processor.AccountIter.Next | src/processor.rs:51-66 | `next_account_info` yields the next account and advances, or yields `NotEnoughAccountKeys` once the list is used up |
| Processor.CopyFromSlice | src/processor.rs:111-112 | the slice is copied into the front of the array; the rest of the array is unchanged |
| Processor.SignerSeeds | src/processor.rs:111-130 | the signer-seed array holds the derivation seeds in order, then the bump alone as its last seed |
| Processor.CheckMintAccounts | src/processor.rs:48-134 | the account walk equals `ValidateMint`. When it passes, the seed arrays hold the mint and token signer seeds |
| Processor.ProcessMint | src/processor.rs:42-281 | the result and issued invocations equal `MintSpec` |
| Processor.ProcessMint2 | src/processor.rs:284-412 | the result and issued invocations equal `Mint2Spec` |
| Processor.Process | src/processor.rs:20-38 | the result and issued invocations equal `ProcessSpec` (decode, then dispatch) |
| ProcessorProperties.ProcessRejectsUndecodable | src/processor.rs:25-26 | undecodable data fails with `Custom(0)` and issues nothing, whatever the accounts |
| ProcessorProperties.ProcessDispatches | src/processor.rs:28-37 | an encoded `Mint` runs the `Mint` path and an encoded `Mint2` runs the `Mint2` path |
| ProcessorProperties.MintIgnoresUrl | src/processor.rs:45 | two `Mint` instructions that differ only in `url` have the same outcome |
| ProcessorProperties.Mint2IgnoresNameAndUrl | src/processor.rs:284-289 | the outcome of `Mint2` depends on neither `name` nor `url` |
| ProcessorProperties.MintValidationExact | src/processor.rs:48-134 | the ordered checks pass exactly when all of `MintChecksPass` hold. The context is then made of the account keys, both bumps and the rent |
| ProcessorProperties.MintRequiresSigner | src/processor.rs:51-54 | an unsigned account 0 gives `MissingRequiredSignature` with no invocation, whatever follows |
| ProcessorProperties.MintChecksWellKnownIds | src/processor.rs:66-77 | with a signer, a wrong token program at 4 gives `Custom(2)` with no invocation, even when there is no account 5. A wrong system program at 5 gives the same |
| ProcessorProperties.MintChecksMintAddress | src/processor.rs:79-88 | an account 2 that is not the derived mint address gives `Custom(2)` with no invocation. The token address need not be derivable |
| ProcessorProperties.MintChecksTokenAddress | src/processor.rs:90-101 | once account 2 matches, an account 3 that is not the derived token-holding address for owner account 1 gives `Custom(2)` with no invocation |
| ProcessorProperties.MintAbortsOnLongName | src/processor.rs:79-85 | a name over 32 bytes panics at the first derivation once the signer and ids pass, with no invocation |
| ProcessorProperties.MintOutcome | src/processor.rs:42-281 | no invocation before all checks pass. After that comes a non-empty prefix of the six planned invocations. The run succeeds exactly when all six succeed, and otherwise fails with the last one's error |
| ProcessorProperties.MintSuccessCalls | src/processor.rs:103-280 | a successful `Mint` issued exactly these six invocations, with their sizes, authorities, amount 1, account lists and signer seeds (seeds followed by the bump) |
| ProcessorProperties.MintErrorOrigin | src/processor.rs:42-281 | every `Mint` error is a missing account, a missing signature, `Custom(2)`, a rent-loading error, or the last invocation's error. `NotRentExempt` is never raised by the program itself |
| ProcessorProperties.Mint2ValidationExact | src/processor.rs:290-317 | the ordered checks pass exactly when `Mint2ChecksPass` holds, with no system program check |
| ProcessorProperties.Mint2RequiresSigner | src/processor.rs:293-296 | an unsigned account 0 gives `MissingRequiredSignature` with no invocation |
| ProcessorProperties.Mint2ChecksTokenProgram | src/processor.rs:307-311 | a wrong token program gives `Custom(2)` with no invocation |
| ProcessorProperties.Mint2ChecksOwners | src/processor.rs:312-314 | a mint or token account not owned by the token program gives `IllegalOwner` with no invocation, even without a rent account |
| ProcessorProperties.Mint2Outcome | src/processor.rs:284-412 | no invocation before all checks pass, then a prefix of the four planned invocations, with the same success and failure rules as `Mint` |
| ProcessorProperties.Mint2SuccessCalls | src/processor.rs:319-411 | a successful `Mint2` issued exactly these four unsigned invocations. The minter is the mint authority and the receiver owns the token account |
| ProcessorProperties.Mint2ErrorOrigin | src/processor.rs:284-412 | every `Mint2` error is a missing account, a missing signature, `Custom(2)`, `IllegalOwner`, or the last invocation's error |
| ProcessorProperties.MintInstructionAccepted | src/instructions.rs:133-159 | under program id `[42; 32]`, a `mint`-built instruction signed by the payer passes every `Mint` check once rent loads, and runs as that `Mint` |
| ProcessorProperties.MintInstructionTiedToLookupId | src/instructions.rs:73-81 | under any other program id, `mint`'s accounts pass the checks only if the deriver maps two different seed lists to one address |
| ProcessorProperties.MintInstructionRejectsLongName | src/instructions.rs:151 | `mint` panics on a name over 32 bytes, whatever the deriver |
| ProcessorProperties.Mint2InstructionAccepted | src/instructions.rs:170-197 | a `mint2`-built instruction, signed and with token-program-owned accounts, passes every `Mint2` check and runs as that `Mint2` |

## Left out

- `Pubkey::find_program_address`: hashing, the off-curve test and the bump
  search are not modelled. The deriver is a function the host supplies, so
  a derivation is deterministic by construction. `None` stands for the
  panic when no bump exists. The 32-byte seed limit is modelled: it makes
  a `Mint` or a `mint` with a longer name panic. The 16-seed limit is not
  modelled, because the program never passes more than eight seeds. Uniqueness of derived addresses depends on
  the hash. The model proves only that the seed bytes determine the name
  and keys (`MintSeedBytesInjective`, `TokenSeedBytesInjective`).
- `Rent::from_account_info` and `Rent::minimum_balance`: the loader is a
  host function returning a rent value or an error. The minimum balance is
  an opaque function of the size.
- The system program, the SPL token program and the runtime's
  `invoke`/`invoke_signed`: each invocation is recorded as a descriptor.
  Its success or error is a host function of the invocations issued so far
  and the invocation itself. The following are therefore beyond the model:
  token supply, the cap after the authority is revoked, a second `Mint` of
  the same name failing because the account exists, and whether signer
  seeds are accepted.
- The SPL instruction constructors (`initialize_mint` and so on) would fail
  only for a wrong token program id. That id is checked before they run,
  so their `?` is not modelled.
- `msg!` logging, the entrypoint module, and the `solana_program_test`
  harness in src/lib.rs are not modelled.
- The Borsh derive macro is not modelled. Only the wire format it produces
  for this enum is.
- `Mint::LEN` (82) and `Account::LEN` (165) are named constants. The bytes
  of the token, system and rent sysvar ids are the decodings of their
  base58 addresses. They are used only for equality.
- Account data, lamports and writability of `AccountInfo` are not
  modelled. The program reads only the key, the signer flag and the owner.
- The two pipelines are modelled as two functions, not as one parameterized
  pipeline, because the program has two separate functions.
